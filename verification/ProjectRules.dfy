// What the project workflow does with one event, one child and one report, in the words of
// the messages themselves: which texts are commands, where replies go, what is sent.
module ProjectRules {
  import opened Text
  import opened Domain
  import opened Project
  import opened ProjectLaws
  import opened ProjectTrace

  // ---- words -------------------------------------------------------------------------

  // Lower-casing replaces the capital letters, the two runes beyond ASCII whose small letter
  // is ASCII, and no other ASCII rune.
  lemma {:induction false} LowerIs(s: string)
    ensures |Lower(s)| == |s|
    ensures forall i, k :: 0 <= i < |s| && 0 <= k < 26 && s[i] == "ABCDEFGHIJKLMNOPQRSTUVWXYZ"[k] ==>
              Lower(s)[i] == "abcdefghijklmnopqrstuvwxyz"[k]
    ensures forall i :: 0 <= i < |s| ==>
              (s[i] == '\U{130}' ==> Lower(s)[i] == 'i') && (s[i] == '\U{212A}' ==> Lower(s)[i] == 'k')
    ensures forall i :: 0 <= i < |s| && s[i] !in "ABCDEFGHIJKLMNOPQRSTUVWXYZ\U{130}\U{212A}" ==> Lower(s)[i] == s[i]
  {
    if s != "" {
      LowerIs(s[1..]);
      assert forall i :: 0 < i < |s| ==> s[i] == s[1..][i - 1] && Lower(s)[i] == Lower(s[1..])[i - 1];
      CapitalsAre(s[0]);
    }
  }

  lemma CapitalsAre(c: char)
    ensures forall k :: 0 <= k < 26 ==> "ABCDEFGHIJKLMNOPQRSTUVWXYZ"[k] == (k + 65) as char
    ensures forall k :: 0 <= k < 26 ==> "abcdefghijklmnopqrstuvwxyz"[k] == (k + 97) as char
    ensures 'A' <= c <= 'Z' ==> "ABCDEFGHIJKLMNOPQRSTUVWXYZ\U{130}\U{212A}"[c as int - 65] == c
  {
  }

  function Metadatum(e: Event, key: string): string {
    TrimSpace(Lookup(e.metadata, key))
  }

  function ControlWord(e: Event): string {
    Lower(Metadatum(e, "control"))
  }

  function BodyWord(e: Event): string {
    Lower(TrimSpace(e.body))
  }

  // Control metadata decides before the text does.
  predicate AsksToCancel(e: Event) {
    || ControlWord(e) in {"cancel", "stop"}
    || (ControlWord(e) !in {"cancel", "stop", "interrupt"} && BodyWord(e) in {"cancel", "/cancel", "stop", "/stop"})
  }

  predicate AsksToInterrupt(e: Event) {
    || ControlWord(e) == "interrupt"
    || (ControlWord(e) !in {"cancel", "stop", "interrupt"} && BodyWord(e) in {"interrupt", "/interrupt"})
  }

  predicate Scheduled(e: Event) {
    Metadatum(e, "queue_policy") == "scheduled_task"
  }

  // The first n runes of a text are its first word.
  predicate IsFirstWord(text: string, n: nat) {
    && n <= |text| && (forall i :: 0 <= i < n ==> !IsSpace(text[i]))
    && (n < |text| ==> IsSpace(text[n]))
  }

  // The first word is the onboarding command, alone or addressed to someone.
  predicate Onboards(body: string) {
    var text := TrimSpace(body);
    exists n :: 0 <= n <= |text| && IsFirstWord(text, n) && (text[..n] == "/onboard" || "/onboard@" < text[..n])
  }

  predicate OpensTask(e: Event) {
    TrimSpace(e.body) == "/new" || TrimSpace(e.body) == "\U{1F576}\U{FE0F}\U{1F526}" || Onboards(e.body)
  }

  // A message in the main channel of Discord or Telegram: in no thread, and no reply.
  predicate InMainChannel(e: Event) {
    && (e.channelType.Discord? || e.channelType.Telegram?)
    && Blank(e.threadId) && Metadatum(e, "reply_to_message_id") == ""
  }

  lemma {:induction false} FirstFieldIs(s: string)
    ensures FirstField(s) <= s && IsFirstWord(s, |FirstField(s)|)
  {
    if s != "" && !IsSpace(s[0]) {
      FirstFieldIs(s[1..]);
    }
  }

  lemma {:induction false} FirstWordIsUnique(s: string, n: nat)
    requires IsFirstWord(s, n)
    ensures FirstField(s) == s[..n]
  {
    if n > 0 {
      assert s[1..][..n - 1] == s[..n][1..];
      FirstWordIsUnique(s[1..], n - 1);
    }
  }

  lemma {:induction false} NoTarget(word: string)
    requires '@' !in word
    ensures WithoutTarget(word) == word
  {
    if word != "" {
      NoTarget(word[1..]);
      assert word == [word[0]] + word[1..];
    }
  }

  lemma {:induction false} WithoutTargetIs(word: string, k: nat)
    requires k < |word| && word[k] == '@' && '@' !in word[..k]
    ensures WithoutTarget(word) == if k + 1 < |word| then word[..k] else word
  {
    if k > 0 {
      assert word[..k] == [word[0]] + word[1..][..k - 1];
      assert word == [word[0]] + word[1..];
      WithoutTargetIs(word[1..], k - 1);
    }
  }

  lemma {:induction false} FirstAt(word: string) returns (k: nat)
    requires '@' in word
    ensures k < |word| && word[k] == '@' && '@' !in word[..k]
  {
    if word[0] == '@' {
      k := 0;
    } else {
      assert word == [word[0]] + word[1..];
      k := FirstAt(word[1..]);
      assert word[..k + 1] == [word[0]] + word[1..][..k];
      k := k + 1;
    }
  }

  lemma AddressedIs(word: string)
    ensures WithoutTarget(word) == "/onboard" <==> word == "/onboard" || "/onboard@" < word
  {
    if '@' in word {
      var k := FirstAt(word);
      WithoutTargetIs(word, k);
      TargetAt(word, k);
    } else {
      NoTarget(word);
    }
    AddressHasAt(word);
    hide WithoutTarget;
  }

  lemma AddressHasAt(word: string)
    ensures "/onboard@" <= word ==> |word| > 8 && word[8] == '@' && '@' in word && word[..8] == "/onboard"
  {
    if "/onboard@" <= word {
      assert word[8] == "/onboard@"[8] && word[..8] == "/onboard@"[..8];
    }
  }

  lemma TargetAt(word: string, k: nat)
    requires k < |word| && word[k] == '@' && '@' !in word[..k]
    ensures "/onboard@" <= word <==> word[..k] == "/onboard"
    ensures word != "/onboard"
  {
    assert word[k] in word && '@' !in "/onboard";
    assert forall i :: 0 <= i < k ==> word[..k][i] == word[i] != '@';
    if word[..k] == "/onboard" {
      assert word[..k + 1] == word[..k] + [word[k]];
    }
    AddressHasAt(word);
    if "/onboard@" <= word {
      assert forall i :: 0 <= i < 8 ==> word[i] == word[..8][i] == "/onboard"[i] != '@';
    }
  }

  lemma OnboardingIs(body: string)
    ensures IsOnboardingCommand(body) <==> Onboards(body)
  {
    var text := TrimSpace(body);
    hide TrimSpace, WithoutTarget, IsFirstWord;
    FirstFieldIs(text);
    var n := |FirstField(text)|;
    AddressedIs(text[..n]);
    forall m | 0 <= m <= |text| && IsFirstWord(text, m) ensures text[..m] == FirstField(text) {
      FirstWordIsUnique(text, m);
      AddressedIs(text[..m]);
    }
  }

  // ---- owners --------------------------------------------------------------------------

  // The first of some keys that has an owner.
  function FirstOwner(owners: map<string, string>, keys: seq<string>): string {
    if keys == [] then ""
    else if keys[0] in owners && !Blank(owners[keys[0]]) then TrimSpace(owners[keys[0]])
    else FirstOwner(owners, keys[1..])
  }

  // Where the owner of a thread is looked up: the thread in its channel, the thread alone,
  // the thread that has the channel's own id, the channel alone.
  function ThreadKeys(e: Event): seq<string> {
    var thread, channel := TrimSpace(e.threadId), TrimSpace(e.channelId);
    (if thread == "" then [] else [if channel == "" then thread else channel + "\0" + thread, thread])
    + (if channel == "" then [] else [channel + "\0" + channel, channel])
  }

  function Owner(s: State, e: Event): string {
    var reply := Metadatum(e, "reply_to_message_id");
    var byReply := if reply == "" then "" else FirstOwner(s.messageOwners, [reply]);
    if byReply != "" then byReply else FirstOwner(s.threadOwners, ThreadKeys(e))
  }

  lemma OwnersAre(s: State, e: Event)
    ensures Owner(s, e) == if OwnerByReply(s.messageOwners, e) != "" then OwnerByReply(s.messageOwners, e)
                           else OwnerByThread(s.threadOwners, e)
  {
    ThreadOwnerIs(s.threadOwners, e);
    var reply := ReplyTo(e);
    OneKey(s.messageOwners, reply, []);
    assert [reply] + [] == [reply];
    hide TrimSpace, FirstOwner, ThreadKeys, OwnerByThread, OwnerAt;
    NoKeys(s.messageOwners);
  }

  lemma NoKeys(owners: map<string, string>)
    ensures FirstOwner(owners, []) == ""
  {
  }

  lemma ThreadOwnerIs(owners: map<string, string>, e: Event)
    ensures FirstOwner(owners, ThreadKeys(e)) == OwnerByThread(owners, e)
  {
    var thread, channel := TrimSpace(e.threadId), TrimSpace(e.channelId);
    TrimSpaceOfTrimmed(thread);
    TrimSpaceOfTrimmed(channel);
    var inThread := [if channel == "" then thread else channel + "\0" + thread, thread];
    var inChannel := [channel + "\0" + channel, channel];
    hide TrimSpace;
    assert thread != "" ==> inThread[0] == ThreadOwnerKey(e.channelId, thread);
    assert channel != "" ==> inChannel[0] == ThreadOwnerKey(channel, channel);
    hide ThreadOwnerKey, OwnerAt, FirstOwner;
    TwoKeys(owners, inThread, if channel == "" then [] else inChannel);
    TwoKeys(owners, inChannel, []);
    NoKeys(owners);
    assert inThread + [] == inThread && inChannel + [] == inChannel && [] + inChannel == inChannel;
  }

  lemma OneKey(owners: map<string, string>, key: string, rest: seq<string>)
    ensures FirstOwner(owners, [key] + rest)
         == if OwnerAt(owners, key) != "" then OwnerAt(owners, key) else FirstOwner(owners, rest)
  {
    assert ([key] + rest)[1..] == rest;
    assert TrimSpace("") == "";
    hide TrimSpace;
  }

  lemma TwoKeys(owners: map<string, string>, keys: seq<string>, rest: seq<string>)
    requires |keys| == 2
    ensures FirstOwner(owners, keys + rest)
         == if OwnerAt(owners, keys[0]) != "" then OwnerAt(owners, keys[0])
            else if OwnerAt(owners, keys[1]) != "" then OwnerAt(owners, keys[1])
            else FirstOwner(owners, rest)
  {
    hide OwnerAt, FirstOwner;
    OneKey(owners, keys[0], [keys[1]] + rest);
    OneKey(owners, keys[1], rest);
    assert keys + rest == [keys[0]] + ([keys[1]] + rest);
  }

  // ---- one event -------------------------------------------------------------------------

  // An event without an id is always fresh.
  predicate Fresh(s: State, e: Event) {
    Blank(e.id) || TrimSpace(e.id) !in s.recent
  }

  // The window after a fresh event: its id is the newest of at most 1000.
  function Window(s: State, e: Event): seq<string> {
    if Blank(e.id) then s.recent
    else
      var ids := s.recent + [TrimSpace(e.id)];
      if |ids| <= 1000 then ids else ids[|ids| - 1000..]
  }

  // Another queued event or active task has the same schedule.
  predicate ScheduleIsBusy(s: State, e: Event) {
    var id := Metadatum(e, "schedule_id");
    && id != ""
    && ((exists i :: 0 <= i < |s.queue| && Metadatum(s.queue[i], "schedule_id") == id)
        || (exists k :: k in s.active && Metadatum(s.active[k].event, "schedule_id") == id))
  }

  // The event becomes a task of its own and nothing is sent.
  ghost predicate IsQueued(p: Params, w: World, e: Event)
    requires w.phase == Blocked
  {
    && OutOf(w, Signal(e)) == []
    && Next(p, w, Signal(e)).s == w.s.(queue := w.s.queue + [e], recent := Window(w.s, e))
  }

  // Nothing but the window takes notice, and these signals are sent.
  ghost predicate OnlySends(p: Params, w: World, e: Event, out: seq<Outgoing>)
    requires w.phase == Blocked
  {
    && OutOf(w, Signal(e)) == out
    && Next(p, w, Signal(e)).s == w.s.(recent := Window(w.s, e))
  }

  lemma RepeatedIsIgnored(p: Params, w: World, e: Event)
    requires w.phase == Blocked && !Fresh(w.s, e)
    ensures OutOf(w, Signal(e)) == [] && Next(p, w, Signal(e)).s == w.s
  {
    hide TrimSpace;
  }

  lemma ScheduledIsQueuedOnce(p: Params, w: World, e: Event)
    requires w.phase == Blocked && Fresh(w.s, e) && Scheduled(e)
    ensures if ScheduleIsBusy(w.s, e) then OnlySends(p, w, e, []) else IsQueued(p, w, e)
  {
    hide TrimSpace, NotedSignal;
  }

  lemma OpeningIsQueued(p: Params, w: World, e: Event)
    requires w.phase == Blocked && Fresh(w.s, e) && !Scheduled(e) && OpensTask(e)
    ensures IsQueued(p, w, e)
  {
    OnboardingIs(e.body);
    hide TrimSpace, NotedSignal, IsOnboardingCommand, Onboards;
  }

  // An event that belongs to a task goes to that task, as a reply, if it says anything.
  lemma OwnedIsHandedOn(p: Params, w: World, e: Event)
    requires w.phase == Blocked && Fresh(w.s, e) && !Scheduled(e) && !OpensTask(e) && Owner(w.s, e) != ""
    ensures OutOf(w, Signal(e))
         == if AllSpace(e.body) then []
            else [AdditionalContext(Owner(w.s, e), e.(metadata := e.metadata["control" := "task_reply"]))]
    ensures var s := Next(p, w, Signal(e)).s;
            && s.queue == w.s.queue && s.active == w.s.active && s.recent == Window(w.s, e)
            && s.pending == w.s.pending && s.processed == w.s.processed
  {
    OnboardingIs(e.body);
    OwnersAre(w.s, e);
    BlankIsAllSpace(e.body);
    TaskReplyIsTrimmed();
    hide TrimSpace, NotedSignal, IsOnboardingCommand, Onboards, Owner, OwnerByReply, OwnerByThread, RegisterMessage,
         RegisterThreads;
  }

  lemma TaskReplyIsTrimmed()
    ensures TrimSpace("task_reply") == "task_reply" && !Blank("task_reply")
  {
    TrimSpaceOfTrimmed("task_reply");
  }

  lemma MainMessageIsQueued(p: Params, w: World, e: Event)
    requires w.phase == Blocked && Fresh(w.s, e) && !Scheduled(e) && !OpensTask(e) && Owner(w.s, e) == ""
    requires InMainChannel(e)
    ensures IsQueued(p, w, e)
  {
    OnboardingIs(e.body);
    OwnersAre(w.s, e);
    hide TrimSpace, NotedSignal, IsOnboardingCommand, Onboards, Owner, OwnerByReply, OwnerByThread;
  }

  // A command goes to the task under the least event id; without a task it does nothing.
  // Any other event that nobody owns becomes a task.
  lemma CommandsAreObeyed(p: Params, steps: seq<Step>, w: World, e: Event)
    requires Run(p, Initial, steps, w) && w.phase == Blocked
    requires Fresh(w.s, e) && !Scheduled(e) && !OpensTask(e) && Owner(w.s, e) == "" && !InMainChannel(e)
    ensures forall k :: IsFirst(w.s.active.Keys, k) ==>
              var task := w.s.active[k].workflowId;
              && (AsksToCancel(e) ==> OnlySends(p, w, e, [Cancel(task, e)]))
              && (AsksToInterrupt(e) ==> OnlySends(p, w, e, [Interrupt(task, e)]))
    ensures w.s.active == map[] && (AsksToCancel(e) || AsksToInterrupt(e)) ==> OnlySends(p, w, e, [])
    ensures !AsksToCancel(e) && !AsksToInterrupt(e) ==> IsQueued(p, w, e)
    ensures !(AsksToCancel(e) && AsksToInterrupt(e))
  {
    hide AsksToCancel, AsksToInterrupt, OnlySends, IsQueued, Owner, OpensTask, Scheduled, InMainChannel, Fresh;
    InitialInv(p);
    RunKeepsInv(p, Initial, steps, w);
    ControlIs(e);
    assert ActiveOk(p, w.s.active);
    hide Run, Inv, ControlAction;
    FirstTask(p, w.s.active);
    hide ActiveOk, FirstWorkflowId;
    Controls(p, w, e, FirstWorkflowId(w.s.active));
  }

  lemma FirstTask(p: Params, active: map<string, ActiveTask>)
    requires ActiveOk(p, active)
    ensures active == map[] ==> FirstWorkflowId(active) == ""
    ensures forall k :: IsFirst(active.Keys, k) ==> FirstWorkflowId(active) == active[k].workflowId != ""
  {
    hide FirstWorkflowId;
    forall k | IsFirst(active.Keys, k) ensures FirstWorkflowId(active) == active[k].workflowId != "" {
      FirstIsUnique(active, k);
      assert |active[k].workflowId| >= 6;
    }
    NoFirst(active);
  }

  lemma Controls(p: Params, w: World, e: Event, target: string)
    requires w.phase == Blocked && target == FirstWorkflowId(w.s.active)
    requires Fresh(w.s, e) && !Scheduled(e) && !OpensTask(e) && Owner(w.s, e) == "" && !InMainChannel(e)
    ensures match ControlAction(e)
            case NoControl => IsQueued(p, w, e)
            case CancelTask => OnlySends(p, w, e, if target == "" then [] else [Cancel(target, e)])
            case InterruptTask => OnlySends(p, w, e, if target == "" then [] else [Interrupt(target, e)])
  {
    OnboardingIs(e.body);
    OwnersAre(w.s, e);
    hide TrimSpace, NotedSignal, IsOnboardingCommand, Onboards, Owner, OwnerByReply, OwnerByThread, ControlAction,
         FirstWorkflowId;
  }

  lemma NoFirst(active: map<string, ActiveTask>)
    ensures active == map[] ==> FirstWorkflowId(active) == ""
  {
  }

  lemma ControlIs(e: Event)
    ensures ControlAction(e) == if AsksToCancel(e) then CancelTask else if AsksToInterrupt(e) then InterruptTask
                                else NoControl
    ensures !(AsksToCancel(e) && AsksToInterrupt(e))
  {
    hide Lower, TrimSpace;
  }

  // ---- the order of event ids ----------------------------------------------------------------

  // The order of sort.Strings: a text comes before its continuations, and otherwise the
  // first rune that differs decides.
  lemma {:induction false} StringLeIs(a: string, b: string)
    ensures StringLe(a, b) <==> a <= b || exists i :: 0 <= i < |a| && i < |b| && a[..i] == b[..i] && a[i] < b[i]
  {
    if a != "" && b != "" {
      var x, y := a[1..], b[1..];
      StringLeIs(x, y);
      forall i | 0 < i <= |a| && i <= |b| && a[..i] == b[..i] ensures a[0] == b[0] {
        assert a[..i][0] == a[0] && b[..i][0] == b[0];
      }
      if a[0] == b[0] {
        assert a == [a[0]] + x && b == [b[0]] + y;
        forall i | 0 <= i < |x| && i < |y|
          ensures x[..i] == y[..i] <==> a[..i + 1] == b[..i + 1]
          ensures x[i] == a[i + 1] && y[i] == b[i + 1]
        {
          assert a[..i + 1] == [a[0]] + x[..i] && b[..i + 1] == [b[0]] + y[..i];
          assert a[..i + 1][1..] == x[..i] && b[..i + 1][1..] == y[..i];
        }
        if i :| 0 <= i < |x| && i < |y| && x[..i] == y[..i] && x[i] < y[i] {
          assert a[..i + 1] == b[..i + 1] && a[i + 1] < b[i + 1];
        }
        if i :| 0 <= i < |a| && i < |b| && a[..i] == b[..i] && a[i] < b[i] {
          assert x[..i - 1] == y[..i - 1] && x[i - 1] < y[i - 1];
        }
      } else if a[0] < b[0] {
        assert a[..0] == b[..0];
      }
    } else if a == "" {
      assert a <= b;
    }
  }

  // ---- children and reports ------------------------------------------------------------------

  // A started child is the task of the event at the head of the queue, under an id made of
  // project and event; one that fails to start leaves a report of the failure.
  lemma StartIs(p: Params, w: World, ok: bool, failure: string)
    requires Enabled(p, w, StartChild(ok, failure))
    ensures var e := w.s.queue[0];
            var s := Next(p, w, StartChild(ok, failure)).s;
            && s.queue == w.s.queue[1..] && s.recent == w.s.recent
            && if ok then
                 var task := p.projectId + ":task:" + if AllSpace(e.id) then "event" else TrimSpace(e.id);
                 s.active == w.s.active[e.id := ActiveTask(e, task)]
                 && s.pending == w.s.pending && s.processed == w.s.processed
               else
                 s.pending == w.s.pending + [TaskResult(e, true, failure, [])] && s.processed == w.s.processed + 1
                 && s.active == w.s.active && s.messageOwners == w.s.messageOwners && s.threadOwners == w.s.threadOwners
  {
    BlankIsAllSpace(w.s.queue[0].id);
    hide TrimSpace, RegisterMessage, RegisterThreads;
  }

  // The end of a task leaves its result to be reported, if it is meant to be.
  lemma FinishIs(p: Params, w: World, id: string, result: TaskResult)
    requires Enabled(p, w, Finish(id, result))
    ensures var s := Next(p, w, Finish(id, result)).s;
            && s.active == w.s.active - {id} && s.processed == w.s.processed + 1
            && s.pending == w.s.pending + (if result.report then [result] else [])
            && s.queue == w.s.queue && s.recent == w.s.recent
  {
    hide Cleared;
  }

  // A report is sent exactly when it says something or brings something.
  lemma DeliverIs(p: Params, w: World)
    requires Enabled(p, w, Deliver)
    ensures var r := w.s.pending[0];
            OutOf(w, Deliver) == if r.report && (!AllSpace(r.text) || |r.attachments| > 0) then [Report(r)] else []
    ensures Next(p, w, Deliver).s == w.s.(pending := w.s.pending[1..])
  {
    BlankIsAllSpace(w.s.pending[0].text);
  }
}
