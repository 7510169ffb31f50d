// How internal/agent/llm/next_action.go turns an observation history into transcript
// messages, and why the validator accepts what it builds.
module TranscriptBuilder {
  import opened Text
  import opened Domain
  import opened Transcript

  // The tool registry and the two encoders: the function name of a tool type, if it is
  // supported, the encoded arguments of a call and the encoded content of a response.
  datatype Registry = Registry(
    name: string -> Option<string>, arguments: Feedback -> string, content: Feedback -> string)

  ghost predicate NamesTools(reg: Registry) {
    forall t :: reg.name(t).Some? ==> !Blank(reg.name(t).value)
  }

  function CallId(f: Feedback): (id: string)
    ensures Trimmed(id)
  {
    if !Blank(f.toolCallId) then TrimSpace(f.toolCallId) else TrimSpace(Lookup(f.metadata, "tool_call_id"))
  }

  // An observation answers the call whose id it has, or else the one its metadata names.
  lemma CallIdIs(f: Feedback)
    ensures !AllSpace(f.toolCallId) ==> CallId(f) == TrimSpace(f.toolCallId)
    ensures AllSpace(f.toolCallId) ==>
              CallId(f) == if "tool_call_id" in f.metadata then TrimSpace(f.metadata["tool_call_id"]) else ""
  {
    BlankIsAllSpace(f.toolCallId);
    TrimSpaceOfTrimmed("");
    hide TrimSpace, AllSpace;
  }

  predicate Usable(reg: Registry, f: Feedback) {
    CallId(f) != "" && reg.name(f.tool).Some?
  }

  predicate AllUsable(reg: Registry, fs: seq<Feedback>) {
    forall i :: 0 <= i < |fs| ==> Usable(reg, fs[i])
  }

  function CallPart(reg: Registry, f: Feedback): Part {
    ToolCall(CallId(f), reg.name(f.tool), reg.arguments(f))
  }

  function ResponsePart(reg: Registry, f: Feedback): Part
    requires reg.name(f.tool).Some?
  {
    ToolResponse(CallId(f), reg.name(f.tool).value, reg.content(f))
  }

  function CallParts(reg: Registry, fs: seq<Feedback>): seq<Part> {
    seq(|fs|, i requires 0 <= i < |fs| => CallPart(reg, fs[i]))
  }

  function ResponseParts(reg: Registry, fs: seq<Feedback>): seq<Part>
    requires AllUsable(reg, fs)
  {
    seq(|fs|, i requires 0 <= i < |fs| => ResponsePart(reg, fs[i]))
  }

  function Responses(reg: Registry, fs: seq<Feedback>): seq<Message>
    requires AllUsable(reg, fs)
  {
    seq(|fs|, i requires 0 <= i < |fs| => Message(Tool, [ResponsePart(reg, fs[i])]))
  }

  // ---- grouping ------------------------------------------------------------------

  function BatchKey(f: Feedback): string {
    TrimSpace(Lookup(f.metadata, "tool_call_ids"))
  }

  predicate Batched(f: Feedback) {
    ',' in BatchKey(f)
  }

  predicate SameBatch(f: Feedback, g: Feedback) {
    f.cycle == g.cycle && BatchKey(f) == BatchKey(g)
  }

  function RunEnd(history: seq<Feedback>, end: nat): (n: nat)
    requires 0 < end <= |history|
    ensures end <= n <= |history|
    ensures forall i :: end <= i < n ==> SameBatch(history[0], history[i])
    ensures n < |history| ==> !SameBatch(history[0], history[n])
    decreases |history| - end
  {
    if end < |history| && SameBatch(history[0], history[end]) then RunEnd(history, end + 1) else end
  }

  // The longest run of one batch at the front; an observation outside any batch is alone.
  function GroupLength(history: seq<Feedback>): (n: nat)
    requires history != []
    ensures 0 < n <= |history|
    ensures forall i :: 0 <= i < n ==> SameBatch(history[0], history[i])
    ensures n > 1 ==> Batched(history[0])
    ensures n < |history| && Batched(history[0]) ==> !SameBatch(history[0], history[n])
  {
    if Batched(history[0]) then RunEnd(history, 1) else 1
  }

  predicate DistinctIds(fs: seq<Feedback>) {
    forall i, j :: 0 <= i < j < |fs| ==> CallId(fs[i]) != CallId(fs[j])
  }

  // No call id is used twice inside a group.
  predicate DistinctInGroups(history: seq<Feedback>)
    decreases |history|
  {
    history == [] ||
    var n := GroupLength(history);
    DistinctIds(history[..n]) && DistinctInGroups(history[n..])
  }

  function Exchanges(reg: Registry, history: seq<Feedback>): seq<Message>
    requires AllUsable(reg, history)
    decreases |history|
  {
    if history == [] then []
    else
      var n := GroupLength(history);
      [Message(AI, CallParts(reg, history[..n]))] + Responses(reg, history[..n]) + Exchanges(reg, history[n..])
  }

  // ---- the code --------------------------------------------------------------------

  method NextActionTranscriptMessages(reg: Registry, feedbacks: seq<Feedback>) returns (r: Option<seq<Message>>)
    ensures r.Some? <==> AllUsable(reg, feedbacks)
    ensures r.Some? ==> r.value == if feedbacks == [] then []
                                   else [Message(AI, CallParts(reg, feedbacks))] + Responses(reg, feedbacks)
  {
    hide CallId;
    if feedbacks == [] {
      return Some([]);
    }
    var parts: seq<Part> := [];
    var results: seq<Message> := [];
    for i := 0 to |feedbacks|
      invariant AllUsable(reg, feedbacks[..i])
      invariant parts == CallParts(reg, feedbacks[..i])
      invariant results == Responses(reg, feedbacks[..i])
    {
      var feedback := feedbacks[i];
      assert feedbacks[..i + 1] == feedbacks[..i] + [feedback];
      var id := CallId(feedback);
      if id == "" {
        assert !Usable(reg, feedbacks[i]);
        return None;
      }
      var name := reg.name(feedback.tool);
      if name.None? {
        assert !Usable(reg, feedbacks[i]);
        return None;
      }
      parts := parts + [ToolCall(id, name, reg.arguments(feedback))];
      results := results + [Message(Tool, [ToolResponse(id, name.value, reg.content(feedback))])];
    }
    assert feedbacks[..|feedbacks|] == feedbacks;
    r := Some([Message(AI, parts)] + results);
  }

  datatype Built = Messages(messages: seq<Message>) | Unusable | Invalid(verdict: Verdict)

  predicate PlainMessages(ms: seq<Message>) {
    forall i :: 0 <= i < |ms| ==> !ms[i].role.AI? && !ms[i].role.Tool?
  }

  // The grouping loop and the final validation, between the system and user messages
  // that come before and after the transcript.
  method BuildNextActionMessages(reg: Registry, before: seq<Message>, history: seq<Feedback>, after: seq<Message>)
    returns (r: Built)
    requires NamesTools(reg) && PlainMessages(before) && PlainMessages(after)
    ensures r.Messages? <==> AllUsable(reg, history) && DistinctInGroups(history)
    ensures r.Unusable? <==> !AllUsable(reg, history)
    ensures r.Messages? ==> r.messages == before + Exchanges(reg, history) + after && Grammatical(r.messages)
  {
    hide Usable, CallId, GroupLength, DistinctInGroups, Exchanges, Grammatical;
    var messages := before;
    var index := 0;
    GroupingStart(reg, before, history);
    while index < |history|
      invariant 0 <= index <= |history|
      invariant AllUsable(reg, history[..index])
      invariant AllUsable(reg, history) ==>
                  messages + Exchanges(reg, history[index..]) == before + Exchanges(reg, history)
      decreases |history| - index
    {
      var toolCallIds := TrimSpace(Lookup(history[index].metadata, "tool_call_ids"));
      var end := index + 1;
      if ',' in toolCallIds {
        while end < |history| && history[end].cycle == history[index].cycle
              && TrimSpace(Lookup(history[end].metadata, "tool_call_ids")) == toolCallIds
          invariant index < end <= |history|
          invariant RunEnd(history[index..], 1) == RunEnd(history[index..], end - index)
        {
          end := end + 1;
        }
      }
      GroupIs(history, index, end);
      var transcript := NextActionTranscriptMessages(reg, history[index..end]);
      if transcript.None? {
        UnusablePart(reg, history, index, end);
        return Unusable;
      }
      GroupingStep(reg, before, history, messages, index, end);
      messages := messages + transcript.value;
      index := end;
    }
    assert history[..index] == history;
    GroupingEnd(reg, before, history, messages, after);
    messages := messages + after;
    BuiltAcceptedIff(reg, before, history, after);
    var verdict := ValidateToolTranscriptMessages(messages);
    r := if verdict.Accepted? then Messages(messages) else Invalid(verdict);
  }

  lemma GroupIs(history: seq<Feedback>, index: nat, end: nat)
    requires index < end <= |history|
    requires if Batched(history[index])
             then RunEnd(history[index..], 1) == end - index
             else end == index + 1
    ensures GroupLength(history[index..]) == end - index
  {
  }

  lemma UnusablePart(reg: Registry, history: seq<Feedback>, index: nat, end: nat)
    requires index <= end <= |history| && !AllUsable(reg, history[index..end])
    ensures !AllUsable(reg, history)
  {
    var i :| 0 <= i < end - index && !Usable(reg, history[index..end][i]);
    assert history[index..end][i] == history[index + i];
  }

  lemma GroupingStart(reg: Registry, before: seq<Message>, history: seq<Feedback>)
    ensures AllUsable(reg, history) ==> before + Exchanges(reg, history[0..]) == before + Exchanges(reg, history)
  {
    assert history[0..] == history;
  }

  lemma GroupingStep(reg: Registry, before: seq<Message>, history: seq<Feedback>, messages: seq<Message>, index: nat,
        end: nat)
    requires index < end <= |history| && GroupLength(history[index..]) == end - index
    requires AllUsable(reg, history[..index]) && AllUsable(reg, history[index..end])
    requires AllUsable(reg, history) ==> messages + Exchanges(reg, history[index..]) == before + Exchanges(reg, history)
    ensures AllUsable(reg, history[..end])
    ensures AllUsable(reg, history) ==>
              var group := history[index..end];
              messages + ([Message(AI, CallParts(reg, group))] + Responses(reg, group)) + Exchanges(reg, history[end..])
              == before + Exchanges(reg, history)
  {
    hide Usable, CallParts, Responses, GroupLength, Exchanges;
    assert history[..end] == history[..index] + history[index..end];
    var h := history[index..];
    assert h[..end - index] == history[index..end] && h[end - index..] == history[end..];
    if AllUsable(reg, history) {
      var block := [Message(AI, CallParts(reg, history[index..end]))] + Responses(reg, history[index..end]);
      ExchangesFirst(reg, h);
      assert messages + (block + Exchanges(reg, history[end..])) == messages + block + Exchanges(reg, history[end..]);
    }
  }

  lemma ExchangesFirst(reg: Registry, h: seq<Feedback>)
    requires AllUsable(reg, h) && h != []
    ensures var n := GroupLength(h);
            Exchanges(reg, h) == [Message(AI, CallParts(reg, h[..n]))] + Responses(reg, h[..n]) + Exchanges(reg, h[n..])
  {
  }

  lemma GroupingEnd(reg: Registry, before: seq<Message>, history: seq<Feedback>, messages: seq<Message>,
        after: seq<Message>)
    requires AllUsable(reg, history)
    requires messages + Exchanges(reg, history[|history|..]) == before + Exchanges(reg, history)
    ensures messages + after == before + Exchanges(reg, history) + after
  {
    assert messages + [] == messages;
  }

  // ---- the validator accepts what is built -----------------------------------------------

  function IdSet(fs: seq<Feedback>): set<string> {
    set i | 0 <= i < |fs| :: CallId(fs[i])
  }

  lemma IdSetCons(fs: seq<Feedback>)
    requires fs != []
    ensures IdSet(fs) == {CallId(fs[0])} + IdSet(fs[1..])
  {
    hide CallId;
    forall id | id in IdSet(fs[1..]) ensures id in IdSet(fs) {
      var i :| 0 <= i < |fs[1..]| && CallId(fs[1..][i]) == id;
      assert CallId(fs[i + 1]) == id;
    }
    forall id | id in IdSet(fs) ensures id == CallId(fs[0]) || id in IdSet(fs[1..]) {
      var i :| 0 <= i < |fs| && CallId(fs[i]) == id;
      assert i > 0 ==> CallId(fs[1..][i - 1]) == id;
    }
  }

  lemma DistinctCons(fs: seq<Feedback>)
    requires fs != []
    ensures DistinctIds(fs) <==> CallId(fs[0]) !in IdSet(fs[1..]) && DistinctIds(fs[1..])
  {
    hide CallId;
    var tail := fs[1..];
    assert forall i :: 0 <= i < |tail| ==> tail[i] == fs[i + 1];
    if DistinctIds(fs) {
      forall i | 0 <= i < |tail| ensures CallId(tail[i]) != CallId(fs[0]) {
        assert CallId(fs[0]) != CallId(fs[i + 1]);
      }
    }
    if CallId(fs[0]) !in IdSet(tail) && DistinctIds(tail) {
      forall i, j | 0 <= i < j < |fs| ensures CallId(fs[i]) != CallId(fs[j]) {
        assert CallId(tail[j - 1]) in IdSet(tail);
        assert i > 0 ==> CallId(tail[i - 1]) != CallId(tail[j - 1]);
      }
    }
  }

  // Responses are taken one by one; all of them only if every id is pending and none repeats.
  lemma {:induction false} ResponsesPending(reg: Registry, pending: set<string>, fs: seq<Feedback>)
    requires AllUsable(reg, fs)
    ensures Pending(pending, Responses(reg, fs))
         == if DistinctIds(fs) && IdSet(fs) <= pending then Some(pending - IdSet(fs)) else None
    decreases |fs|
  {
    hide CallId;
    if fs != [] {
      var id := CallId(fs[0]);
      assert Responses(reg, fs)[1..] == Responses(reg, fs[1..]);
      ResponseAdvances(reg, pending, fs[0]);
      IdSetCons(fs);
      DistinctCons(fs);
      if id in pending {
        ResponsesPending(reg, pending - {id}, fs[1..]);
        assert pending - {id} - IdSet(fs[1..]) == pending - IdSet(fs);
      }
    } else {
      assert IdSet(fs) == {} && Responses(reg, fs) == [];
      assert pending - {} == pending;
    }
  }

  lemma ResponseAdvances(reg: Registry, pending: set<string>, f: Feedback)
    requires Usable(reg, f)
    ensures Advance(pending, Message(Tool, [ResponsePart(reg, f)]))
         == if CallId(f) in pending then Some(pending - {CallId(f)}) else None
  {
    TrimSpaceOfTrimmed(CallId(f));
  }

  lemma CallsAdvance(reg: Registry, fs: seq<Feedback>)
    requires NamesTools(reg) && AllUsable(reg, fs)
    ensures Advance({}, Message(AI, CallParts(reg, fs))) == Some(IdSet(fs))
  {
    forall i | 0 <= i < |fs| ensures CallComplete(reg, fs[i]) {
      TrimSpaceOfTrimmed(CallId(fs[i]));
    }
    CallPartsComplete(reg, fs);
    hide CallParts, CallId, CallIds, CallsComplete;
  }

  predicate CallComplete(reg: Registry, f: Feedback) {
    var p := CallPart(reg, f);
    TrimSpace(p.id) == CallId(f) && CallId(f) != "" && p.callee.Some? && !Blank(p.callee.value)
  }

  lemma CallPartsComplete(reg: Registry, fs: seq<Feedback>)
    requires forall i :: 0 <= i < |fs| ==> CallComplete(reg, fs[i])
    ensures CallsComplete(CallParts(reg, fs)) && CallIds(CallParts(reg, fs)) == IdSet(fs)
  {
    hide CallId, TrimSpace;
    var parts := CallParts(reg, fs);
    forall i | 0 <= i < |fs|
      ensures TrimSpace(parts[i].id) == CallId(fs[i]) != "" && parts[i].callee.Some? && !Blank(parts[i].callee.value)
    {
      assert CallComplete(reg, fs[i]);
    }
    forall id | id in IdSet(fs) ensures id in CallIds(parts) {
      var i :| 0 <= i < |fs| && CallId(fs[i]) == id;
      assert parts[i].ToolCall?;
    }
  }

  lemma GroupPending(reg: Registry, fs: seq<Feedback>)
    requires NamesTools(reg) && AllUsable(reg, fs)
    ensures Pending({}, [Message(AI, CallParts(reg, fs))] + Responses(reg, fs))
         == if DistinctIds(fs) then Some({}) else None
  {
    CallsAdvance(reg, fs);
    ResponsesPending(reg, IdSet(fs), fs);
    hide CallParts, Responses, Advance, IdSet, DistinctIds;
    var first := Message(AI, CallParts(reg, fs));
    assert ([first] + Responses(reg, fs))[1..] == Responses(reg, fs);
    assert IdSet(fs) - IdSet(fs) == {};
  }

  lemma {:induction false} ExchangesPending(reg: Registry, history: seq<Feedback>)
    requires NamesTools(reg) && AllUsable(reg, history)
    ensures Pending({}, Exchanges(reg, history)) == if DistinctInGroups(history) then Some({}) else None
    decreases |history|
  {
    hide CallParts, Responses, DistinctIds, Usable, Advance;
    if history != [] {
      var n := GroupLength(history);
      GroupPending(reg, history[..n]);
      ExchangesPending(reg, history[n..]);
      var block := [Message(AI, CallParts(reg, history[..n]))] + Responses(reg, history[..n]);
      PendingConcat({}, block, Exchanges(reg, history[n..]));
    }
  }

  lemma {:induction false} PlainPending(ms: seq<Message>)
    requires PlainMessages(ms)
    ensures Pending({}, ms) == Some({})
  {
    if ms != [] {
      PlainPending(ms[1..]);
    }
  }

  // Between plain messages, the transcript of a history is grammatical exactly when no
  // call id repeats inside a group.
  lemma BuiltAcceptedIff(reg: Registry, before: seq<Message>, history: seq<Feedback>, after: seq<Message>)
    requires NamesTools(reg) && PlainMessages(before) && PlainMessages(after) && AllUsable(reg, history)
    ensures Grammatical(before + Exchanges(reg, history) + after) <==> DistinctInGroups(history)
  {
    hide Grammatical, Exchanges, DistinctInGroups, Usable;
    var all := before + Exchanges(reg, history) + after;
    AcceptedIffGrammatical(all);
    PlainPending(before);
    PlainPending(after);
    ExchangesPending(reg, history);
    PendingConcat({}, before + Exchanges(reg, history), after);
    PendingConcat({}, before, Exchanges(reg, history));
  }

  // ---- one call and one response per observation, in order -----------------------------------

  function ToolParts(ms: seq<Message>, role: Role): seq<Part> {
    if ms == [] then [] else (if ms[0].role == role then ms[0].parts else []) + ToolParts(ms[1..], role)
  }

  lemma {:induction false} ToolPartsConcat(a: seq<Message>, b: seq<Message>, role: Role)
    ensures ToolParts(a + b, role) == ToolParts(a, role) + ToolParts(b, role)
  {
    if a == [] {
      assert a + b == b;
    } else {
      assert (a + b)[1..] == a[1..] + b;
      ToolPartsConcat(a[1..], b, role);
    }
  }

  lemma {:induction false} ResponsesParts(reg: Registry, fs: seq<Feedback>)
    requires AllUsable(reg, fs)
    ensures ToolParts(Responses(reg, fs), AI) == []
    ensures ToolParts(Responses(reg, fs), Tool) == ResponseParts(reg, fs)
    decreases |fs|
  {
    hide CallId;
    if fs != [] {
      assert Responses(reg, fs)[1..] == Responses(reg, fs[1..]);
      ResponsesParts(reg, fs[1..]);
      assert ResponseParts(reg, fs) == [ResponsePart(reg, fs[0])] + ResponseParts(reg, fs[1..]);
    }
  }

  lemma {:induction false} TranscriptIsComplete(reg: Registry, history: seq<Feedback>)
    requires AllUsable(reg, history)
    ensures ToolParts(Exchanges(reg, history), AI) == CallParts(reg, history)
    ensures ToolParts(Exchanges(reg, history), Tool) == ResponseParts(reg, history)
    decreases |history|
  {
    hide Usable, CallParts, ResponseParts, Responses, Exchanges, ToolParts, GroupLength;
    if history == [] {
      EmptyTranscript(reg);
    } else {
      var n := GroupLength(history);
      var group, rest := history[..n], history[n..];
      TranscriptIsComplete(reg, rest);
      ExchangesFirst(reg, history);
      GroupParts(reg, group, Exchanges(reg, rest));
      assert history == group + rest;
      PartsConcat(reg, group, rest);
    }
  }

  lemma EmptyTranscript(reg: Registry)
    ensures ToolParts(Exchanges(reg, []), AI) == CallParts(reg, [])
    ensures ToolParts(Exchanges(reg, []), Tool) == ResponseParts(reg, [])
  {
  }

  lemma GroupParts(reg: Registry, group: seq<Feedback>, tail: seq<Message>)
    requires AllUsable(reg, group)
    ensures var ms := [Message(AI, CallParts(reg, group))] + Responses(reg, group) + tail;
            && ToolParts(ms, AI) == CallParts(reg, group) + ToolParts(tail, AI)
            && ToolParts(ms, Tool) == ResponseParts(reg, group) + ToolParts(tail, Tool)
  {
    hide CallParts, Responses, ResponseParts, Usable;
    var first := Message(AI, CallParts(reg, group));
    ResponsesParts(reg, group);
    var ms := [first] + Responses(reg, group) + tail;
    assert ms[1..] == Responses(reg, group) + tail;
    ToolPartsConcat(Responses(reg, group), tail, AI);
    ToolPartsConcat(Responses(reg, group), tail, Tool);
  }

  lemma PartsConcat(reg: Registry, a: seq<Feedback>, b: seq<Feedback>)
    requires AllUsable(reg, a) && AllUsable(reg, b)
    ensures CallParts(reg, a + b) == CallParts(reg, a) + CallParts(reg, b)
    ensures AllUsable(reg, a + b) && ResponseParts(reg, a + b) == ResponseParts(reg, a) + ResponseParts(reg, b)
  {
    hide CallId, CallPart, ResponsePart;
  }

  // ---- interrupted batches -------------------------------------------------------------------

  // Cutting a history anywhere, also inside a batch, keeps it acceptable.
  lemma {:induction false} InterruptedHistoryStaysDistinct(history: seq<Feedback>, k: nat)
    requires k <= |history| && DistinctInGroups(history)
    ensures DistinctInGroups(history[..k])
    decreases |history|
  {
    hide CallId, BatchKey;
    if k > 0 {
      var n := GroupLength(history);
      var cut := history[..k];
      CutGroup(history, k);
      if k <= n {
        assert cut[..k] == history[..n][..k] && cut[k..] == [];
        DistinctPrefix(history[..n], k);
      } else {
        InterruptedHistoryStaysDistinct(history[n..], k - n);
        assert cut[..n] == history[..n] && cut[n..] == history[n..][..k - n];
      }
    }
  }

  lemma DistinctPrefix(fs: seq<Feedback>, k: nat)
    requires k <= |fs| && DistinctIds(fs)
    ensures DistinctIds(fs[..k])
  {
    hide CallId;
  }

  lemma CutGroup(history: seq<Feedback>, k: nat)
    requires 0 < k <= |history|
    ensures GroupLength(history[..k]) == if k <= GroupLength(history) then k else GroupLength(history)
  {
    hide BatchKey;
    var cut := history[..k];
    var n, m := GroupLength(history), GroupLength(cut);
    assert cut[0] == history[0];
    if Batched(history[0]) {
      if m < k {
        assert !SameBatch(history[0], history[m]);
      }
    }
  }
}
