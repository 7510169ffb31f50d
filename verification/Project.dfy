// The project scheduler and router of internal/runtime/workflows/project.go as a state
// machine: what one signal, one child start, one child end and one report do to the state.
module Project {
  import opened Text
  import opened Domain

  const MAX_ACTIVE := 4
  const RECENT_LIMIT := 1000

  datatype Params = Params(projectId: string, renewAfter: int)

  datatype ActiveTask = ActiveTask(event: Event, workflowId: string)

  datatype TaskResult = TaskResult(event: Event, report: bool, text: string, attachments: seq<string>)

  // The result made for a task whose start or run failed; `failure` is its message.
  function FailedResult(e: Event, failure: string): TaskResult {
    TaskResult(e, true, failure, [])
  }

  datatype State = State(
    queue: seq<Event>, recent: seq<string>, processed: int,
    active: map<string, ActiveTask>,
    messageOwners: map<string, string>, threadOwners: map<string, string>,
    pending: seq<TaskResult>)

  // ---- schedules and commands ----------------------------------------------------

  predicate IsScheduledTask(e: Event) {
    TrimSpace(Lookup(e.metadata, "queue_policy")) == "scheduled_task"
  }

  function ScheduleId(e: Event): string {
    TrimSpace(Lookup(e.metadata, "schedule_id"))
  }

  predicate IsResetCommand(body: string) {
    TrimSpace(body) == "/new" || TrimSpace(body) == "\U{1F576}\U{FE0F}\U{1F526}"
  }

  // The first of strings.Fields of a trimmed text.
  function FirstField(s: string): string {
    if s == "" || IsSpace(s[0]) then "" else [s[0]] + FirstField(s[1..])
  }

  // The part before the first '@', when something follows it.
  function WithoutTarget(command: string): string {
    if command == "" then "" else if command[0] == '@' then (if |command| > 1 then "" else "@")
    else [command[0]] + WithoutTarget(command[1..])
  }

  predicate IsOnboardingCommand(body: string) {
    WithoutTarget(FirstField(TrimSpace(body))) == "/onboard"
  }

  // strings.ToLower, exact where the result is ASCII.
  function Lower(s: string): string {
    if s == "" then ""
    else
      var c := s[0];
      [if 'A' <= c <= 'Z' then (c as int + 32) as char
       else if c == '\U{130}' then 'i' else if c == '\U{212A}' then 'k' else c] + Lower(s[1..])
  }

  datatype Control = NoControl | CancelTask | InterruptTask

  function ControlAction(e: Event): Control {
    var meta := Lower(TrimSpace(Lookup(e.metadata, "control")));
    var body := Lower(TrimSpace(e.body));
    if meta == "cancel" || meta == "stop" then CancelTask
    else if meta == "interrupt" then InterruptTask
    else if body == "cancel" || body == "/cancel" || body == "stop" || body == "/stop" then CancelTask
    else if body == "interrupt" || body == "/interrupt" then InterruptTask
    else NoControl
  }

  function ReplyTo(e: Event): string {
    TrimSpace(Lookup(e.metadata, "reply_to_message_id"))
  }

  predicate IsStandalone(e: Event) {
    !e.channelType.OtherChannel? && Blank(e.threadId) && ReplyTo(e) == ""
  }

  // ---- ownership -------------------------------------------------------------------

  function TaskWorkflowId(projectId: string, eventId: string): string {
    projectId + ":task:" + (if Blank(eventId) then "event" else TrimSpace(eventId))
  }

  function Source(e: Event): string {
    TrimSpace(e.sourceId)
  }

  function ThreadOwnerKey(channelId: string, threadId: string): string {
    var thread, channel := TrimSpace(threadId), TrimSpace(channelId);
    if thread == "" then "" else if channel == "" then thread else channel + "\0" + thread
  }

  function RegisterMessage(owners: map<string, string>, messageId: string, owner: string): map<string, string> {
    var m, o := TrimSpace(messageId), TrimSpace(owner);
    if m == "" || o == "" then owners else owners[m := o]
  }

  function RegisterThread(owners: map<string, string>, channelId: string, threadId: string,
        owner: string): map<string, string>
  {
    var o := TrimSpace(owner);
    if Blank(threadId) || o == "" then owners else owners[ThreadOwnerKey(channelId, threadId) := o]
  }

  function RegisterThreads(owners: map<string, string>, e: Event, owner: string): map<string, string> {
    var once := RegisterThread(owners, e.channelId, e.threadId, owner);
    if !Blank(e.threadId) && TrimSpace(e.channelId) == TrimSpace(e.threadId)
    then RegisterThread(once, e.channelId, e.channelId, owner)
    else once
  }

  function Register(s: State, e: Event, owner: string): State {
    s.(messageOwners := RegisterMessage(s.messageOwners, e.sourceId, owner),
       threadOwners := RegisterThreads(s.threadOwners, e, owner))
  }

  function Without(owners: map<string, string>, owner: string): map<string, string> {
    map k | k in owners && owners[k] != owner :: owners[k]
  }

  function Cleared(owners: map<string, string>, workflowId: string): map<string, string> {
    var o := TrimSpace(workflowId);
    if o == "" then owners else Without(owners, o)
  }

  function OwnerAt(owners: map<string, string>, key: string): string {
    TrimSpace(Lookup(owners, key))
  }

  function OwnerByReply(owners: map<string, string>, e: Event): string {
    if ReplyTo(e) == "" then "" else OwnerAt(owners, ReplyTo(e))
  }

  function OwnerByThread(owners: map<string, string>, e: Event): string {
    var thread, channel := TrimSpace(e.threadId), TrimSpace(e.channelId);
    var inThread := if thread == "" then ""
                    else if OwnerAt(owners, ThreadOwnerKey(e.channelId, thread)) != ""
                    then OwnerAt(owners, ThreadOwnerKey(e.channelId, thread))
                    else OwnerAt(owners, thread);
    if inThread != "" then inThread
    else if channel == "" then ""
    else if OwnerAt(owners, ThreadOwnerKey(channel, channel)) != ""
        then OwnerAt(owners, ThreadOwnerKey(channel, channel))
    else OwnerAt(owners, channel)
  }

  // ---- the first active task, by event id ---------------------------------------------

  predicate StringLe(a: string, b: string) {
    a == "" || (b != "" && (a[0] < b[0] || (a[0] == b[0] && StringLe(a[1..], b[1..]))))
  }

  lemma {:induction false} StringLeTotal(a: string, b: string)
    ensures StringLe(a, b) || StringLe(b, a)
    ensures StringLe(a, b) && StringLe(b, a) ==> a == b
  {
    if a != "" && b != "" {
      StringLeTotal(a[1..], b[1..]);
      if a[0] == b[0] && a[1..] == b[1..] {
        assert a == [a[0]] + a[1..] && b == [b[0]] + b[1..];
      }
    }
  }

  lemma {:induction false} StringLeTransitive(a: string, b: string, c: string)
    requires StringLe(a, b) && StringLe(b, c)
    ensures StringLe(a, c)
  {
    if a != "" && a[0] == b[0] && b[0] == c[0] {
      StringLeTransitive(a[1..], b[1..], c[1..]);
    }
  }

  predicate IsFirst(keys: set<string>, k: string) {
    k in keys && forall j :: j in keys ==> StringLe(k, j)
  }

  lemma {:induction false} FirstExists(keys: set<string>)
    requires keys != {}
    ensures exists k :: IsFirst(keys, k)
    decreases |keys|
  {
    var x :| x in keys;
    StringLeTotal(x, x);
    var rest := keys - {x};
    if rest == {} {
      assert keys == rest + {x};
      assert IsFirst(keys, x);
    } else {
      FirstExists(rest);
      var y :| IsFirst(rest, y);
      StringLeTotal(x, y);
      var k := if StringLe(x, y) then x else y;
      forall j | j in keys ensures StringLe(k, j) {
        if j in rest && k == x {
          StringLeTransitive(x, y, j);
        }
      }
      assert IsFirst(keys, k);
    }
  }

  ghost function FirstWorkflowId(active: map<string, ActiveTask>): string {
    if active.Keys == {} then ""
    else
      FirstExists(active.Keys);
      var k :| IsFirst(active.Keys, k);
      active[k].workflowId
  }

  lemma FirstIsUnique(active: map<string, ActiveTask>, k: string)
    requires IsFirst(active.Keys, k)
    ensures FirstWorkflowId(active) == active[k].workflowId
  {
    forall j | IsFirst(active.Keys, j) ensures j == k {
      StringLeTotal(j, k);
    }
  }

  // ---- one signal ------------------------------------------------------------------------

  function TrimRecent(recent: seq<string>): seq<string> {
    if |recent| <= RECENT_LIMIT then recent else recent[|recent| - RECENT_LIMIT..]
  }

  predicate IsDuplicate(s: State, e: Event) {
    !Blank(e.id) && TrimSpace(e.id) in s.recent
  }

  function Remembered(s: State, e: Event): State {
    if Blank(e.id) then s else s.(recent := TrimRecent(s.recent + [TrimSpace(e.id)]))
  }

  predicate Overlaps(s: State, e: Event) {
    && ScheduleId(e) != ""
    && ((exists i :: 0 <= i < |s.queue| && ScheduleId(s.queue[i]) == ScheduleId(e))
        || (exists id :: id in s.active && ScheduleId(s.active[id].event) == ScheduleId(e)))
  }

  datatype Outcome =
    | Duplicate | Overlapping | Queued
    | Routed(workflowId: string, signalled: bool)
    | Controlled(workflowId: string, control: Control)

  // What the router decides for a fresh event.
  ghost function Decide(s: State, e: Event): Outcome {
    if IsScheduledTask(e) then (if Overlaps(s, e) then Overlapping else Queued)
    else if IsResetCommand(e.body) || IsOnboardingCommand(e.body) then Queued
    else if OwnerByReply(s.messageOwners, e) != "" then Routed(OwnerByReply(s.messageOwners, e), !Blank(e.body))
    else if OwnerByThread(s.threadOwners, e) != "" then Routed(OwnerByThread(s.threadOwners, e), !Blank(e.body))
    else if IsStandalone(e) then Queued
    else if ControlAction(e) == NoControl then Queued
    else Controlled(FirstWorkflowId(s.active), ControlAction(e))
  }

  ghost function OutcomeOf(s: State, e: Event): Outcome {
    if IsDuplicate(s, e) then Duplicate else Decide(s, e)
  }

  ghost function AfterSignal(s: State, e: Event): State {
    var noted := Remembered(s, e);
    match OutcomeOf(s, e)
    case Duplicate => s
    case Queued => noted.(queue := s.queue + [e])
    case Routed(owner, _) => Register(noted, e, owner)
    case _ => noted
  }

  // ---- children ------------------------------------------------------------------------------

  predicate WorkflowRunning(s: State, workflowId: string) {
    exists id :: id in s.active && s.active[id].workflowId == workflowId
  }

  function AfterStart(p: Params, s: State, ok: bool, failure: string): State
    requires s.queue != []
  {
    var e := s.queue[0];
    var rest := s.(queue := s.queue[1..]);
    if ok then
      var wf := TaskWorkflowId(p.projectId, e.id);
      Register(rest.(active := s.active[e.id := ActiveTask(e, wf)]), e, wf)
    else
      rest.(pending := s.pending + [FailedResult(e, failure)], processed := s.processed + 1)
  }

  function AfterFinish(s: State, id: string, result: TaskResult): State
    requires id in s.active
  {
    var wf := s.active[id].workflowId;
    s.(pending := if result.report then s.pending + [result] else s.pending,
       messageOwners := Cleared(s.messageOwners, wf), threadOwners := Cleared(s.threadOwners, wf),
       active := s.active - {id}, processed := s.processed + 1)
  }

  // ---- continue-as-new ---------------------------------------------------------------------------

  datatype Snapshot = Snapshot(queue: seq<Event>, recent: seq<string>, processed: int)

  function SnapshotOf(s: State): Snapshot {
    Snapshot(s.queue, s.recent, s.processed)
  }

  function Resumed(snapshot: Snapshot): State {
    State(snapshot.queue, TrimRecent(snapshot.recent), snapshot.processed, map[], map[], map[], [])
  }

  predicate MayRenew(p: Params, s: State) {
    p.renewAfter > 0 && s.processed >= p.renewAfter && |s.active| == 0
  }

  // ---- runs ------------------------------------------------------------------------------------------

  datatype Phase = Flushing | Launching(started: bool) | Blocked

  datatype Step =
    | Deliver | Renew | BeginStarts | StartChild(ok: bool, failure: string) | EndStarts
    | Signal(event: Event) | Finish(id: string, result: TaskResult)

  // What a run has done so far: the fresh non-blank ids, the events queued, the events
  // taken off the queue, the reports made and handed over, and for every task the
  // messages that belong to it.
  datatype History = History(
    accepted: seq<string>, enqueued: seq<Event>, taken: seq<Event>,
    produced: seq<TaskResult>, delivered: seq<TaskResult>,
    claims: map<string, set<string>>, kinds: map<string, Option<string>>)

  datatype World = World(s: State, h: History, phase: Phase)

  const Initial := World(State([], [], 0, map[], map[], map[], []), History([], [], [], [], [], map[], map[]), Flushing)

  predicate CanStart(s: State) {
    |s.active| < MAX_ACTIVE && s.queue != []
  }

  ghost predicate Enabled(p: Params, w: World, a: Step) {
    match a
    case Deliver => w.phase == Flushing && w.s.pending != []
    case Renew => w.phase == Flushing && w.s.pending == [] && MayRenew(p, w.s)
    case BeginStarts => w.phase == Flushing && w.s.pending == [] && !MayRenew(p, w.s)
    case StartChild(ok, _) =>
      w.phase.Launching? && CanStart(w.s)
      && (ok ==> !WorkflowRunning(w.s, TaskWorkflowId(p.projectId, w.s.queue[0].id)))
    case EndStarts => w.phase.Launching? && !CanStart(w.s)
    case Signal(_) => w.phase == Blocked
    case Finish(id, _) => w.phase == Blocked && id in w.s.active
  }

  // A scheduled task with a schedule id may carry the source id of an earlier firing.
  function SourceKind(e: Event): Option<string> {
    if IsScheduledTask(e) && ScheduleId(e) != "" then Some(ScheduleId(e)) else None
  }

  function SourceSet(e: Event): set<string> {
    if Source(e) == "" then {} else {Source(e)}
  }

  function NotedKinds(kinds: map<string, Option<string>>, e: Event): map<string, Option<string>> {
    if Source(e) == "" then kinds else kinds[Source(e) := SourceKind(e)]
  }

  // The messages whose replies an owner has been given.
  function Claimed(claims: map<string, set<string>>, owner: string): set<string> {
    if owner in claims then claims[owner] else {}
  }

  ghost function NotedSignal(s: State, h: History, e: Event): History {
    var logged := if Blank(e.id) then h else h.(accepted := h.accepted + [TrimSpace(e.id)]);
    match OutcomeOf(s, e)
    case Duplicate => h
    case Queued => logged.(enqueued := h.enqueued + [e], kinds := NotedKinds(h.kinds, e))
    case Routed(owner, _) =>
      logged.(claims := h.claims[TrimSpace(owner) := Claimed(h.claims, TrimSpace(owner)) + SourceSet(e)],
              kinds := NotedKinds(h.kinds, e))
    case _ => logged
  }

  function NotedStart(p: Params, s: State, h: History, ok: bool, failure: string): History
    requires s.queue != []
  {
    var e := s.queue[0];
    var taken := h.(taken := h.taken + [e]);
    if ok then taken.(claims := h.claims[TrimSpace(TaskWorkflowId(p.projectId, e.id)) := SourceSet(e)])
    else taken.(produced := h.produced + [FailedResult(e, failure)])
  }

  ghost function Next(p: Params, w: World, a: Step): World
    requires Enabled(p, w, a)
  {
    match a
    case Deliver =>
      World(w.s.(pending := w.s.pending[1..]), w.h.(delivered := w.h.delivered + [w.s.pending[0]]), Flushing)
    case Renew => World(Resumed(SnapshotOf(w.s)), w.h, Flushing)
    case BeginStarts => w.(phase := Launching(false))
    case StartChild(ok, failure) =>
      World(AfterStart(p, w.s, ok, failure), NotedStart(p, w.s, w.h, ok, failure), Launching(w.phase.started || ok))
    case EndStarts => w.(phase := if w.phase.started then Flushing else Blocked)
    case Signal(e) => World(AfterSignal(w.s, e), NotedSignal(w.s, w.h, e), Flushing)
    case Finish(id, result) =>
      World(AfterFinish(w.s, id, result),
            if result.report then w.h.(produced := w.h.produced + [result]) else w.h, Flushing)
  }

  // The steps, taken one after the other, lead from w to w'.
  ghost predicate Run(p: Params, w: World, steps: seq<Step>, w': World)
    decreases |steps|
  {
    if steps == [] then w == w'
    else Enabled(p, w, steps[0]) && Run(p, Next(p, w, steps[0]), steps[1..], w')
  }

  lemma {:induction false} RunConcat(p: Params, w: World, a: seq<Step>, m: World, b: seq<Step>, w': World)
    requires Run(p, w, a, m) && Run(p, m, b, w')
    ensures Run(p, w, a + b, w')
    decreases |a|
  {
    hide Next, Enabled;
    if a == [] {
      assert a + b == b;
    } else {
      assert (a + b)[1..] == a[1..] + b && (a + b)[0] == a[0];
      RunConcat(p, Next(p, w, a[0]), a[1..], m, b, w');
    }
  }

  lemma RunOne(p: Params, w: World, a: Step)
    requires Enabled(p, w, a)
    ensures Run(p, w, [a], Next(p, w, a))
  {
    hide Next, Enabled;
    assert [a][1..] == [];
    assert Run(p, Next(p, w, a), [], Next(p, w, a));
  }
}
