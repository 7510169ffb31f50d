// The signals a task consumes while it waits: how they are stored, what they add to the
// context, and how a wait for a tool or for an agent child ends.
module Signals {
  import opened Text
  import opened Domain

  datatype SignalKind = ContextSignal | CancelSignal | InterruptSignal

  datatype TaskSignal = TaskSignal(kind: SignalKind, event: Event)

  function ControlText(kind: SignalKind): string {
    match kind
    case ContextSignal => ""
    case CancelSignal => "cancel"
    case InterruptSignal => "interrupt"
  }

  // What is stored for a signal: the event with its control, nothing without an event id.
  function Stored(s: TaskSignal): seq<Event> {
    if Blank(s.event.id) then [] else [WithControl(s.event, ControlText(s.kind))]
  }

  function StoredAll(ss: seq<TaskSignal>): seq<Event> {
    if ss == [] then [] else StoredAll(ss[..|ss| - 1]) + Stored(ss[|ss| - 1])
  }

  // What a signal adds to the context: its event, unless it cancels or interrupts wordlessly.
  function AddedBy(s: TaskSignal): seq<Event> {
    match s.kind
    case ContextSignal => [s.event]
    case CancelSignal => []
    case InterruptSignal => if Blank(s.event.body) then [] else [s.event]
  }

  function Added(ss: seq<TaskSignal>): seq<Event> {
    if ss == [] then [] else Added(ss[..|ss| - 1]) + AddedBy(ss[|ss| - 1])
  }

  lemma {:induction false} StoredConcat(a: seq<TaskSignal>, b: seq<TaskSignal>)
    ensures StoredAll(a + b) == StoredAll(a) + StoredAll(b)
    decreases |b|
  {
    if b == [] {
      assert a + b == a;
    } else {
      assert (a + b)[..|a + b| - 1] == a + b[..|b| - 1] && (a + b)[|a + b| - 1] == b[|b| - 1];
      StoredConcat(a, b[..|b| - 1]);
    }
  }

  lemma {:induction false} AddedConcat(a: seq<TaskSignal>, b: seq<TaskSignal>)
    ensures Added(a + b) == Added(a) + Added(b)
    decreases |b|
  {
    if b == [] {
      assert a + b == a;
    } else {
      assert (a + b)[..|a + b| - 1] == a + b[..|b| - 1] && (a + b)[|a + b| - 1] == b[|b| - 1];
      AddedConcat(a, b[..|b| - 1]);
    }
  }

  // Nothing without an event id is stored, and nothing twice.
  lemma {:induction false} StoredHaveIds(ss: seq<TaskSignal>)
    ensures |StoredAll(ss)| <= |ss|
    ensures forall e :: e in StoredAll(ss) ==> !Blank(e.id)
  {
    hide Blank, Stored;
    if ss != [] {
      StoredHaveIds(ss[..|ss| - 1]);
      StoredId(ss[|ss| - 1]);
    }
  }

  // Signals that all have event ids are stored one by one, in order.
  lemma {:induction false} StoredIds(ss: seq<TaskSignal>)
    requires forall s :: s in ss ==> !Blank(s.event.id)
    ensures SameIds(StoredAll(ss), ss)
  {
    hide Blank, Stored, SameIds;
    if ss == [] {
      NoIds();
    } else {
      var front, last := ss[..|ss| - 1], ss[|ss| - 1];
      StoredIds(front);
      StoredId(last);
      SameIdsGrow(StoredAll(front), front, Stored(last), last);
      assert front + [last] == ss;
    }
  }

  lemma NoIds()
    ensures SameIds([], [])
  {
  }

  predicate SameIds(es: seq<Event>, ss: seq<TaskSignal>) {
    |es| == |ss| && forall i :: 0 <= i < |ss| ==> es[i].id == ss[i].event.id
  }

  lemma SameIdsGrow(es: seq<Event>, ss: seq<TaskSignal>, more: seq<Event>, s: TaskSignal)
    requires SameIds(es, ss) && |more| == 1 && more[0].id == s.event.id
    ensures SameIds(es + more, ss + [s])
  {
  }

  lemma StoredId(s: TaskSignal)
    ensures Blank(s.event.id) ==> Stored(s) == []
    ensures !Blank(s.event.id) ==> |Stored(s)| == 1 && Stored(s)[0].id == s.event.id
  {
    hide Blank;
  }

  // A signal with an event id is stored as its event, marked as a cancel or an interrupt if
  // it is one; a signal without one is not stored.
  lemma StoredIs(s: TaskSignal)
    ensures AllSpace(s.event.id) ==> Stored(s) == []
    ensures !AllSpace(s.event.id) ==>
              Stored(s) == [match s.kind
                            case ContextSignal => s.event
                            case CancelSignal => s.event.(metadata := s.event.metadata["control" := "cancel"])
                            case InterruptSignal => s.event.(metadata := s.event.metadata["control" := "interrupt"])]
  {
    BlankIsAllSpace(s.event.id);
    TrimSpaceOfTrimmed("");
    TrimSpaceOfTrimmed("cancel");
    TrimSpaceOfTrimmed("interrupt");
    hide TrimSpace;
  }

  lemma StoredOne(ss: seq<TaskSignal>, s: TaskSignal)
    ensures StoredAll(ss + [s]) == StoredAll(ss) + Stored(s)
    ensures Added(ss + [s]) == Added(ss) + AddedBy(s)
  {
    assert (ss + [s])[..|ss|] == ss;
    hide Stored, AddedBy;
  }

  // What becomes of signals stored one by one from a moment on: whether all stores worked,
  // the moment after the last one tried, and what was stored.
  datatype Persisted = Persisted(ok: bool, clock: nat, events: seq<Event>)

  function Persist(ss: seq<TaskSignal>, stores: nat -> bool, clock: nat): Persisted {
    if ss == [] then Persisted(true, clock, [])
    else if Blank(ss[0].event.id) then Persist(ss[1..], stores, clock)
    else if !stores(clock) then Persisted(false, clock + 1, [])
    else
      var rest := Persist(ss[1..], stores, clock + 1);
      rest.(events := Stored(ss[0]) + rest.events)
  }

  lemma {:induction false} StoredCons(s: TaskSignal, rest: seq<TaskSignal>)
    ensures StoredAll([s] + rest) == Stored(s) + StoredAll(rest)
  {
    StoredConcat([s], rest);
    assert [s][..0] == [];
    assert StoredAll([s]) == Stored(s);
    hide Stored, StoredAll;
  }

  // Every signal with an event id is stored, in order, or a store failed on the way and a
  // proper first part is.
  lemma {:induction false} PersistStores(ss: seq<TaskSignal>, stores: nat -> bool, clock: nat)
    ensures var r := Persist(ss, stores, clock);
            && clock <= r.clock
            && (r.ok ==> r.events == StoredAll(ss))
            && (!r.ok ==> r.events < StoredAll(ss) && clock < r.clock && !stores(r.clock - 1))
            && (forall t :: clock <= t < r.clock - (if r.ok then 0 else 1) ==> stores(t))
  {
    hide Blank, Stored, StoredAll;
    EmptyStored();
    if ss != [] {
      StoredCons(ss[0], ss[1..]);
      StoredId(ss[0]);
      assert ss == [ss[0]] + ss[1..];
      if Blank(ss[0].event.id) {
        PersistStores(ss[1..], stores, clock);
        NothingFirst(StoredAll(ss[1..]));
      } else {
        PersistStores(ss[1..], stores, clock + 1);
        if stores(clock) {
          Prepends(Stored(ss[0]), Persist(ss[1..], stores, clock + 1).events, StoredAll(ss[1..]));
        }
      }
    }
  }

  lemma NothingFirst(es: seq<Event>)
    ensures [] + es == es
  {
  }

  lemma Prepends(x: seq<Event>, part: seq<Event>, all: seq<Event>)
    ensures part < all ==> x + part < x + all
  {
  }

  method PersistSignals(signals: seq<TaskSignal>, stores: nat -> bool, clock: nat, log: seq<Event>)
    returns (ok: bool, clock': nat, log': seq<Event>)
    ensures var r := Persist(signals, stores, clock); ok == r.ok && clock' == r.clock && log' == log + r.events
  {
    hide Blank, WithControl;
    clock', log', ok := clock, log, true;
    ghost var done: seq<Event> := [];
    assert signals[0..] == signals;
    for i := 0 to |signals|
      invariant log' == log + done
      invariant var r := Persist(signals[i..], stores, clock');
                Persist(signals, stores, clock) == r.(events := done + r.events)
    {
      assert signals[i..][1..] == signals[i + 1..];
      if !Blank(signals[i].event.id) {
        clock' := clock' + 1;
        if !stores(clock' - 1) {
          return false, clock', log';
        }
        var stored := [WithControl(signals[i].event, ControlText(signals[i].kind))];
        log' := log' + stored;
        assert done + (stored + Persist(signals[i + 1..], stores, clock').events)
            == done + stored + Persist(signals[i + 1..], stores, clock').events;
        done := done + stored;
      }
    }
  }

  lemma EmptyStored()
    ensures StoredAll([]) == [] && Added([]) == []
  {
  }

  lemma AddedStep(base: seq<Event>, ss: seq<TaskSignal>, s: TaskSignal)
    ensures base + Added(ss + [s]) == base + Added(ss) + AddedBy(s)
  {
    StoredOne(ss, s);
    hide Added, AddedBy, StoredAll, Stored;
  }

  // What one signal does to the context events.
  method TakeSignal(s: TaskSignal, additional: seq<Event>) returns (additional': seq<Event>)
    ensures additional' == additional + AddedBy(s)
  {
    hide Blank;
    additional' := additional;
    if s.kind == ContextSignal || (s.kind == InterruptSignal && !Blank(s.event.body)) {
      additional' := additional' + [s.event];
    }
  }

  function SignalsOf(kind: SignalKind, events: seq<Event>): (ss: seq<TaskSignal>)
    ensures |ss| == |events| && forall i :: 0 <= i < |ss| ==> ss[i] == TaskSignal(kind, events[i])
  {
    seq(|events|, i requires 0 <= i < |events| => TaskSignal(kind, events[i]))
  }

  // Takes everything that has arrived on one channel, without waiting.
  method Drain(arrived: seq<Event>, kind: SignalKind, additional: seq<Event>)
    returns (signals: seq<TaskSignal>, additional': seq<Event>)
    ensures signals == SignalsOf(kind, arrived)
    ensures additional' == additional + Added(signals)
  {
    hide Blank, Added, AddedBy;
    signals, additional' := [], additional;
    EmptyStored();
    for i := 0 to |arrived|
      invariant signals == SignalsOf(kind, arrived[..i])
      invariant additional' == additional + Added(signals)
    {
      var s := TaskSignal(kind, arrived[i]);
      AddedStep(additional, signals, s);
      signals := signals + [s];
      additional' := TakeSignal(s, additional');
    }
    assert arrived[..|arrived|] == arrived;
  }

  // ---- what a run keeps of its signals ---------------------------------------------------

  predicate ContextOk(first: seq<Event>, additional: seq<Event>, consumed: seq<TaskSignal>) {
    additional == first + Added(consumed)
  }

  predicate StoredOk(first: seq<Event>, stored: seq<Event>, consumed: seq<TaskSignal>) {
    stored == first + StoredAll(consumed)
  }

  // Without a failed store every signal is stored; a failed store leaves a first part.
  predicate StoredSoFar(first: seq<Event>, stored: seq<Event>, consumed: seq<TaskSignal>, failed: bool) {
    if failed then stored <= first + StoredAll(consumed) else StoredOk(first, stored, consumed)
  }

  lemma ContextGrows(first: seq<Event>, additional: seq<Event>, consumed: seq<TaskSignal>, more: seq<TaskSignal>)
    requires ContextOk(first, additional, consumed)
    ensures ContextOk(first, additional + Added(more), consumed + more)
  {
    hide Added;
    AddedConcat(consumed, more);
    assert first + (Added(consumed) + Added(more)) == first + Added(consumed) + Added(more);
  }

  lemma StoredGrows(first: seq<Event>, stored: seq<Event>, consumed: seq<TaskSignal>, more: seq<TaskSignal>)
    requires StoredOk(first, stored, consumed)
    ensures StoredOk(first, stored + StoredAll(more), consumed + more)
    ensures stored + StoredAll(more) == first + StoredAll(consumed + more)
  {
    hide StoredAll;
    StoredConcat(consumed, more);
    assert first + (StoredAll(consumed) + StoredAll(more)) == first + StoredAll(consumed) + StoredAll(more);
  }

  // ---- waiting for a tool ----------------------------------------------------------------

  datatype ToolChoice = ToolChoice(toolCallId: string, tool: string, workingDir: string, metadata: Metadata)

  function ChoiceCallId(c: ToolChoice): string {
    if Blank(c.toolCallId) then TrimSpace(Lookup(c.metadata, "tool_call_id")) else TrimSpace(c.toolCallId)
  }

  function FailedExecution(c: ToolChoice, workItemId: string, cycle: int, message: string): ToolResult {
    ToolResult(cycle, workItemId, ChoiceCallId(c), c.tool, "failed",
               "Tool execution failed before producing a structured result.", message,
               c.workingDir, "activity_error", c.metadata, [])
  }

  const NoResult := ToolResult(0, "", "", "", "", "", "", "", "", map[], [])

  // What one call of the selector delivers: the future, with its result or error, or a signal.
  datatype Wakeup = Done(result: ToolResult) | Failed(error: string) | Arrived(signal: TaskSignal)

  datatype StepEnd =
    | Ended(result: ToolResult, canceled: bool, interrupted: bool, signals: seq<TaskSignal>)
    | Waiting(signals: seq<TaskSignal>)

  function SignalsIn(ws: seq<Wakeup>): seq<TaskSignal> {
    if ws == [] then []
    else SignalsIn(ws[..|ws| - 1]) + (if ws[|ws| - 1].Arrived? then [ws[|ws| - 1].signal] else [])
  }

  // The wake-ups up to and with the first that ends the wait for a tool: a result, an
  // error, or an interrupt.
  predicate EndsToolWait(w: Wakeup) {
    match w
    case Done(r) => r.toolCallId != "" || r.status != ""
    case Failed(_) => true
    case Arrived(s) => s.kind == InterruptSignal
  }

  function ToolWait(ws: seq<Wakeup>): seq<Wakeup> {
    if ws == [] then [] else if EndsToolWait(ws[0]) then [ws[0]] else [ws[0]] + ToolWait(ws[1..])
  }

  lemma {:induction false} ToolWaitAt(ws: seq<Wakeup>, n: nat)
    requires n <= |ws| && forall k :: 0 <= k < n ==> !EndsToolWait(ws[k])
    ensures n == |ws| ==> ToolWait(ws) == ws
    ensures n < |ws| && EndsToolWait(ws[n]) ==> ToolWait(ws) == ws[..n + 1]
  {
    if n > 0 {
      ToolWaitAt(ws[1..], n - 1);
      assert ws == [ws[0]] + ws[1..];
      assert n < |ws| ==> ws[..n + 1] == [ws[0]] + ws[1..][..n];
    } else if ws != [] {
      assert ws[..1] == [ws[0]];
    }
  }

  predicate Cancels(ws: seq<Wakeup>) {
    exists k :: 0 <= k < |ws| && ws[k].Arrived? && ws[k].signal.kind == CancelSignal
  }

  // How the wait for a tool ends. An interrupt ends it at once and hides an earlier cancel.
  function ToolStepEnd(c: ToolChoice, workItemId: string, cycle: int, wakeups: seq<Wakeup>): StepEnd {
    var ws := ToolWait(wakeups);
    if ws == [] || !EndsToolWait(ws[|ws| - 1]) then Waiting(SignalsIn(ws))
    else
      match ws[|ws| - 1]
      case Done(r) => Ended(r, Cancels(ws), false, SignalsIn(ws))
      case Failed(error) => Ended(FailedExecution(c, workItemId, cycle, error), Cancels(ws), false, SignalsIn(ws))
      case Arrived(_) =>
        Ended(FailedExecution(c, workItemId, cycle, "interrupted by user message").(status := "canceled"),
              false, true, SignalsIn(ws))
  }

  method ExecuteToolStep(choice: ToolChoice, workItemId: string, cycle: int, wakeups: seq<Wakeup>,
        additional: seq<Event>)
    returns (end: StepEnd, additional': seq<Event>)
    ensures end == ToolStepEnd(choice, workItemId, cycle, wakeups)
    ensures additional' == additional + Added(end.signals)
  {
    hide Blank, ChoiceCallId, FailedExecution, Added, AddedBy, SignalsIn, Cancels, ToolWait;
    var result := NoResult;
    var interrupted, canceled, signals := false, false, [];
    additional' := additional;
    EmptyStored();
    NothingIn();
    for i := 0 to |wakeups|
      invariant signals == SignalsIn(wakeups[..i])
      invariant additional' == additional + Added(signals)
      invariant !interrupted && canceled == Cancels(wakeups[..i])
      invariant result.toolCallId == "" && result.status == ""
      invariant forall k :: 0 <= k < i ==> !EndsToolWait(wakeups[k])
    {
      ToolWaitAt(wakeups, i);
      SignalsStep(wakeups, i);
      CancelsOne(wakeups, i);
      match wakeups[i] {
        case Done(r) =>
          result := r;
        case Failed(error) =>
          result := FailedExecution(choice, workItemId, cycle, error);
          FailedHasStatus(choice, workItemId, cycle, error);
        case Arrived(s) =>
          AddedStep(additional, signals, s);
          signals := signals + [s];
          additional' := TakeSignal(s, additional');
          canceled := canceled || s.kind == CancelSignal;
          interrupted := interrupted || s.kind == InterruptSignal;
      }
      if result.toolCallId != "" || result.status != "" {
        if canceled {
          return Ended(result, true, false, signals), additional';
        }
        if interrupted {
          result := result.(status := "canceled", error := "interrupted by user message");
        }
        return Ended(result, false, interrupted, signals), additional';
      }
      if interrupted {
        result := FailedExecution(choice, workItemId, cycle, "interrupted by user message");
        result := result.(status := "canceled");
        return Ended(result, false, true, signals), additional';
      }
    }
    ToolWaitAt(wakeups, |wakeups|);
    assert wakeups[..|wakeups|] == wakeups;
    end := Waiting(signals);
  }

  lemma NothingIn()
    ensures SignalsIn([]) == [] && !Cancels([]) && !Interrupts([])
  {
  }

  lemma SignalsStep(ws: seq<Wakeup>, i: nat)
    requires i < |ws|
    ensures SignalsIn(ws[..i + 1]) == SignalsIn(ws[..i]) + if ws[i].Arrived? then [ws[i].signal] else []
  {
    assert ws[..i + 1][..i] == ws[..i];
  }

  lemma FailedHasStatus(c: ToolChoice, workItemId: string, cycle: int, message: string)
    ensures FailedExecution(c, workItemId, cycle, message).status == "failed"
  {
    hide ChoiceCallId;
  }

  lemma CancelsOne(ws: seq<Wakeup>, i: nat)
    requires i < |ws|
    ensures Cancels(ws[..i + 1]) == (Cancels(ws[..i]) || (ws[i].Arrived? && ws[i].signal.kind == CancelSignal))
  {
    if Cancels(ws[..i]) {
      var k :| 0 <= k < i && ws[..i][k].Arrived? && ws[..i][k].signal.kind == CancelSignal;
      assert ws[..i + 1][k] == ws[..i][k];
    }
    if ws[i].Arrived? && ws[i].signal.kind == CancelSignal {
      assert ws[..i + 1][i] == ws[i];
    }
    if Cancels(ws[..i + 1]) {
      var k :| 0 <= k < i + 1 && ws[..i + 1][k].Arrived? && ws[..i + 1][k].signal.kind == CancelSignal;
      assert k < i ==> ws[..i][k] == ws[k];
    }
  }

  // A result made for a call that no tool has answered.
  predicate Unanswered(r: ToolResult, c: ToolChoice, workItemId: string, cycle: int, status: string, error: string) {
    && r.cycle == cycle && r.workItemId == workItemId && r.tool == c.tool
    && r.toolCallId == (if AllSpace(c.toolCallId) then TrimSpace(Lookup(c.metadata, "tool_call_id"))
                        else TrimSpace(c.toolCallId))
    && r.status == status && r.error == error
    && r.observation == "Tool execution failed before producing a structured result."
    && r.workingDirectory == c.workingDir && r.resultCode == "activity_error"
    && r.metadata == c.metadata && r.processes == []
  }

  // How a wait ends at its first ending wake-up: with the tool's own result, with a failed
  // one that carries the error, or with a canceled one that names the interrupt.
  lemma ToolEndIs(c: ToolChoice, workItemId: string, cycle: int, ws: seq<Wakeup>, n: nat)
    requires n < |ws| && EndsToolWait(ws[n]) && forall k :: 0 <= k < n ==> !EndsToolWait(ws[k])
    ensures ToolStepEnd(c, workItemId, cycle, ws).Ended?
    ensures var result := ToolStepEnd(c, workItemId, cycle, ws).result;
            match ws[n]
            case Done(r) => result == r
            case Failed(error) => Unanswered(result, c, workItemId, cycle, "failed", error)
            case Arrived(_) => Unanswered(result, c, workItemId, cycle, "canceled", "interrupted by user message")
  {
    ToolWaitAt(ws, n);
    assert ws[..n + 1][n] == ws[n];
    FailureIs(c, workItemId, cycle, "interrupted by user message");
    if ws[n].Failed? {
      FailureIs(c, workItemId, cycle, ws[n].error);
    }
    hide ToolWait, Cancels, SignalsIn, TrimSpace, FailedExecution, AllSpace;
  }

  lemma FailureIs(c: ToolChoice, workItemId: string, cycle: int, error: string)
    ensures Unanswered(FailedExecution(c, workItemId, cycle, error), c, workItemId, cycle, "failed", error)
  {
    BlankIsAllSpace(c.toolCallId);
    hide TrimSpace, AllSpace;
  }

  predicate HasKind(ss: seq<TaskSignal>, kind: SignalKind) {
    exists k :: 0 <= k < |ss| && ss[k].kind == kind
  }

  lemma HasKindSnoc(ss: seq<TaskSignal>, s: TaskSignal, kind: SignalKind)
    ensures HasKind(ss + [s], kind) <==> HasKind(ss, kind) || s.kind == kind
  {
    if HasKind(ss, kind) {
      var k :| 0 <= k < |ss| && ss[k].kind == kind;
      assert (ss + [s])[k].kind == kind;
    }
    assert (ss + [s])[|ss|] == s;
  }

  // The signals of some wake-ups are those that arrived among them.
  lemma {:induction false} KindsIn(ws: seq<Wakeup>)
    ensures HasKind(SignalsIn(ws), CancelSignal) <==> Cancels(ws)
    ensures HasKind(SignalsIn(ws), InterruptSignal) <==> Interrupts(ws)
    decreases |ws|
  {
    hide HasKind, Cancels, Interrupts;
    if ws == [] {
      NothingIn();
      NoKind();
    } else {
      var i := |ws| - 1;
      KindsIn(ws[..i]);
      CancelsOne(ws, i);
      InterruptsOne(ws, i);
      SignalsStep(ws, i);
      assert ws[..i + 1] == ws && SignalsIn(ws[..i]) + [] == SignalsIn(ws[..i]);
      if ws[i].Arrived? {
        HasKindSnoc(SignalsIn(ws[..i]), ws[i].signal, CancelSignal);
        HasKindSnoc(SignalsIn(ws[..i]), ws[i].signal, InterruptSignal);
      }
    }
  }

  lemma NoKind()
    ensures !HasKind([], CancelSignal) && !HasKind([], InterruptSignal)
  {
  }

  // Only the last wake-up of a wait for a tool can be an interrupt.
  lemma {:induction false} InterruptEndsToolWait(ws: seq<Wakeup>)
    ensures forall k :: 0 <= k < |ToolWait(ws)| - 1 ==> !EndsToolWait(ToolWait(ws)[k])
    ensures ToolWait(ws) <= ws
  {
    if ws != [] && !EndsToolWait(ws[0]) {
      InterruptEndsToolWait(ws[1..]);
      assert ws == [ws[0]] + ws[1..];
    }
  }

  // What a tool step reports follows from the wake-ups: interrupted when an interrupt comes
  // before any answer, canceled when an answer comes first and a cancel before it.
  lemma ToolEndReflectsWakeups(c: ToolChoice, workItemId: string, cycle: int, wakeups: seq<Wakeup>)
    ensures var (end, ws) := (ToolStepEnd(c, workItemId, cycle, wakeups), ToolWait(wakeups));
            end.Ended? ==>
              && (end.interrupted <==> Interrupts(ws))
              && (end.canceled <==> Cancels(ws) && !Interrupts(ws))
              && (Cancels(ws) <==> HasKind(end.signals, CancelSignal))
              && (Interrupts(ws) <==> HasKind(end.signals, InterruptSignal))
  {
    hide HasKind, FailedExecution, SignalsIn, ToolWait;
    KindsIn(ToolWait(wakeups));
    InterruptEndsToolWait(wakeups);
    LastInterrupt(ToolWait(wakeups));
    hide Cancels, Interrupts;
  }

  lemma LastInterrupt(ws: seq<Wakeup>)
    requires forall k :: 0 <= k < |ws| - 1 ==> !EndsToolWait(ws[k])
    ensures Interrupts(ws) <==> ws != [] && ws[|ws| - 1].Arrived? && ws[|ws| - 1].signal.kind == InterruptSignal
  {
  }

  // A cancel that an interrupt overtakes before the tool answers is consumed but not obeyed.
  lemma InterruptHidesCancel(c: ToolChoice, workItemId: string, cycle: int, before: seq<Wakeup>, e: Event,
        after: seq<Wakeup>)
    requires forall k :: 0 <= k < |before| ==> !EndsToolWait(before[k])
    ensures var end := ToolStepEnd(c, workItemId, cycle, before + [Arrived(TaskSignal(InterruptSignal, e))] + after);
            && end.Ended? && end.interrupted && !end.canceled && end.result.status == "canceled"
            && end.signals == SignalsIn(before) + [TaskSignal(InterruptSignal, e)]
            && (Cancels(before) ==> HasKind(end.signals, CancelSignal))
  {
    hide FailedExecution, HasKind;
    var i := Arrived(TaskSignal(InterruptSignal, e));
    var all := before + [i] + after;
    ToolWaitAt(all, |before|);
    assert all[..|before| + 1] == before + [i];
    assert (before + [i])[..|before|] == before;
    KindsIn(before);
    HasKindSnoc(SignalsIn(before), TaskSignal(InterruptSignal, e), CancelSignal);
  }

  // ---- waiting for an agent child ---------------------------------------------------------

  // The wake-ups of a wait that only the child's end finishes.
  function ChildWait(ws: seq<Wakeup>): seq<Wakeup> {
    if ws == [] then [] else if !ws[0].Arrived? then [ws[0]] else [ws[0]] + ChildWait(ws[1..])
  }

  lemma {:induction false} ChildWaitAt(ws: seq<Wakeup>, n: nat)
    requires n <= |ws| && forall k :: 0 <= k < n ==> ws[k].Arrived?
    ensures n == |ws| ==> ChildWait(ws) == ws
    ensures n < |ws| && !ws[n].Arrived? ==> ChildWait(ws) == ws[..n + 1]
  {
    if n > 0 {
      ChildWaitAt(ws[1..], n - 1);
      assert ws == [ws[0]] + ws[1..];
      assert n < |ws| ==> ws[..n + 1] == [ws[0]] + ws[1..][..n];
    } else if ws != [] {
      assert ws[..1] == [ws[0]];
    }
  }

  predicate Interrupts(ws: seq<Wakeup>) {
    exists k :: 0 <= k < |ws| && ws[k].Arrived? && ws[k].signal.kind == InterruptSignal
  }

  lemma InterruptsOne(ws: seq<Wakeup>, i: nat)
    requires i < |ws|
    ensures Interrupts(ws[..i + 1]) == (Interrupts(ws[..i]) || (ws[i].Arrived? && ws[i].signal.kind == InterruptSignal))
  {
    if Interrupts(ws[..i]) {
      var k :| 0 <= k < i && ws[..i][k].Arrived? && ws[..i][k].signal.kind == InterruptSignal;
      assert ws[..i + 1][k] == ws[..i][k];
    }
    if ws[i].Arrived? && ws[i].signal.kind == InterruptSignal {
      assert ws[..i + 1][i] == ws[i];
    }
    if Interrupts(ws[..i + 1]) {
      var k :| 0 <= k < i + 1 && ws[..i + 1][k].Arrived? && ws[..i + 1][k].signal.kind == InterruptSignal;
      assert k < i ==> ws[..i][k] == ws[k];
    }
  }

  // The result made from an agent child: what it reported, or its error.
  function ChildResult(choice: ToolChoice, workItemId: string, cycle: int, w: Wakeup): ToolResult {
    match w
    case Done(r) =>
      var status := if r.status == "" then "succeeded" else r.status;
      ToolResult(cycle, workItemId, ChoiceCallId(choice), "agent", status, r.observation, TrimSpace(r.error), "",
                 if status == "succeeded" then "0" else "1", r.metadata, r.processes)
    case Failed(error) =>
      ToolResult(cycle, workItemId, ChoiceCallId(choice), "agent", "failed",
                 "Agent failed.\nerror: " + error, error, "", "1", map[], [])
    case Arrived(_) => NoResult
  }

  // The parent's result for a child: what the child reported, as a success if it said
  // nothing of its status, or the failure of the child.
  lemma ChildResultIs(c: ToolChoice, workItemId: string, cycle: int, w: Wakeup)
    requires !w.Arrived?
    ensures var r := ChildResult(c, workItemId, cycle, w);
            && r.cycle == cycle && r.workItemId == workItemId && r.tool == "agent" && r.workingDirectory == ""
            && r.toolCallId == (if AllSpace(c.toolCallId) then TrimSpace(Lookup(c.metadata, "tool_call_id"))
                                else TrimSpace(c.toolCallId))
            && (r.resultCode == if r.status == "succeeded" then "0" else "1")
            && match w
               case Done(child) =>
                 && (child.status == "" ==> r.status == "succeeded")
                 && (child.status != "" ==> r.status == child.status)
                 && r.observation == child.observation && r.error == TrimSpace(child.error)
                 && r.metadata == child.metadata && r.processes == child.processes
               case Failed(error) =>
                 && r.status == "failed" && r.observation == "Agent failed.\nerror: " + error && r.error == error
                 && r.metadata == map[] && r.processes == []
               case Arrived(_) => false
  {
    BlankIsAllSpace(c.toolCallId);
    hide TrimSpace;
  }

  function AgentStepEnd(c: ToolChoice, workItemId: string, cycle: int, start: Option<string>,
        wakeups: seq<Wakeup>): StepEnd
  {
    var ws := ChildWait(wakeups);
    if start.Some? then Ended(ChildResult(c, workItemId, cycle, Failed(start.value)), false, false, [])
    else if ws == [] || ws[|ws| - 1].Arrived? then Waiting(SignalsIn(ws))
    else
      var last := ws[|ws| - 1];
      Ended(ChildResult(c, workItemId, cycle, last), Cancels(ws) || (last.Done? && last.result.status == "canceled"),
            Interrupts(ws), SignalsIn(ws))
  }

  // Waits for the child, handing every signal on to it. Here a cancel or an interrupt
  // does not end the wait: the child decides. `start` is the error of a child that did
  // not start.
  method ExecuteAgentStep(choice: ToolChoice, workItemId: string, cycle: int, start: Option<string>,
        wakeups: seq<Wakeup>, additional: seq<Event>)
    returns (end: StepEnd, additional': seq<Event>, forwarded: seq<TaskSignal>)
    ensures end == AgentStepEnd(choice, workItemId, cycle, start, wakeups)
    ensures additional' == additional + Added(end.signals)
    ensures forwarded == end.signals
  {
    hide Blank, ChildResult, Added, AddedBy, SignalsIn, Cancels, Interrupts, ChildWait;
    additional', forwarded := additional, [];
    EmptyStored();
    if start.Some? {
      return Ended(ChildResult(choice, workItemId, cycle, Failed(start.value)), false, false, []), additional',
          forwarded;
    }
    var interrupted, canceled, signals := false, false, [];
    NothingIn();
    for i := 0 to |wakeups|
      invariant signals == SignalsIn(wakeups[..i]) && forwarded == signals
      invariant additional' == additional + Added(signals)
      invariant canceled == Cancels(wakeups[..i]) && interrupted == Interrupts(wakeups[..i])
      invariant forall k :: 0 <= k < i ==> wakeups[k].Arrived?
    {
      ChildWaitAt(wakeups, i);
      SignalsStep(wakeups, i);
      CancelsOne(wakeups, i);
      InterruptsOne(wakeups, i);
      if !wakeups[i].Arrived? {
        if wakeups[i].Done? && wakeups[i].result.status == "canceled" {
          canceled := true;
        }
        return Ended(ChildResult(choice, workItemId, cycle, wakeups[i]), canceled, interrupted, signals), additional',
            forwarded;
      }
      var s := wakeups[i].signal;
      AddedStep(additional, signals, s);
      signals := signals + [s];
      additional' := TakeSignal(s, additional');
      canceled := canceled || s.kind == CancelSignal;
      interrupted := interrupted || s.kind == InterruptSignal;
      forwarded := forwarded + [s];
    }
    ChildWaitAt(wakeups, |wakeups|);
    assert wakeups[..|wakeups|] == wakeups;
    end := Waiting(signals);
  }

  // What the wait for a child reports follows from the signals it consumed and from the
  // status the child ended with.
  lemma ChildEndReflectsSignals(c: ToolChoice, workItemId: string, cycle: int, wakeups: seq<Wakeup>)
    ensures var end := AgentStepEnd(c, workItemId, cycle, None, wakeups);
            end.Ended? ==>
              && (end.interrupted <==> HasKind(end.signals, InterruptSignal))
              && (end.canceled <==> HasKind(end.signals, CancelSignal) || end.result.status == "canceled")
  {
    hide HasKind, SignalsIn, ChildWait, Cancels, Interrupts, ChoiceCallId, TrimSpace;
    KindsIn(ChildWait(wakeups));
  }
}
