// How agent runs end.
module AgentEnds {
  import opened Text
  import opened Domain
  import opened Signals
  import opened Processes
  import opened NextActionActivity
  import opened Compression
  import opened AgentMachine
  import opened AgentLaws
  import opened AgentResults

  function LastRequest(calls: seq<AgentCall>): Request
    requires calls != []
  {
    calls[|calls| - 1].request
  }

  predicate AnswerIs(env: AgentEnv, t: nat, request: Request, r: ActionResult) {
    AnswerAt(env, t, request) == Some(r)
  }

  // The last call was answered so at some moment.
  ghost predicate AnsweredBy(env: AgentEnv, calls: seq<AgentCall>, clock: nat, r: ActionResult) {
    calls != [] && exists t: nat :: t < clock && AnswerIs(env, t, LastRequest(calls), r)
  }

  ghost predicate CompletedBy(env: AgentEnv, calls: seq<AgentCall>, clock: nat) {
    exists r :: AnsweredBy(env, calls, clock, r) && r.status == Completed
  }

  // A run that returns carries all its processes; one that succeeds had its last call
  // answered as completed, and one that is canceled has consumed a cancel.
  ghost predicate EndsOk(env: AgentEnv, w: World, consumed: seq<TaskSignal>) {
    match w.phase
    case Answered(_, r) => AnsweredBy(env, w.calls, w.clock, r)
    case Completing(_, _) => CompletedBy(env, w.calls, w.clock)
    case Over(Returned(status, _, processes)) =>
      && processes == w.processes
      && (status == "succeeded" ==> CompletedBy(env, w.calls, w.clock))
      && (status == "canceled" ==> HasKind(consumed, CancelSignal))
    case _ => true
  }

  lemma StillCompleted(env: AgentEnv, calls: seq<AgentCall>, clock: nat, later: nat)
    requires clock <= later
    ensures CompletedBy(env, calls, clock) ==> CompletedBy(env, calls, later)
  {
    hide AnswerIs;
    if CompletedBy(env, calls, clock) {
      var r :| AnsweredBy(env, calls, clock, r) && r.status == Completed;
      assert AnsweredBy(env, calls, later, r);
    }
  }

  lemma CallingEnds(input: AgentInput, env: AgentEnv, w: World, consumed: seq<TaskSignal>)
    requires w.phase.Calling?
    ensures EndsOk(env, AfterCalling(input, env, w, w.phase.turn), consumed)
  {
    hide AnswerAt, MergeAll, CompletedBy, Limit;
    var v := AfterCalling(input, env, w, w.phase.turn);
    if v.phase.Answered? {
      assert AnswerIs(env, w.clock, LastRequest(v.calls), v.phase.next);
    }
  }

  lemma AnswerEnds(input: AgentInput, env: AgentEnv, w: World, consumed: seq<TaskSignal>)
    requires w.phase.Answered? && EndsOk(env, w, consumed)
    ensures EndsOk(env, AfterAnswer(input, env, w, w.phase.turn, w.phase.next), consumed)
  {
    assert w.phase.next.status == Completed ==> CompletedBy(env, w.calls, w.clock);
    StillCompleted(env, w.calls, w.clock, w.clock + 1);
    hide AnsweredBy, CompletedBy, Blank, Limit;
  }

  lemma BeginningEnds(env: AgentEnv, w: World, consumed: seq<TaskSignal>)
    requires w.phase.Beginning?
    ensures EndsOk(env, AfterBeginning(env, w, w.phase.turn), consumed + Arrivals(env, w.clock))
  {
    if env.cancels(w.clock) != [] {
      CancelArrives(consumed, env, w.clock);
    }
    hide Persist, Arrivals, Added, CompletedBy, HasKind;
  }

  lemma CancelArrives(consumed: seq<TaskSignal>, env: AgentEnv, t: nat)
    requires env.cancels(t) != []
    ensures HasKind(consumed + Arrivals(env, t), CancelSignal)
  {
    var k := |consumed| + |env.contexts(t)|;
    assert (consumed + Arrivals(env, t))[k] == TaskSignal(CancelSignal, env.cancels(t)[0]);
  }

  lemma CancelTaken(consumed: seq<TaskSignal>, more: seq<TaskSignal>)
    requires HasKind(more, CancelSignal)
    ensures HasKind(consumed + more, CancelSignal)
  {
    var k :| 0 <= k < |more| && more[k].kind == CancelSignal;
    assert (consumed + more)[|consumed| + k] == more[k];
  }

  lemma StepReflects(input: AgentInput, env: AgentEnv, t: nat, choice: ToolChoice, workItemId: string, turn: int,
        consumed: seq<TaskSignal>)
    ensures var end := StepFor(input, env, t, choice, workItemId, turn);
            end.Ended? && end.canceled ==> HasKind(consumed + end.signals, CancelSignal)
  {
    hide HasKind, ToolStepEnd, ToolWait, Cancels, Interrupts;
    ToolEndReflectsWakeups(choice, workItemId, turn, env.wakeups(t, choice, turn));
    var end := StepFor(input, env, t, choice, workItemId, turn);
    if end.Ended? && end.canceled {
      CancelTaken(consumed, end.signals);
    }
  }

  lemma ToolEnds(input: AgentInput, env: AgentEnv, w: World, consumed: seq<TaskSignal>)
    requires w.phase.Using?
    ensures EndsOk(env, Next(input, env, w), consumed + SignalsTaken(input, env, w))
  {
    var p := w.phase;
    hide Persist, StepFor, Allowed, MergeAll, Added, Annotated, AnnotatedChoice, CompletedBy, HasKind, NextTurn;
    TurnIsNotOver(input, p.turn);
    if p.index < |p.choices| {
      StepReflects(input, env, w.clock, AnnotatedChoice(p.choices[p.index], input.lineage), p.workItemId, p.turn,
          consumed);
    }
  }

  lemma CompletingEnds(input: AgentInput, env: AgentEnv, w: World, consumed: seq<TaskSignal>)
    requires w.phase.Completing? && EndsOk(env, w, consumed)
    ensures EndsOk(env, Next(input, env, w), consumed + SignalsTaken(input, env, w))
  {
    var p := w.phase;
    hide Persist, StepFor, MergeAll, Added, Annotated, CompletionChoice, CompletedBy, HasKind, NextTurn, Limit,
         StoredAll;
    TurnIsNotOver(input, p.turn);
    StepReflects(input, env, w.clock, CompletionChoice(input, p.tool, p.turn), "", p.turn, consumed);
    var signals := StepIn(input, env, w).value.signals;
    PersistStores(signals, env.stores, w.clock + 1);
    StillCompleted(env, w.calls, w.clock, Persist(signals, env.stores, w.clock + 1).clock + 1);
  }

  lemma OtherStepsEnd(input: AgentInput, env: AgentEnv, w: World, consumed: seq<TaskSignal>)
    requires w.phase.Opening? || w.phase.Compressing?
    ensures EndsOk(env, Next(input, env, w), consumed)
  {
    hide CompressedAt, TrimSpace, CompletedBy, HasKind;
  }

  lemma StepKeepsEnds(input: AgentInput, env: AgentEnv, w: World, consumed: seq<TaskSignal>)
    requires EndsOk(env, w, consumed)
    ensures EndsOk(env, Next(input, env, w), consumed + SignalsTaken(input, env, w))
  {
    assert consumed + [] == consumed;
    hide EndsOk, AfterBeginning, AfterCompressing, AfterCalling, AfterAnswer, AfterStep, AfterCompleting, Arrivals,
         StepFor, Allowed;
    match w.phase
    case Beginning(_) => BeginningEnds(env, w, consumed);
    case Calling(_) => CallingEnds(input, env, w, consumed);
    case Answered(_, _) => AnswerEnds(input, env, w, consumed);
    case Using(_, _, _, _) => ToolEnds(input, env, w, consumed);
    case Completing(_, _) => CompletingEnds(input, env, w, consumed);
    case Over(_) =>
    case _ => OtherStepsEnd(input, env, w, consumed);
  }

  // In every run: success has a completed answer behind it, a cancel was consumed, and the
  // result carries every process.
  lemma {:induction false} RunsEndForAReason(input: AgentInput, env: AgentEnv, n: nat)
    ensures EndsOk(env, After(input, env, n), ConsumedBy(input, env, n))
  {
    hide Next, SignalsTaken;
    if n > 0 {
      RunsEndForAReason(input, env, n - 1);
      hide EndsOk;
      StepKeepsEnds(input, env, After(input, env, n - 1), ConsumedBy(input, env, n - 1));
    }
  }
}
