// The agent child workflow as the program runs it: variables updated in place, proved to
// take exactly the steps of the machine in AgentMachine, whatever the world answers.
module Agent {
  import opened Text
  import opened Domain
  import opened Signals
  import opened Processes
  import opened NextActionActivity
  import opened Compression
  import opened AgentMachine
  import opened AgentLaws
  import AgentResults

  lemma OneStep(input: AgentInput, env: AgentEnv, n: nat)
    ensures After(input, env, n + 1) == Next(input, env, After(input, env, n))
  {
    hide Next;
  }

  class AgentRun {
    const input: AgentInput
    const env: AgentEnv

    var clock: nat
    var additionalEvents: seq<Event>
    var observationHistory: seq<Feedback>
    var runSummary: string
    var lastResults: seq<ToolResult>
    var processes: seq<Process>

    // What the run has sent out.
    var calls: seq<AgentCall>
    var storedEvents: seq<Event>
    var storedResults: seq<ToolResult>

    ghost var storeFailed: bool
    ghost var phase: Phase
    ghost var steps: nat

    ghost function W(): World
      reads this
    {
      World(clock, additionalEvents, observationHistory, runSummary, lastResults, processes, calls, storedEvents,
            storedResults, storeFailed, phase)
    }

    // The variables are what the machine makes of this input and this world.
    ghost predicate Valid()
      reads this
    {
      W() == After(input, env, steps)
    }

    constructor (input: AgentInput, env: AgentEnv)
      ensures this.input == input && this.env == env
      ensures Valid() && steps == 0 && phase == Opening
    {
      this.input, this.env := input, env;
      clock, additionalEvents, observationHistory, lastResults, processes := 0, input.additional, input.observations,
          [], [];
      runSummary := TrimSpace(input.summary);
      calls, storedEvents, storedResults := [], [], [];
      storeFailed, phase, steps := false, Opening, 0;
      new;
      hide TrimSpace;
    }

    // ---- the start of a turn -----------------------------------------------------------

    // Takes the signals that have arrived; an interrupt drops the results of the last turn.
    method BeginTurn(turn: int) returns (exit: Option<AgentExit>)
      requires Valid() && phase == Beginning(turn)
      modifies this
      ensures Valid() && steps == old(steps) + 1
      ensures phase == if exit.Some? then Over(exit.value) else Compressing(turn)
    {
      hide After, AfterBeginning;
      OneStep(input, env, steps);
      exit := TakeSignals(turn);
      phase, steps := if exit.Some? then Over(exit.value) else Compressing(turn), steps + 1;
    }

    method TakeSignals(turn: int) returns (exit: Option<AgentExit>)
      modifies `clock, `additionalEvents, `storedEvents, `storeFailed, `lastResults
      ensures W().(phase := if exit.Some? then Over(exit.value) else Compressing(turn))
              == AfterBeginning(env, old(W()), turn)
    {
      hide Persist, Added, Arrivals;
      var signals, canceled, interrupted := DrainSignals();
      clock := clock + 1;
      var ok := StoreSignals(signals);
      if !ok {
        return Some(Errored);
      }
      if canceled {
        return Some(Returned("canceled", turn - 1, processes));
      }
      if interrupted {
        lastResults := [];
      }
      exit := None;
    }

    // Context events first, then cancels, then interrupts.
    method DrainSignals() returns (signals: seq<TaskSignal>, canceled: bool, interrupted: bool)
      modifies `additionalEvents
      ensures signals == Arrivals(env, clock) && additionalEvents == old(additionalEvents) + Added(signals)
      ensures canceled == (env.cancels(clock) != []) && interrupted == (env.interrupts(clock) != [])
    {
      hide Added, SignalsOf;
      ghost var first := additionalEvents;
      var contexts, cancels, interrupts;
      contexts, additionalEvents := Drain(env.contexts(clock), ContextSignal, additionalEvents);
      cancels, additionalEvents := Drain(env.cancels(clock), CancelSignal, additionalEvents);
      interrupts, additionalEvents := Drain(env.interrupts(clock), InterruptSignal, additionalEvents);
      ThreeAdded(first, contexts, cancels, interrupts);
      signals, canceled, interrupted := contexts + cancels + interrupts, env.cancels(clock) != [],
          env.interrupts(clock) != [];
    }

    // ---- compression ---------------------------------------------------------------------

    method Compress(turn: int) returns (exit: Option<AgentExit>)
      requires Valid() && phase == Compressing(turn)
      modifies this
      ensures Valid() && steps == old(steps) + 1
      ensures phase == if exit.Some? then Over(exit.value) else Calling(turn)
    {
      hide After, AfterCompressing;
      OneStep(input, env, steps);
      exit := TakeSummary(turn);
      phase, steps := if exit.Some? then Over(exit.value) else Calling(turn), steps + 1;
    }

    method TakeSummary(turn: int) returns (exit: Option<AgentExit>)
      modifies `clock, `runSummary, `observationHistory
      ensures W().(phase := if exit.Some? then Over(exit.value) else Calling(turn))
           == AfterCompressing(input, env, old(W()), turn)
    {
      hide CompressAgentObservations, TrimSpace;
      var compressed := CompressAgentObservations(input.limits, runSummary, observationHistory, env.compressor(clock));
      clock := clock + 1;
      if !env.delivers(clock - 1) || compressed.None? {
        return Some(Returned("failed", turn - 1, processes));
      }
      runSummary := TrimSpace(compressed.value.summary);
      observationHistory := compressed.value.remaining;
      exit := None;
    }

    // ---- the call ----------------------------------------------------------------------------

    // Asks for the next action, and takes over its observations and its processes.
    method Ask(turn: int) returns (next: Option<ActionResult>)
      requires Valid() && phase == Calling(turn)
      modifies this
      ensures Valid() && steps == old(steps) + 1
      ensures phase == if next.Some? then Answered(turn, next.value) else Over(Returned("failed", turn - 1, processes))
    {
      hide After, AfterCalling;
      OneStep(input, env, steps);
      next := MakeCall(turn);
      phase := if next.Some? then Answered(turn, next.value) else Over(Returned("failed", turn - 1, processes));
      steps := steps + 1;
    }

    method MakeCall(turn: int) returns (next: Option<ActionResult>)
      modifies `clock, `calls, `observationHistory, `processes
      ensures W().(phase := if next.Some? then Answered(turn, next.value)
              else Over(Returned("failed", turn - 1, processes)))
           == AfterCalling(input, env, old(W()), turn)
    {
      hide ActionFor, MergeAll, Limit;
      var request :=
        Regular(additionalEvents, lastResults, observationHistory, processes, turn, turn > Limit(input));
      calls := calls + [AgentCall(request, runSummary)];
      var shown;
      next, shown := NextAction(request, env.engine(clock));
      if !env.delivers(clock) {
        next := None;
      }
      clock := clock + 1;
      if next.Some? {
        observationHistory := observationHistory + next.value.observations;
        processes := Merge(false, processes, next.value.processes);
      }
    }

    // What follows an answer: the action is stored, then the run ends or tools are run.
    method Follow(next: ActionResult, turn: int) returns (exit: Option<AgentExit>)
      requires Valid() && phase == Answered(turn, next) && input.request.Some?
      modifies this
      ensures Valid() && steps > old(steps)
      ensures phase == if exit.Some? then Over(exit.value) else NextTurn(input, turn)
      ensures exit.None? ==> turn <= Limit(input)
    {
      hide Valid, Limit, NextTurn;
      exit := NoteAnswer(next, turn);
      if exit.Some? {
        return;
      }
      if IsTerminal(next) {
        exit := RunCompletion(input.completionTool.value, turn);
      } else {
        exit := RunTools(next.choices, next.workItemId, turn);
      }
    }

    method NoteAnswer(next: ActionResult, turn: int) returns (exit: Option<AgentExit>)
      requires Valid() && phase == Answered(turn, next)
      modifies this
      ensures Valid() && steps == old(steps) + 1 && phase == Noted(next, turn, exit)
      ensures exit.None? ==> if IsTerminal(next) then input.completionTool.Some? else turn <= Limit(input)
    {
      hide After, AfterAnswer, Noted, Limit;
      OneStep(input, env, steps);
      exit := StoreAction(next, turn);
      phase, steps := Noted(next, turn, exit), steps + 1;
    }

    ghost function Noted(next: ActionResult, turn: int, exit: Option<AgentExit>): Phase {
      if exit.Some? then Over(exit.value)
      else if IsTerminal(next) && input.completionTool.Some? then Completing(turn, input.completionTool.value)
      else Using(turn, next.choices, next.workItemId, 0)
    }

    method StoreAction(next: ActionResult, turn: int) returns (exit: Option<AgentExit>)
      modifies `clock, `storeFailed, `lastResults
      ensures W().(phase := Noted(next, turn, exit)) == AfterAnswer(input, env, old(W()), turn, next)
      ensures exit.None? ==> if IsTerminal(next) then input.completionTool.Some? else turn <= Limit(input)
    {
      hide Blank, Limit;
      var ok := env.stores(clock);
      clock := clock + 1;
      if !ok {
        storeFailed := true;
        return Some(Errored);
      }
      if IsTerminal(next) {
        if next.status == Completed && input.completionTool.Some? {
          return None;
        }
        return Some(Returned(if next.status == Completed then "succeeded" else "failed", turn, processes));
      }
      if turn > Limit(input) || next.choices == [] || Blank(next.workItemId) {
        return Some(Returned("failed", turn, processes));
      }
      lastResults := [];
      exit := None;
    }

    // ---- the tools of one answer ----------------------------------------------------------------

    // Every choice is run, in order, unless the run ends or a step is interrupted.
    method RunTools(choices: seq<ToolChoice>, workItemId: string, turn: int) returns (exit: Option<AgentExit>)
      requires Valid() && phase == Using(turn, choices, workItemId, 0) && input.request.Some?
      modifies this
      ensures Valid() && steps > old(steps)
      ensures phase == if exit.Some? then Over(exit.value) else NextTurn(input, turn)
    {
      hide Valid, NextTurn;
      for i := 0 to |choices|
        invariant Valid() && steps >= old(steps) && phase == Using(turn, choices, workItemId, i)
      {
        var over, interrupted := RunTool(choices, i, workItemId, turn);
        if over.Some? {
          return over;
        }
        if interrupted {
          return None;
        }
      }
      LeaveTools(turn);
      exit := None;
    }

    ghost method LeaveTools(turn: int)
      requires Valid() && phase.Using? && phase.turn == turn && phase.index >= |phase.choices|
      modifies `phase, `steps
      ensures Valid() && steps == old(steps) + 1 && phase == NextTurn(input, turn)
    {
      hide After, NextTurn;
      OneStep(input, env, steps);
      phase, steps := NextTurn(input, turn), steps + 1;
    }

    method RunTool(choices: seq<ToolChoice>, i: nat, workItemId: string, turn: int)
      returns (exit: Option<AgentExit>, interrupted: bool)
      requires i < |choices| && Valid() && phase == Using(turn, choices, workItemId, i) && input.request.Some?
      modifies this
      ensures Valid() && steps == old(steps) + 1
      ensures phase == if exit.Some? then Over(exit.value) else AfterChoice(choices, i, workItemId, turn, interrupted)
    {
      hide After, AfterStep, AfterChoice;
      OneStep(input, env, steps);
      exit, interrupted := DoStep(choices, i, workItemId, turn);
      phase := if exit.Some? then Over(exit.value) else AfterChoice(choices, i, workItemId, turn, interrupted);
      steps := steps + 1;
    }

    ghost function AfterChoice(choices: seq<ToolChoice>, i: nat, workItemId: string, turn: int,
          interrupted: bool): Phase
    {
      if interrupted then NextTurn(input, turn) else Using(turn, choices, workItemId, i + 1)
    }

    // One choice: a tool that is not allowed ends the run; the others are run, and what they
    // started, brought and answered is kept.
    method DoStep(choices: seq<ToolChoice>, i: nat, workItemId: string, turn: int)
      returns (exit: Option<AgentExit>, interrupted: bool)
      requires i < |choices| && input.request.Some?
      modifies `clock, `additionalEvents, `processes, `storedEvents, `storeFailed, `storedResults, `lastResults
      ensures W().(phase := if exit.Some? then Over(exit.value)
              else AfterChoice(choices, i, workItemId, turn, interrupted))
           == AfterStep(input, env, old(W()), turn, choices, workItemId, i)
    {
      hide StepFor, TakeStep, Stepped, AnnotatedChoice, Allowed, NextTurn;
      if !Allowed(choices[i], input.request.value.allowed) {
        return Some(Returned("failed", turn, processes)), false;
      }
      var end := Execute(AnnotatedChoice(choices[i], input.lineage), workItemId, turn);
      if end.Waiting? {
        return Some(StillWaiting(end.signals)), false;
      }
      interrupted := end.interrupted;
      exit := KeepStep(end, turn, AfterChoice(choices, i, workItemId, turn, interrupted));
    }

    method Execute(choice: ToolChoice, workItemId: string, turn: int) returns (end: StepEnd)
      modifies `clock, `additionalEvents, `processes
      ensures end == StepFor(input, env, old(clock), choice, workItemId, turn)
      ensures W() == Stepped(old(W()), end)
    {
      hide Added, ToolStepEnd, MergeAll;
      end, additionalEvents :=
        ExecuteToolStep(choice, workItemId, turn, env.wakeups(clock, choice, turn), additionalEvents);
      clock := clock + 1;
      if end.Ended? {
        processes := Merge(false, processes, end.result.processes);
      }
    }

    // Stores the signals of a step, then its result.
    method KeepStep(end: StepEnd, turn: int, ghost then_: Phase) returns (exit: Option<AgentExit>)
      requires end.Ended?
      modifies `clock, `storedEvents, `storeFailed, `storedResults, `lastResults
      ensures W().(phase := if exit.Some? then Over(exit.value) else then_)
           == TakeStep(input, env, old(W()), end, turn, then_)
    {
      hide Persist, Annotated;
      var ok := StoreSignals(end.signals);
      if !ok {
        exit := Some(Errored);
      } else if end.canceled {
        exit := Some(Returned("canceled", turn, processes));
      } else {
        exit := StoreResult(Annotated(end.result, input.lineage));
      }
    }

    method StoreSignals(signals: seq<TaskSignal>) returns (ok: bool)
      modifies `clock, `storedEvents, `storeFailed
      ensures var (w, p) := (old(W()), Persist(signals, env.stores, old(clock)));
              ok == p.ok && W() == w.(clock := p.clock, storedEvents := w.storedEvents + p.events,
                                      storeFailed := w.storeFailed || !p.ok)
    {
      hide Persist;
      ok, clock, storedEvents := PersistSignals(signals, env.stores, clock, storedEvents);
      storeFailed := storeFailed || !ok;
    }

    method StoreResult(result: ToolResult) returns (exit: Option<AgentExit>)
      modifies `clock, `storeFailed, `storedResults, `lastResults
      ensures var w := old(W());
              && exit == (if env.stores(w.clock) then None else Some(Errored))
              && W() == if env.stores(w.clock)
                        then w.(clock := w.clock + 1, storedResults := w.storedResults + [result],
                             last := w.last + [result])
                        else w.(clock := w.clock + 1, storeFailed := true)
    {
      clock := clock + 1;
      if !env.stores(clock - 1) {
        storeFailed := true;
        return Some(Errored);
      }
      storedResults := storedResults + [result];
      lastResults := lastResults + [result];
      exit := None;
    }

    // ---- the completion tool -----------------------------------------------------------------------

    method RunCompletion(tool: ToolChoice, turn: int) returns (exit: Option<AgentExit>)
      requires Valid() && phase == Completing(turn, tool)
      modifies this
      ensures Valid() && steps == old(steps) + 1
      ensures phase == if exit.Some? then Over(exit.value) else NextTurn(input, turn)
      ensures exit.None? ==> turn <= Limit(input)
    {
      hide After, AfterCompleting, NextTurn, Limit;
      OneStep(input, env, steps);
      exit := Complete(tool, turn);
      phase, steps := if exit.Some? then Over(exit.value) else NextTurn(input, turn), steps + 1;
    }

    method Complete(tool: ToolChoice, turn: int) returns (exit: Option<AgentExit>)
      modifies `clock, `additionalEvents, `processes, `storedEvents, `storeFailed, `storedResults, `lastResults
      ensures W().(phase := if exit.Some? then Over(exit.value) else NextTurn(input, turn))
           == AfterCompleting(input, env, old(W()), turn, tool)
      ensures exit.None? ==> turn <= Limit(input)
    {
      hide StepFor, TakeCompletion, Stepped, CompletionChoice, NextTurn, Limit;
      var end := Execute(CompletionChoice(input, tool, turn), "", turn);
      if end.Waiting? {
        return Some(StillWaiting(end.signals));
      }
      exit := KeepCompletion(end, turn);
    }

    // The result is stored even when the signals could not be; one that did not succeed
    // waits for the next turn.
    method KeepCompletion(end: StepEnd, turn: int) returns (exit: Option<AgentExit>)
      requires end.Ended?
      modifies `clock, `storedEvents, `storeFailed, `storedResults, `lastResults
      ensures W().(phase := if exit.Some? then Over(exit.value) else NextTurn(input, turn))
           == TakeCompletion(input, env, old(W()), end, turn)
      ensures exit.None? ==> turn <= Limit(input)
    {
      hide Persist, Annotated, NextTurn, Limit;
      var signalsOk := StoreSignals(end.signals);
      var result := Annotated(end.result, input.lineage);
      var stored := StoreTrace(result);
      exit := AfterCompletion(result.status, signalsOk && stored, end.canceled, turn);
      if exit.None? {
        lastResults := [result];
      }
    }

    // How a run goes on after its completion tool.
    function AfterCompletion(status: string, stored: bool, canceled: bool, turn: int): Option<AgentExit>
      reads `processes
    {
      if status == "succeeded" then Some(Returned("succeeded", turn, processes))
      else if !stored then Some(Errored)
      else if canceled then Some(Returned("canceled", turn, processes))
      else if turn > Limit(input) then Some(Returned("failed", turn, processes))
      else None
    }

    method StoreTrace(result: ToolResult) returns (ok: bool)
      modifies `clock, `storeFailed, `storedResults
      ensures var w := old(W());
              && ok == env.stores(w.clock)
              && W() == w.(clock := w.clock + 1, storeFailed := w.storeFailed || !ok,
                           storedResults := if ok then w.storedResults + [result] else w.storedResults)
    {
      ok := env.stores(clock);
      clock, storeFailed := clock + 1, storeFailed || !ok;
      if ok {
        storedResults := storedResults + [result];
      }
    }

    // ---- the run ------------------------------------------------------------------------------------

    // The whole run: it ends, and everything it leaves behind is the state of the machine
    // after the steps it took, so the laws of the machine are laws of the run. In particular
    // nothing observed is lost, the context has grown by exactly the signals consumed, all
    // of them are stored unless a store failed, and so are the results made, each of which
    // was shown by a call, waited, or was dropped by an interrupt.
    method Run() returns (exit: AgentExit)
      requires Valid() && phase == Opening
      modifies this
      ensures Valid() && phase == Over(exit)
      ensures Conserved(input.observations, SummarisedBy(input, env, steps), observationHistory,
              AbsorbedBy(input, env, steps))
      ensures additionalEvents == input.additional + Added(ConsumedBy(input, env, steps))
      ensures SignalsStored(W(), ConsumedBy(input, env, steps))
      ensures processes == MergeAll(false, [], StartedBy(input, env, steps))
      ensures StoredAreMade(W(), MadeBy(input, env, steps))
      ensures AgentResults.ResultsBalanced(W(), AbsorbedBy(input, env, steps), DroppedBy(input, env, steps))
      ensures forall k :: 0 <= k < |calls| ==> AgentResults.AccountsBefore(input, env, steps, k, calls[k])
      ensures AgentResults.CallsSoFar(input, phase, calls)
    {
      hide After, ConsumedBy, SummarisedBy, AbsorbedBy, StartedBy, SignalsStored, Conserved, Added, MergeAll,
           MadeBy, DroppedBy, AgentResults.ResultsBalanced, AgentResults.AccountsBefore, AgentResults.CallsSoFar;
      exit := RunToEnd();
      ResultsStoredAreMade(input, env, steps);
      AgentResults.ResultsAccounted(input, env, steps);
      AgentResults.CallsAccount(input, env, steps);
      ObservationsConserved(input, env, steps);
      ContextIsWhatSignalsAdd(input, env, steps);
      SignalsStoredOnce(input, env, steps);
      ProcessesAreMerged(input, env, steps);
      AgentResults.CallsInOrder(input, env, steps);
    }

    method RunToEnd() returns (exit: AgentExit)
      requires Valid() && phase == Opening
      modifies this
      ensures Valid() && phase == Over(exit)
    {
      hide Valid, Limit, NextTurn;
      var over := Begin();
      if over.Some? {
        return over.value;
      }
      var turns := Limit(input);
      for turn := 1 to turns + 1
        invariant Valid() && phase == if turn <= turns then Beginning(turn) else Calling(turns + 1)
      {
        over := RunTurn(turn);
        if over.Some? {
          return over.value;
        }
        NextIs(input, turn);
      }
      exit := ForceFinal(turns);
    }

    method Begin() returns (exit: Option<AgentExit>)
      requires Valid() && phase == Opening
      modifies this
      ensures Valid() && steps == old(steps) + 1
      ensures phase == if exit.Some? then Over(exit.value) else Beginning(1)
      ensures exit.None? ==> input.request.Some? && Limit(input) >= 1
    {
      hide After;
      OneStep(input, env, steps);
      exit := if input.request.Some? then None else Some(Returned("failed", 0, processes));
      phase, steps := if exit.Some? then Over(exit.value) else Beginning(1), steps + 1;
    }

    method RunTurn(turn: int) returns (exit: Option<AgentExit>)
      requires Valid() && phase == Beginning(turn) && input.request.Some?
      modifies this
      ensures Valid() && steps > old(steps)
      ensures phase == if exit.Some? then Over(exit.value) else NextTurn(input, turn)
    {
      hide Valid, NextTurn, Limit;
      exit := BeginTurn(turn);
      if exit.Some? {
        return;
      }
      exit := Compress(turn);
      if exit.Some? {
        return;
      }
      var next := Ask(turn);
      if next.None? {
        return Some(Returned("failed", turn - 1, processes));
      }
      exit := Follow(next.value, turn);
    }

    // The call after the last turn, made without compressing first.
    method ForceFinal(turns: nat) returns (exit: AgentExit)
      requires Valid() && phase == Calling(turns + 1) && turns == Limit(input) && input.request.Some?
      modifies this
      ensures Valid() && steps > old(steps) && phase == Over(exit)
    {
      hide Valid, NextTurn, Limit;
      var final := Ask(turns + 1);
      if final.None? {
        return Returned("failed", turns, processes);
      }
      var e := Follow(final.value, turns + 1);
      exit := e.value;
    }
  }

  lemma NextIs(input: AgentInput, turn: int)
    ensures turn < Limit(input) ==> NextTurn(input, turn) == Beginning(turn + 1)
    ensures turn >= Limit(input) ==> NextTurn(input, turn) == Calling(Limit(input) + 1)
  {
    hide Limit;
  }

  lemma ThreeAdded(base: seq<Event>, a: seq<TaskSignal>, b: seq<TaskSignal>, c: seq<TaskSignal>)
    ensures base + Added(a) + Added(b) + Added(c) == base + Added(a + b + c)
  {
    hide Added;
    AddedConcat(a, b);
    AddedConcat(a + b, c);
    assert base + Added(a) + Added(b) + Added(c) == base + (Added(a) + Added(b) + Added(c));
  }
}
