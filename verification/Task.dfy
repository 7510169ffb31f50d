// The task workflow as the program runs it: variables updated in place, proved to take
// exactly the steps of the machine in TaskMachine, whatever the world answers.
module Task {
  import opened Text
  import opened Domain
  import opened Signals
  import opened Processes
  import opened NextActionActivity
  import opened TaskMachine
  import opened TaskLaws
  import TaskEnds
  import Project

  lemma OneStep(input: TaskInput, env: Env, n: nat)
    ensures After(input, env, n + 1) == Next(input, env, After(input, env, n))
  {
    hide Next;
  }

  class TaskRun {
    const input: TaskInput
    const env: Env

    var clock: nat
    var additionalEvents: seq<Event>
    var observationHistory: seq<Feedback>
    var lastResults: seq<ToolResult>
    var processes: seq<Process>

    // What the run has sent out: NextAction activities, the stored events, results and
    // statuses of next actions, and signals handed to agent children.
    var calls: seq<Request>
    var storedEvents: seq<Event>
    var storedResults: seq<ToolResult>
    var storedActions: seq<ActionStatus>
    var forwarded: seq<TaskSignal>

    ghost var storeFailed: bool
    ghost var phase: Phase
    ghost var steps: nat

    ghost function W(): World
      reads this
    {
      World(clock, additionalEvents, observationHistory, lastResults, processes, calls, storedEvents, storedResults,
            storedActions, forwarded, storeFailed, phase)
    }

    // The variables are what the machine makes of this input and this world.
    ghost predicate Valid()
      reads this
    {
      W() == After(input, env, steps)
    }

    constructor (input: TaskInput, env: Env)
      ensures this.input == input && this.env == env
      ensures Valid() && steps == 0 && phase == Opening
    {
      this.input, this.env := input, env;
      clock, additionalEvents, observationHistory, lastResults, processes := 0, input.additional, [], [], [];
      calls, storedEvents, storedResults, storedActions, forwarded := [], [], [], [], [];
      storeFailed, phase, steps := false, Opening, 0;
    }

    method Store() returns (ok: bool)
      modifies `clock, `storeFailed
      ensures clock == old(clock) + 1 && ok == env.stores(old(clock)) && storeFailed == (old(storeFailed) || !ok)
    {
      ok := env.stores(clock);
      clock := clock + 1;
      storeFailed := storeFailed || !ok;
    }

    method StoreSignals(signals: seq<TaskSignal>) returns (ok: bool)
      modifies `clock, `storedEvents, `storeFailed
      ensures var p := Persist(signals, env.stores, old(clock));
              && ok == p.ok && clock == p.clock && storedEvents == old(storedEvents) + p.events
              && storeFailed == (old(storeFailed) || !ok)
    {
      hide Persist;
      ok, clock, storedEvents := PersistSignals(signals, env.stores, clock, storedEvents);
      storeFailed := storeFailed || !ok;
    }

    method Call(request: Request) returns (r: Option<ActionResult>)
      modifies `clock, `calls
      ensures clock == old(clock) + 1 && calls == old(calls) + [request] && r == AnswerAt(env, old(clock), request)
    {
      hide ActionFor;
      calls := calls + [request];
      var shown;
      r, shown := NextAction(request, env.engine(clock));
      if !env.delivers(clock) {
        r := None;
      }
      clock := clock + 1;
    }

    // ---- the start -------------------------------------------------------------------

    method Begin() returns (exit: Option<Exit>)
      requires Valid() && phase == Opening
      modifies this
      ensures Valid() && steps == old(steps) + 1
      ensures phase == if exit.Some? then Over(exit.value) else Draining(1)
    {
      hide After, AfterOpening;
      OneStep(input, env, steps);
      exit := Open();
      phase := if exit.Some? then Over(exit.value) else Draining(1);
      steps := steps + 1;
    }

    method Open() returns (exit: Option<Exit>)
      modifies `clock, `storedEvents, `storeFailed
      ensures W().(phase := if exit.Some? then Over(exit.value) else Draining(1)) == AfterOpening(input, env, old(W()))
    {
      hide Project.IsResetCommand;
      if Project.IsResetCommand(input.event.body) {
        var done := Store();
        return Some(if done then Finished(ResetDone) else Errored);
      }
      if !input.resumed {
        var ok := Store();
        if !ok {
          return Some(Errored);
        }
        storedEvents := storedEvents + [input.event];
      }
      if input.onboarding {
        var ok := Store();
        if !ok {
          return Some(Errored);
        }
      }
      exit := None;
    }

    // ---- one cycle ---------------------------------------------------------------------

    // Takes the context signals that have arrived and stores them.
    method DrainSignals(ghost cycle: int) returns (ok: bool)
      requires Valid() && phase == Draining(cycle)
      modifies this
      ensures Valid() && steps == old(steps) + 1
      ensures phase == if ok then Calling(cycle) else Failing
    {
      hide After, AfterDraining;
      OneStep(input, env, steps);
      ok := TakeArrivals(cycle);
      phase, steps := if ok then Calling(cycle) else Failing, steps + 1;
    }

    method TakeArrivals(ghost cycle: int) returns (ok: bool)
      modifies `clock, `additionalEvents, `storedEvents, `storeFailed
      ensures W().(phase := if ok then Calling(cycle) else Failing) == AfterDraining(env, old(W()), cycle)
    {
      hide Persist, Added;
      var signals;
      signals, additionalEvents := Drain(env.arrived(clock), ContextSignal, additionalEvents);
      clock := clock + 1;
      ok := StoreSignals(signals);
    }

    // Asks for the next action, and takes over its observations.
    method Ask(cycle: int) returns (next: Option<ActionResult>)
      requires Valid() && phase == Calling(cycle)
      modifies this
      ensures Valid() && steps == old(steps) + 1
      ensures phase == if next.Some? then Answered(cycle, next.value) else Failing
    {
      hide After, AfterCalling;
      OneStep(input, env, steps);
      next := MakeCall(cycle);
      phase, steps := if next.Some? then Answered(cycle, next.value) else Failing, steps + 1;
    }

    method MakeCall(cycle: int) returns (next: Option<ActionResult>)
      modifies `clock, `calls, `observationHistory
      ensures W().(phase := if next.Some? then Answered(cycle, next.value) else Failing)
           == AfterCalling(env, old(W()), cycle)
    {
      hide AnswerAt;
      next := Call(Regular(additionalEvents, lastResults, observationHistory, processes, cycle,
                           cycle == MAX_CYCLES + 1));
      if next.Some? {
        observationHistory := observationHistory + next.value.observations;
      }
    }

    // What follows an answer: the action is stored, then the task ends or tools are run.
    method Follow(next: ActionResult, cycle: int) returns (exit: Option<Exit>)
      requires Valid() && phase == Answered(cycle, next)
      modifies this
      ensures Valid() && steps > old(steps)
      ensures phase == if exit.Some? then Over(exit.value) else NextCycle(cycle)
      ensures exit.None? ==> cycle <= MAX_CYCLES
    {
      hide Valid;
      var ok := NoteAnswer(next, cycle);
      if ok && IsTerminal(next) {
        var e := Conclude(next);
        return Some(e);
      }
      if !ok || cycle > MAX_CYCLES || next.choices == [] || Blank(next.workItemId) {
        var e := CompleteAfterProcessStart();
        return Some(e);
      }
      exit := RunTools(next.choices, next.workItemId, cycle);
    }

    // Stores the action; the results of an answer's tools start afresh.
    method NoteAnswer(next: ActionResult, cycle: int) returns (ok: bool)
      requires Valid() && phase == Answered(cycle, next)
      modifies this
      ensures Valid() && steps == old(steps) + 1 && phase == Noted(next, cycle, ok)
    {
      hide After, AfterAnswer, Noted;
      OneStep(input, env, steps);
      ok := StoreAction(next, cycle);
      phase, steps := Noted(next, cycle, ok), steps + 1;
    }

    static ghost function Noted(next: ActionResult, cycle: int, ok: bool): Phase {
      if !ok then Failing else if IsTerminal(next) then Concluding(next)
      else if cycle > MAX_CYCLES || next.choices == [] || Blank(next.workItemId) then Failing
      else Using(cycle, next.choices, next.workItemId, 0)
    }

    method StoreAction(next: ActionResult, cycle: int) returns (ok: bool)
      modifies `clock, `storeFailed, `storedActions, `lastResults
      ensures W().(phase := Noted(next, cycle, ok)) == AfterAnswer(env, old(W()), cycle, next)
    {
      hide Blank;
      ok := Store();
      if ok {
        storedActions := storedActions + [next.status];
        if !IsTerminal(next) && cycle <= MAX_CYCLES && next.choices != [] && !Blank(next.workItemId) {
          lastResults := [];
        }
      }
    }

    // ---- the tools of one answer ---------------------------------------------------------

    // Every choice is run, in order, unless the run ends or a step is interrupted.
    method RunTools(choices: seq<ToolChoice>, workItemId: string, cycle: int) returns (exit: Option<Exit>)
      requires Valid() && phase == Using(cycle, choices, workItemId, 0)
      modifies this
      ensures Valid() && steps > old(steps)
      ensures phase == if exit.Some? then Over(exit.value) else NextCycle(cycle)
    {
      hide Valid;
      for i := 0 to |choices|
        invariant Valid() && steps >= old(steps) && phase == Using(cycle, choices, workItemId, i)
      {
        var over, interrupted := RunTool(choices, i, workItemId, cycle);
        if over.Some? {
          return over;
        }
        if interrupted {
          return None;
        }
      }
      LeaveTools(cycle);
      exit := None;
    }

    ghost method LeaveTools(cycle: int)
      requires Valid() && phase.Using? && phase.cycle == cycle && phase.index >= |phase.choices|
      modifies `phase, `steps
      ensures Valid() && steps == old(steps) + 1 && phase == NextCycle(cycle)
    {
      hide After;
      OneStep(input, env, steps);
      phase, steps := NextCycle(cycle), steps + 1;
    }

    // One choice: the tool is run and what it started, brought and answered is kept.
    method RunTool(choices: seq<ToolChoice>, i: nat, workItemId: string, cycle: int)
      returns (exit: Option<Exit>, interrupted: bool)
      requires i < |choices| && Valid() && phase == Using(cycle, choices, workItemId, i)
      modifies this
      ensures Valid() && steps > old(steps)
      ensures phase == if exit.Some? then Over(exit.value)
                       else if interrupted then NextCycle(cycle) else Using(cycle, choices, workItemId, i + 1)
    {
      hide Valid;
      var end, ok, stored := RunStep(choices, i, workItemId, cycle);
      if end.Waiting? {
        return Some(StillWaiting(end.signals)), false;
      }
      if ok && end.canceled {
        var e := CompleteIncomplete();
        return Some(e), false;
      }
      if !ok || !stored {
        var e := CompleteAfterProcessStart();
        return Some(e), false;
      }
      exit, interrupted := None, end.interrupted;
    }

    method RunStep(choices: seq<ToolChoice>, i: nat, workItemId: string, cycle: int)
      returns (end: StepEnd, ok: bool, stored: bool)
      requires i < |choices| && Valid() && phase == Using(cycle, choices, workItemId, i)
      modifies this
      ensures Valid() && steps == old(steps) + 1
      ensures phase == if end.Waiting? then Over(StillWaiting(end.signals))
                       else Kept(end, ok, stored, AfterChoice(choices, i, workItemId, cycle, end.interrupted))
    {
      hide After, AfterStep, AfterChoice, Kept;
      OneStep(input, env, steps);
      end, ok, stored := DoStep(choices, i, workItemId, cycle);
      phase := if end.Waiting? then Over(StillWaiting(end.signals))
               else Kept(end, ok, stored, AfterChoice(choices, i, workItemId, cycle, end.interrupted));
      steps := steps + 1;
    }

    static ghost function AfterChoice(choices: seq<ToolChoice>, i: nat, workItemId: string, cycle: int,
          interrupted: bool): Phase
    {
      if interrupted then NextCycle(cycle) else Using(cycle, choices, workItemId, i + 1)
    }

    static ghost function Kept(end: StepEnd, ok: bool, stored: bool, then_: Phase): Phase
      requires end.Ended?
    {
      if !ok then Failing else if end.canceled then Stopping else if !stored then Failing else then_
    }

    method DoStep(choices: seq<ToolChoice>, i: nat, workItemId: string, cycle: int)
      returns (end: StepEnd, ok: bool, stored: bool)
      requires i < |choices|
      modifies `clock, `additionalEvents, `forwarded, `processes, `storedEvents, `storeFailed, `storedResults,
          `lastResults
      ensures W().(phase := if end.Waiting? then Over(StillWaiting(end.signals))
                            else Kept(end, ok, stored, AfterChoice(choices, i, workItemId, cycle, end.interrupted)))
           == AfterStep(env, old(W()), cycle, choices, workItemId, i)
    {
      hide StepFor, TakeStep, Added, MergeAll, Kept, RunsChild;
      end := Execute(choices[i], workItemId, cycle);
      ok, stored := true, true;
      if end.Ended? {
        processes := Merge(true, processes, end.result.processes);
        ok, stored := KeepStep(end, AfterChoice(choices, i, workItemId, cycle, end.interrupted));
      }
    }

    // Stores the signals of a step, then its result.
    method KeepStep(end: StepEnd, ghost then_: Phase) returns (ok: bool, stored: bool)
      requires end.Ended?
      modifies `clock, `storedEvents, `storeFailed, `storedResults, `lastResults
      ensures W().(phase := Kept(end, ok, stored, then_)) == TakeStep(env, old(W()), end, then_)
    {
      hide Persist;
      stored := false;
      ok := StoreSignals(end.signals);
      if !ok || end.canceled {
        return;
      }
      stored := Store();
      if stored {
        storedResults := storedResults + [end.result];
        lastResults := lastResults + [end.result];
      }
    }

    // Runs one tool choice; an agent child is handed every signal consumed meanwhile.
    method Execute(choice: ToolChoice, workItemId: string, cycle: int) returns (end: StepEnd)
      modifies `clock, `additionalEvents, `forwarded
      ensures end == StepFor(env, old(clock), choice, workItemId, cycle) && clock == old(clock) + 1
      ensures additionalEvents == old(additionalEvents) + Added(end.signals)
      ensures forwarded == old(forwarded) + if RunsChild(choice.tool) then end.signals else []
    {
      hide Added, ToolStepEnd, ChildFor, AuthoringFor;
      if choice.tool == "agent" {
        end := ExecuteChild(choice, workItemId, cycle);
      } else if IsAuthoringTool(choice.tool) {
        end := ExecuteAuthoring(choice, workItemId, cycle);
      } else {
        end, additionalEvents :=
          ExecuteToolStep(choice, workItemId, cycle, env.wakeups(clock, choice, cycle), additionalEvents);
      }
      clock := clock + 1;
    }

    method ExecuteChild(choice: ToolChoice, workItemId: string, cycle: int) returns (end: StepEnd)
      modifies `additionalEvents, `forwarded
      ensures end == ChildFor(env, clock, choice, workItemId, cycle)
      ensures additionalEvents == old(additionalEvents) + Added(end.signals)
              && forwarded == old(forwarded) + end.signals
    {
      hide Added, AgentStepEnd;
      var handed;
      end, additionalEvents, handed := ExecuteAgentStep(
        choice, workItemId, cycle, env.childStart(clock), env.wakeups(clock, choice, cycle), additionalEvents);
      forwarded := forwarded + handed;
    }

    method ExecuteAuthoring(choice: ToolChoice, workItemId: string, cycle: int) returns (end: StepEnd)
      modifies `additionalEvents, `forwarded
      ensures end == AuthoringFor(env, clock, choice, workItemId, cycle)
      ensures additionalEvents == old(additionalEvents) + Added(end.signals)
              && forwarded == old(forwarded) + end.signals
    {
      hide ChoiceCallId, FailedExecution, ChildFor, AuthoringResult;
      var plan := env.authoring(clock);
      if plan.Refused? {
        return Ended(FailedExecution(choice, workItemId, cycle, plan.error), false, false, []);
      }
      end := ExecuteChild(plan.choice, workItemId, cycle);
      if end.Waiting? {
        return;
      }
      var result := AuthoringResult(choice, end.result, plan.metadata);
      if result.status == "succeeded" {
        return end.(result := result, canceled := false);
      }
      if !env.cleans(clock) {
        result := CleanupFailed(result);
      }
      end := end.(result := result);
    }

    // ---- ends ------------------------------------------------------------------------------

    // After a call that ended the task onboarding is finalized.
    method Conclude(next: ActionResult) returns (exit: Exit)
      requires Valid() && phase == Concluding(next)
      modifies this
      ensures Valid() && steps > old(steps) && phase == Over(exit)
    {
      hide After, ResultFrom;
      OneStep(input, env, steps);
      var ok := true;
      if input.onboarding {
        ok := Store();
      }
      exit := Finished(ResultFrom(next));
      phase, steps := if ok then Over(exit) else Failing, steps + 1;
      if !ok {
        exit := CompleteAfterProcessStart();
      }
    }

    // After an error: a task that has started processes still asks for their cleanup.
    method CompleteAfterProcessStart() returns (exit: Exit)
      requires Valid() && phase == Failing
      modifies this
      ensures Valid() && steps == old(steps) + 1 && phase == Over(exit)
      ensures calls == old(calls) + if processes == [] then [] else [Completion(processes)]
    {
      hide After, AfterCleanup;
      OneStep(input, env, steps);
      exit := Errored;
      if processes != [] {
        exit := Cleanup();
      }
      phase, steps := Over(exit), steps + 1;
    }

    method CompleteIncomplete() returns (exit: Exit)
      requires Valid() && phase == Stopping
      modifies this
      ensures Valid() && steps == old(steps) + 1 && phase == Over(exit)
      ensures calls == old(calls) + if processes == [] then [] else [Completion(processes)]
    {
      hide After, AfterCleanup;
      OneStep(input, env, steps);
      exit := Finished(Incomplete);
      if processes != [] {
        exit := Cleanup();
      }
      phase, steps := Over(exit), steps + 1;
    }

    method Cleanup() returns (exit: Exit)
      modifies `clock, `calls
      ensures W().(phase := Over(exit)) == AfterCleanup(env, old(W()))
      ensures calls == old(calls) + [Completion(processes)]
    {
      hide AnswerAt, ResultFrom;
      var next := Call(Completion(processes));
      exit := if next.None? then Errored else Finished(ResultFrom(next.value));
    }

    // ---- the run ------------------------------------------------------------------------------

    // The whole run: it ends, and everything it leaves behind is the state of the machine
    // after the steps it took, so the laws of the machine are laws of the run. In particular
    // the context has grown by exactly the signals consumed, all of them are stored unless a
    // store failed, the results stored are those made, every call showed all results made
    // until then, and the processes are those started.
    method Run() returns (exit: Exit)
      requires Valid() && phase == Opening
      modifies this
      ensures Valid() && phase == Over(exit)
      ensures additionalEvents == input.additional + Added(ConsumedBy(input, env, steps))
      ensures SignalsStored(input, W(), ConsumedBy(input, env, steps))
      ensures StoredAreMade(W(), MadeBy(input, env, steps))
      ensures forall k :: 0 <= k < |calls| && calls[k].Regular? ==>
                exists m: nat :: m < steps && ShowsAll(input, env, m, k, calls[k])
      ensures InOrder(calls)
      ensures processes == MergeAll(true, [], StartedBy(input, env, steps))
      ensures !exit.StillWaiting? && processes != [] ==> TaskEnds.Offered(processes, calls)
      ensures exit.Finished? ==>
                TaskEnds.ResultOk(input, env, W(), TaskEnds.CanceledBy(input, env, steps), exit.result)
      ensures exit.Errored? ==> TaskEnds.Failed(env, W())
    {
      hide After, ConsumedBy, MadeBy, StartedBy, SignalsStored, Added, MergeAll, TaskEnds.Offered, ShowsAll, InOrder,
           TaskEnds.ResultOk, TaskEnds.CanceledBy, TaskEnds.Failed;
      exit := RunToEnd();
      ContextIsWhatSignalsAdd(input, env, steps);
      SignalsStoredOnce(input, env, steps);
      ResultsStoredAreMade(input, env, steps);
      EveryCallShows(input, env, steps);
      CallsInOrder(input, env, steps);
      ProcessesAreMerged(input, env, steps);
      TaskEnds.RunsEndForAReason(input, env, steps);
      if !exit.StillWaiting? {
        TaskEnds.ProcessesAreOffered(input, env, steps);
      }
    }

    method RunToEnd() returns (exit: Exit)
      requires Valid() && phase == Opening
      modifies this
      ensures Valid() && phase == Over(exit)
    {
      hide Valid;
      var over := Begin();
      if over.Some? {
        return over.value;
      }
      for cycle := 1 to MAX_CYCLES + 1
        invariant Valid() && phase == if cycle <= MAX_CYCLES then Draining(cycle) else Calling(MAX_CYCLES + 1)
      {
        over := RunCycle(cycle);
        if over.Some? {
          return over.value;
        }
      }
      exit := ForceFinal();
    }

    method RunCycle(cycle: int) returns (exit: Option<Exit>)
      requires Valid() && phase == Draining(cycle) && cycle <= MAX_CYCLES
      modifies this
      ensures Valid() && steps > old(steps)
      ensures phase == if exit.Some? then Over(exit.value) else NextCycle(cycle)
    {
      hide Valid;
      var ok := DrainSignals(cycle);
      if !ok {
        var e := CompleteAfterProcessStart();
        return Some(e);
      }
      var next := Ask(cycle);
      if next.None? {
        var e := CompleteAfterProcessStart();
        return Some(e);
      }
      exit := Follow(next.value, cycle);
    }

    // The call that must end the task when the cycles are used up.
    method ForceFinal() returns (exit: Exit)
      requires Valid() && phase == Calling(MAX_CYCLES + 1)
      modifies this
      ensures Valid() && steps > old(steps) && phase == Over(exit)
    {
      hide Valid;
      var final := Ask(MAX_CYCLES + 1);
      if final.None? {
        exit := CompleteAfterProcessStart();
        return;
      }
      var e := Follow(final.value, MAX_CYCLES + 1);
      exit := e.value;
    }
  }
}
