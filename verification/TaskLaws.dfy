// What holds after any number of steps of any task run.
module TaskLaws {
  import opened Text
  import opened Domain
  import opened Signals
  import opened Processes
  import opened NextActionActivity
  import opened TaskMachine
  import Project

  // ---- what a run has met, told from the world alone ------------------------------------

  // The step the run takes next in this state, when that is running a tool.
  function StepIn(env: Env, w: World): Option<StepEnd> {
    match w.phase
    case Using(cycle, choices, workItemId, i) =>
      if i < |choices| then Some(StepFor(env, w.clock, choices[i], workItemId, cycle)) else None
    case _ => None
  }

  // The signals that the next step consumes, the processes it reports, the result it makes.
  function SignalsTaken(env: Env, w: World): seq<TaskSignal> {
    if w.phase.Draining? then Arrivals(env, w.clock)
    else if StepIn(env, w).Some? then StepIn(env, w).value.signals
    else []
  }

  function ProcessesStarted(env: Env, w: World): seq<Process> {
    var step := StepIn(env, w);
    if step.Some? && step.value.Ended? then step.value.result.processes else []
  }

  predicate StepCancels(env: Env, w: World) {
    var step := StepIn(env, w);
    step.Some? && step.value.Ended? && step.value.canceled
  }

  function ResultMade(env: Env, w: World): seq<ToolResult> {
    var step := StepIn(env, w);
    if step.Some? && step.value.Ended? && !step.value.canceled then [step.value.result] else []
  }

  // All of them over the first n steps, in order.
  function ConsumedBy(input: TaskInput, env: Env, n: nat): seq<TaskSignal> {
    if n == 0 then [] else ConsumedBy(input, env, n - 1) + SignalsTaken(env, After(input, env, n - 1))
  }

  function StartedBy(input: TaskInput, env: Env, n: nat): seq<Process> {
    if n == 0 then [] else StartedBy(input, env, n - 1) + ProcessesStarted(env, After(input, env, n - 1))
  }

  function MadeBy(input: TaskInput, env: Env, n: nat): seq<ToolResult> {
    if n == 0 then [] else MadeBy(input, env, n - 1) + ResultMade(env, After(input, env, n - 1))
  }

  // ---- context events --------------------------------------------------------------------

  lemma StepAddsSignals(input: TaskInput, env: Env, w: World)
    ensures Next(input, env, w).additional == w.additional + Added(SignalsTaken(env, w))
  {
    hide Persist, StepFor, Arrivals, MergeAll, Project.IsResetCommand, AnswerAt, IsTerminal, ResultFrom, RunsChild,
         Blank;
    EmptyStored();
    assert w.additional + [] == w.additional;
  }

  // The context is what the run began with and, in order, what each consumed signal adds.
  lemma {:induction false} ContextIsWhatSignalsAdd(input: TaskInput, env: Env, n: nat)
    ensures After(input, env, n).additional == input.additional + Added(ConsumedBy(input, env, n))
  {
    hide Next, SignalsTaken, Added;
    if n == 0 {
      EmptyStored();
    } else {
      var w := After(input, env, n - 1);
      ContextIsWhatSignalsAdd(input, env, n - 1);
      StepAddsSignals(input, env, w);
      ContextGrows(input.additional, w.additional, ConsumedBy(input, env, n - 1), SignalsTaken(env, w));
    }
  }

  // ---- stored signals ----------------------------------------------------------------------

  function FirstStored(input: TaskInput): seq<Event> {
    if input.resumed || Project.IsResetCommand(input.event.body) then [] else [input.event]
  }

  predicate Ending(phase: Phase) {
    phase.Failing? || phase.Stopping? || phase.Over?
  }

  // Every consumed signal is stored, but for a failed store, which ends the run, and for
  // the signals of a step that still waits.
  predicate SignalsStored(input: TaskInput, w: World, consumed: seq<TaskSignal>) {
    && (w.storeFailed ==> w.phase.Failing? || w.phase.Over?)
    && match w.phase
       case Opening => w.storedEvents == [] && consumed == [] && !w.storeFailed
       case Over(StillWaiting(signals)) =>
         !w.storeFailed && StoredOk(FirstStored(input), w.storedEvents + StoredAll(signals), consumed)
       case _ => StoredSoFar(FirstStored(input), w.storedEvents, consumed, w.storeFailed)
  }

  lemma PersistKeeps(first: seq<Event>, stored: seq<Event>, consumed: seq<TaskSignal>, more: seq<TaskSignal>,
        stores: nat -> bool, clock: nat)
    requires StoredOk(first, stored, consumed)
    ensures var p := Persist(more, stores, clock); StoredSoFar(first, stored + p.events, consumed + more, !p.ok)
  {
    hide Persist, StoredAll;
    PersistStores(more, stores, clock);
    StoredGrows(first, stored, consumed, more);
  }

  lemma NothingMore(first: seq<Event>, stored: seq<Event>, consumed: seq<TaskSignal>)
    ensures consumed + [] == consumed && StoredAll([]) == []
    ensures StoredOk(first, stored, consumed) ==> forall failed :: StoredSoFar(first, stored, consumed, failed)
    ensures StoredSoFar(first, stored, consumed, false) ==> StoredOk(first, stored, consumed)
  {
  }

  lemma OpeningStores(input: TaskInput, env: Env, w: World)
    requires w.phase.Opening? && SignalsStored(input, w, [])
    ensures SignalsStored(input, AfterOpening(input, env, w), [])
  {
    hide Project.IsResetCommand;
    EmptyStored();
  }

  lemma DrainingStores(input: TaskInput, env: Env, w: World, consumed: seq<TaskSignal>)
    requires w.phase.Draining? && SignalsStored(input, w, consumed)
    ensures SignalsStored(input, AfterDraining(env, w, w.phase.cycle), consumed + Arrivals(env, w.clock))
  {
    hide Arrivals, StoredOk, StoredSoFar, Persist, Added, FirstStored;
    NothingMore(FirstStored(input), w.storedEvents, consumed);
    PersistKeeps(FirstStored(input), w.storedEvents, consumed, Arrivals(env, w.clock), env.stores, w.clock + 1);
  }

  lemma StepStores(input: TaskInput, env: Env, w: World, consumed: seq<TaskSignal>)
    requires SignalsStored(input, w, consumed) && w.phase.Using? && w.phase.index < |w.phase.choices|
    ensures var p := w.phase; SignalsStored(input, AfterStep(env, w, p.cycle, p.choices, p.workItemId, p.index),
                                            consumed + StepIn(env, w).value.signals)
  {
    hide StoredOk, StoredSoFar, Persist, Added, StoredAll, FirstStored, StepFor, MergeAll, RunsChild;
    var first, signals := FirstStored(input), StepIn(env, w).value.signals;
    NothingMore(first, w.storedEvents, consumed);
    PersistKeeps(first, w.storedEvents, consumed, signals, env.stores, w.clock + 1);
    StoredGrows(first, w.storedEvents, consumed, signals);
    var p := Persist(signals, env.stores, w.clock + 1);
    NothingMore(first, w.storedEvents + p.events, consumed + signals);
  }

  lemma OtherStepsStore(input: TaskInput, env: Env, w: World, consumed: seq<TaskSignal>)
    requires SignalsStored(input, w, consumed) && !w.phase.Opening? && !w.phase.Draining? && StepIn(env, w).None?
    ensures SignalsStored(input, Next(input, env, w), consumed)
  {
    hide StoredOk, StoredSoFar, StoredAll, FirstStored, AnswerAt, ResultFrom, IsTerminal, Blank;
    NothingMore(FirstStored(input), w.storedEvents, consumed);
  }

  // In every state of every run the stored events are the task's own event and, in order,
  // one event for each consumed signal that has an id.
  lemma {:induction false} SignalsStoredOnce(input: TaskInput, env: Env, n: nat)
    ensures SignalsStored(input, After(input, env, n), ConsumedBy(input, env, n))
  {
    hide Next, SignalsTaken, SignalsStored, AfterOpening, AfterDraining, AfterStep, Arrivals, StepFor;
    if n == 0 {
      StartStores(input);
    } else {
      SignalsStoredOnce(input, env, n - 1);
      StepKeepsStored(input, env, After(input, env, n - 1), ConsumedBy(input, env, n - 1));
    }
  }

  lemma StartStores(input: TaskInput)
    ensures SignalsStored(input, Start(input), [])
  {
  }

  lemma StepKeepsStored(input: TaskInput, env: Env, w: World, consumed: seq<TaskSignal>)
    requires SignalsStored(input, w, consumed)
    ensures SignalsStored(input, Next(input, env, w), consumed + SignalsTaken(env, w))
  {
    assert w.phase.Opening? ==> consumed == [];
    hide SignalsStored, AfterOpening, AfterDraining, AfterStep, Arrivals, StepFor, AfterCalling, AfterAnswer,
         AfterConcluding, AfterCleanup;
    assert consumed + [] == consumed;
    if w.phase.Opening? {
      OpeningStores(input, env, w);
    } else if w.phase.Draining? {
      DrainingStores(input, env, w, consumed);
    } else if StepIn(env, w).Some? {
      StepStores(input, env, w, consumed);
    } else {
      OtherStepsStore(input, env, w, consumed);
    }
  }

  // A run whose stores all work stores everything it consumes.
  lemma {:induction false} FailureIsOfAStore(input: TaskInput, env: Env, n: nat)
    ensures var w := After(input, env, n); w.storeFailed ==> exists t: nat :: t < w.clock && !env.stores(t)
    ensures n > 0 ==> After(input, env, n - 1).clock <= After(input, env, n).clock
  {
    hide Next;
    if n > 0 {
      FailureIsOfAStore(input, env, n - 1);
      StepFailure(input, env, After(input, env, n - 1));
    }
  }

  predicate FailedIn(env: Env, w: World, v: World) {
    w.clock <= v.clock && (v.storeFailed ==> w.storeFailed || exists t: nat :: t < v.clock && !env.stores(t))
  }

  lemma SignalsFailure(env: Env, signals: seq<TaskSignal>, clock: nat)
    ensures var p := Persist(signals, env.stores, clock);
            clock <= p.clock && (!p.ok ==> exists t: nat :: t < p.clock && !env.stores(t))
  {
    hide Persist, StoredAll;
    PersistStores(signals, env.stores, clock);
    var p := Persist(signals, env.stores, clock);
    assert !p.ok ==> !env.stores(p.clock - 1);
  }

  lemma ToolFailure(env: Env, w: World)
    requires w.phase.Using? && w.phase.index < |w.phase.choices|
    ensures var p := w.phase; FailedIn(env, w, AfterStep(env, w, p.cycle, p.choices, p.workItemId, p.index))
  {
    hide Persist, StepFor, MergeAll, RunsChild, Added;
    SignalsFailure(env, StepIn(env, w).value.signals, w.clock + 1);
  }

  lemma StepFailure(input: TaskInput, env: Env, w: World)
    ensures FailedIn(env, w, Next(input, env, w))
  {
    hide Persist, StepFor, Arrivals, Project.IsResetCommand, AnswerAt, IsTerminal, ResultFrom, Blank, Added, AfterStep;
    if w.phase.Draining? {
      SignalsFailure(env, Arrivals(env, w.clock), w.clock + 1);
    } else if StepIn(env, w).Some? {
      ToolFailure(env, w);
    }
  }

  // ---- results --------------------------------------------------------------------------------

  predicate ResultsOk(history: seq<Feedback>, last: seq<ToolResult>, stored: seq<ToolResult>) {
    && |history| <= |stored| && last == stored[|history|..]
    && history == FeedbackAll(stored[..|history|])
  }

  lemma ShownAreStored(history: seq<Feedback>, last: seq<ToolResult>, stored: seq<ToolResult>)
    requires ResultsOk(history, last, stored)
    ensures AllTold(history, stored[..|history|])
    ensures history + FeedbackAll(last) == FeedbackAll(stored)
  {
    FeedbackTells(stored[..|history|]);
    FeedbackConcat(stored[..|history|], last);
    assert stored == stored[..|history|] + last;
    hide FeedbackAll, AllTold;
  }

  // What the next call will show, history and last results, is every stored result once,
  // in order; after an answer the history alone is.
  predicate ResultsShown(w: World) {
    match w.phase
    case Opening => w.history == [] && w.last == [] && w.storedResults == []
    case Draining(_) => ResultsOk(w.history, w.last, w.storedResults)
    case Calling(_) => ResultsOk(w.history, w.last, w.storedResults)
    case Using(_, _, _, _) => ResultsOk(w.history, w.last, w.storedResults)
    case Answered(_, _) => ResultsOk(w.history, [], w.storedResults)
    case _ => true
  }

  lemma MoreResults(history: seq<Feedback>, last: seq<ToolResult>, stored: seq<ToolResult>, r: ToolResult)
    requires ResultsOk(history, last, stored)
    ensures ResultsOk(history, last + [r], stored + [r])
  {
    hide FeedbackAll;
    assert (stored + [r])[..|history|] == stored[..|history|];
  }

  lemma AbsorbedResults(history: seq<Feedback>, last: seq<ToolResult>, stored: seq<ToolResult>)
    requires ResultsOk(history, last, stored)
    ensures ResultsOk(history + FeedbackAll(last), [], stored)
  {
    ShownAreStored(history, last, stored);
    assert stored[..|stored|] == stored && stored[|stored|..] == [];
  }

  lemma AnswerShows(env: Env, t: nat, request: Request)
    requires AnswerAt(env, t, request).Some?
    ensures Answers(request, env.engine(t), AnswerAt(env, t, request).value)
  {
    hide ActionFor, Answers;
    AnswersKeep(request, env.engine(t));
  }

  lemma CallingShows(env: Env, w: World, cycle: int)
    requires w.phase == Calling(cycle) && ResultsShown(w)
    ensures ResultsShown(AfterCalling(env, w, cycle))
  {
    hide ResultsOk, AnswerAt, FeedbackAll, CleanedAll, PreparedAll, AnyRefused;
    var r := AnswerAt(env, w.clock, RequestOf(w, cycle));
    if r.Some? {
      AnswerShows(env, w.clock, RequestOf(w, cycle));
      AbsorbedResults(w.history, w.last, w.storedResults);
    }
  }

  lemma StepShows(env: Env, w: World)
    requires w.phase.Using? && w.phase.index < |w.phase.choices| && ResultsShown(w)
    ensures var p := w.phase; ResultsShown(AfterStep(env, w, p.cycle, p.choices, p.workItemId, p.index))
  {
    hide ResultsOk, StepFor, Persist, MergeAll, RunsChild, Added;
    if StepIn(env, w).value.Ended? {
      MoreResults(w.history, w.last, w.storedResults, StepIn(env, w).value.result);
    }
  }

  lemma NothingShown()
    ensures ResultsOk([], [], [])
  {
  }

  lemma OtherStepsShow(input: TaskInput, env: Env, w: World)
    requires ResultsShown(w) && !w.phase.Calling? && StepIn(env, w).None?
    ensures ResultsShown(Next(input, env, w))
  {
    hide ResultsOk, Persist, Arrivals, Project.IsResetCommand, AnswerAt, ResultFrom, IsTerminal, Blank, Added, StepFor,
         AfterStep;
    NothingShown();
  }

  lemma StepKeepsShown(input: TaskInput, env: Env, w: World)
    requires ResultsShown(w)
    ensures ResultsShown(Next(input, env, w))
  {
    hide ResultsShown, AfterCalling, AfterStep, AfterOpening, AfterDraining, AfterAnswer, AfterConcluding,
         AfterCleanup, StepFor;
    if w.phase.Calling? {
      CallingShows(env, w, w.phase.cycle);
    } else if StepIn(env, w).Some? {
      StepShows(env, w);
    } else {
      OtherStepsShow(input, env, w);
    }
  }

  lemma {:induction false} ResultsAreShown(input: TaskInput, env: Env, n: nat)
    ensures ResultsShown(After(input, env, n))
  {
    hide Next;
    if n > 0 {
      ResultsAreShown(input, env, n - 1);
      hide ResultsShown;
      StepKeepsShown(input, env, After(input, env, n - 1));
    }
  }

  // Stored results only grow, by the result of a step that was not canceled.
  lemma StepStoresResult(input: TaskInput, env: Env, w: World)
    ensures var v := Next(input, env, w);
            && (v.storedResults == w.storedResults || v.storedResults == w.storedResults + ResultMade(env, w))
            && (!v.storeFailed ==> v.storedResults == w.storedResults + ResultMade(env, w) && !w.storeFailed)
  {
    hide Persist, StepFor, Arrivals, MergeAll, Project.IsResetCommand, AnswerAt, IsTerminal, ResultFrom, RunsChild,
         Blank, Added;
    assert w.storedResults + [] == w.storedResults;
  }

  // Without a failed store the stored results are exactly the results made, in order; a
  // failed store leaves a first part.
  predicate StoredAreMade(w: World, made: seq<ToolResult>) {
    w.storedResults <= made && (!w.storeFailed ==> w.storedResults == made)
  }

  lemma {:induction false} ResultsStoredAreMade(input: TaskInput, env: Env, n: nat)
    ensures StoredAreMade(After(input, env, n), MadeBy(input, env, n))
  {
    hide Next, ResultMade, SignalsStored, ConsumedBy;
    if n > 0 {
      ResultsStoredAreMade(input, env, n - 1);
      SignalsStoredOnce(input, env, n - 1);
      hide StoredAreMade;
      StepStoresMade(input, env, After(input, env, n - 1), MadeBy(input, env, n - 1), ConsumedBy(input, env, n - 1));
    }
  }

  lemma StepStoresMade(input: TaskInput, env: Env, w: World, made: seq<ToolResult>, consumed: seq<TaskSignal>)
    requires StoredAreMade(w, made) && SignalsStored(input, w, consumed)
    ensures StoredAreMade(Next(input, env, w), made + ResultMade(env, w))
  {
    StepStoresResult(input, env, w);
    FailedMakesNothing(input, env, w, consumed);
    hide Next, ResultMade, SignalsStored;
    PartGrows(w.storedResults, made, ResultMade(env, w));
  }

  lemma PartGrows(part: seq<ToolResult>, all: seq<ToolResult>, more: seq<ToolResult>)
    requires part <= all
    ensures part <= all + more && (part == all || more == [] ==> part + more <= all + more)
  {
  }

  lemma FailedMakesNothing(input: TaskInput, env: Env, w: World, consumed: seq<TaskSignal>)
    requires SignalsStored(input, w, consumed)
    ensures w.storeFailed ==> ResultMade(env, w) == []
  {
    hide StoredOk, StoredSoFar;
  }

  lemma {:induction false} StoredResultsGrow(input: TaskInput, env: Env, m: nat, n: nat)
    requires m <= n
    ensures After(input, env, m).storedResults <= After(input, env, n).storedResults
  {
    hide Next, ResultMade;
    if m < n {
      StoredResultsGrow(input, env, m, n - 1);
      StepStoresResult(input, env, After(input, env, n - 1));
      ResultPrefixes(After(input, env, m).storedResults, After(input, env, n - 1).storedResults,
                     After(input, env, n).storedResults);
    }
  }

  lemma ResultPrefixes(a: seq<ToolResult>, b: seq<ToolResult>, c: seq<ToolResult>)
    ensures a <= b <= c ==> a <= c
  {
  }

  // ---- calls --------------------------------------------------------------------------------------

  // The only step that makes a regular call is the one that asks for the next action, and
  // what it shows is all the results stored.
  lemma StepCalls(input: TaskInput, env: Env, w: World)
    ensures var v := Next(input, env, w);
            match w.phase
            case Calling(cycle) => v.calls == w.calls + [RequestOf(w, cycle)]
            case Failing => v.calls == w.calls || v.calls == w.calls + [Completion(w.processes)]
            case Stopping => v.calls == w.calls || v.calls == w.calls + [Completion(w.processes)]
            case _ => v.calls == w.calls
  {
    hide Persist, StepFor, Arrivals, MergeAll, Project.IsResetCommand, AnswerAt, IsTerminal, ResultFrom, RunsChild,
         Blank, Added;
  }

  lemma {:induction false} CallWasMade(input: TaskInput, env: Env, n: nat, k: nat) returns (m: nat)
    requires k < |After(input, env, n).calls| && After(input, env, n).calls[k].Regular?
    ensures m < n && After(input, env, m).phase.Calling? && |After(input, env, m).calls| == k
    ensures After(input, env, n).calls[k] == RequestOf(After(input, env, m), After(input, env, m).phase.cycle)
  {
    hide Next, RequestOf;
    var w := After(input, env, n - 1);
    StepCalls(input, env, w);
    RequestIsRegular(w);
    if k < |w.calls| {
      m := CallWasMade(input, env, n - 1, k);
    } else {
      m := n - 1;
    }
  }

  lemma RequestIsRegular(w: World)
    ensures w.phase.Calling? ==>
              var r := RequestOf(w, w.phase.cycle);
              r.Regular? && r.cycle == w.phase.cycle && (r.forceFinal <==> w.phase.cycle == MAX_CYCLES + 1)
  {
  }

  // The law of the task loop: every call for a next action that any run ever makes shows,
  // as history followed by the feedback of the last results, the feedback of all results
  // stored when it was made, once and in order; and those are all the results made so far.
  lemma EveryCallShowsEveryResult(input: TaskInput, env: Env, n: nat, k: nat) returns (m: nat)
    requires k < |After(input, env, n).calls| && After(input, env, n).calls[k].Regular?
    ensures m < n && |After(input, env, m).calls| == k
    ensures var (call, stored) := (After(input, env, n).calls[k], After(input, env, m).storedResults);
            && |call.history| <= |stored| && AllTold(call.history, stored[..|call.history|])
            && call.lastResults == stored[|call.history|..]
            && call.history + FeedbackAll(call.lastResults) == FeedbackAll(stored)
            && stored == MadeBy(input, env, m) && stored <= After(input, env, n).storedResults
  {
    hide Next, After, MadeBy, FeedbackAll, AllTold;
    m := CallWasMade(input, env, n, k);
    ResultsAreShown(input, env, m);
    var (call, stored) := (After(input, env, n).calls[k], After(input, env, m).storedResults);
    ShownAreStored(call.history, call.lastResults, stored);
    ResultsStoredAreMade(input, env, m);
    StoredResultsGrow(input, env, m, n);
    SignalsStoredOnce(input, env, m);
  }

  // A call made after m steps that shows every result made by then.
  ghost predicate ShowsAll(input: TaskInput, env: Env, m: nat, k: nat, call: Request) {
    && call.Regular? && |After(input, env, m).calls| == k
    && var stored := After(input, env, m).storedResults;
       && |call.history| <= |stored| && AllTold(call.history, stored[..|call.history|])
       && call.lastResults == stored[|call.history|..]
       && stored == MadeBy(input, env, m)
  }

  lemma EveryCallShows(input: TaskInput, env: Env, n: nat)
    ensures var calls := After(input, env, n).calls;
            forall k :: 0 <= k < |calls| && calls[k].Regular? ==>
              exists m: nat :: m < n && ShowsAll(input, env, m, k, calls[k])
  {
    hide Next, After, MadeBy, FeedbackAll, AllTold;
    var calls := After(input, env, n).calls;
    forall k | 0 <= k < |calls| && calls[k].Regular?
      ensures exists m: nat :: m < n && ShowsAll(input, env, m, k, calls[k])
    {
      var m := EveryCallShowsEveryResult(input, env, n, k);
      assert ShowsAll(input, env, m, k, calls[k]);
    }
  }

  // The calls of the first n cycles.
  predicate Cycles(calls: seq<Request>, n: int) {
    |calls| == n && forall k :: 0 <= k < n ==>
      calls[k].Regular? && calls[k].cycle == k + 1 && (calls[k].forceFinal <==> k == MAX_CYCLES)
  }

  // One call a cycle, the forced one after the last, and a cleanup call only at the end.
  predicate InOrder(calls: seq<Request>) {
    var n := if calls != [] && calls[|calls| - 1].Completion? then |calls| - 1 else |calls|;
    n <= MAX_CYCLES + 1 && Cycles(calls[..n], n)
  }

  predicate CallsSoFar(phase: Phase, calls: seq<Request>) {
    match phase
    case Opening => calls == []
    case Draining(cycle) => 1 <= cycle <= MAX_CYCLES && Cycles(calls, cycle - 1)
    case Calling(cycle) => 1 <= cycle <= MAX_CYCLES + 1 && Cycles(calls, cycle - 1)
    case Answered(cycle, _) => 1 <= cycle <= MAX_CYCLES + 1 && Cycles(calls, cycle)
    case Using(cycle, _, _, _) => 1 <= cycle <= MAX_CYCLES && Cycles(calls, cycle)
    case Over(_) => InOrder(calls)
    case _ => |calls| <= MAX_CYCLES + 1 && Cycles(calls, |calls|)
  }

  lemma CleanupInOrder(calls: seq<Request>, processes: seq<Process>)
    requires |calls| <= MAX_CYCLES + 1 && Cycles(calls, |calls|)
    ensures InOrder(calls) && InOrder(calls + [Completion(processes)])
  {
    assert calls[..|calls|] == calls && (calls + [Completion(processes)])[..|calls|] == calls;
  }

  // Which phase may follow which.
  predicate Leads(from: Phase, to: Phase) {
    match from
    case Opening => to == Draining(1) || to.Over?
    case Draining(cycle) => to == Calling(cycle) || to.Failing?
    case Calling(cycle) => (to.Answered? && to.cycle == cycle) || to.Failing?
    case Answered(cycle, next) =>
      (to == Concluding(next) && IsTerminal(next)) || to.Failing? || (to.Using? && to.cycle == cycle <= MAX_CYCLES)
    case Using(cycle, _, _, _) =>
      to == NextCycle(cycle) || (to.Using? && to.cycle == cycle) || to.Failing? || to.Stopping? || to.Over?
    case Concluding(_) => to.Over? || to.Failing?
    case _ => to.Over?
  }

  lemma StepLeads(input: TaskInput, env: Env, w: World)
    ensures Leads(w.phase, Next(input, env, w).phase)
  {
    hide Persist, StepFor, Arrivals, MergeAll, Project.IsResetCommand, AnswerAt, IsTerminal, ResultFrom, RunsChild,
         Blank, Added;
  }

  lemma StepKeepsCalls(input: TaskInput, env: Env, w: World)
    requires CallsSoFar(w.phase, w.calls)
    ensures CallsSoFar(Next(input, env, w).phase, Next(input, env, w).calls)
  {
    StepCalls(input, env, w);
    StepLeads(input, env, w);
    assert w.phase.Over? ==> Next(input, env, w) == w;
    hide Next, CallsSoFar, Leads, RequestOf, After;
    var v := Next(input, env, w);
    if w.phase.Calling? {
      RequestIsRegular(w);
      CallKeepsOrder(w.phase, w.calls, RequestOf(w, w.phase.cycle), v.phase);
    } else if !w.phase.Over? {
      PhaseKeepsOrder(w.phase, w.calls, w.processes, v.phase, v.calls);
    }
  }

  lemma CallKeepsOrder(from: Phase, calls: seq<Request>, request: Request, to: Phase)
    requires CallsSoFar(from, calls) && from.Calling? && Leads(from, to) && request.Regular?
             && request.cycle == from.cycle
    requires request.forceFinal <==> from.cycle == MAX_CYCLES + 1
    ensures CallsSoFar(to, calls + [request])
  {
    CycleAdds(calls, request, from.cycle);
    hide Cycles, InOrder, IsTerminal;
  }

  lemma PhaseKeepsOrder(from: Phase, calls: seq<Request>, processes: seq<Process>, to: Phase, more: seq<Request>)
    requires CallsSoFar(from, calls) && !from.Calling? && !from.Over? && Leads(from, to)
    requires more == calls || (more == calls + [Completion(processes)] && (from.Failing? || from.Stopping?))
    ensures CallsSoFar(to, more)
  {
    CountIs(from, calls);
    CleanupInOrder(calls, processes);
    hide Cycles, InOrder, IsTerminal;
  }

  lemma CountIs(phase: Phase, calls: seq<Request>)
    requires CallsSoFar(phase, calls) && !phase.Over?
    ensures |calls| <= MAX_CYCLES + 1 && Cycles(calls, |calls|)
  {
  }

  lemma CycleAdds(calls: seq<Request>, request: Request, cycle: int)
    requires Cycles(calls, cycle - 1) && request.Regular? && request.cycle == cycle
    requires request.forceFinal <==> cycle == MAX_CYCLES + 1
    ensures Cycles(calls + [request], cycle)
  {
  }

  lemma {:induction false} CallsInOrder(input: TaskInput, env: Env, n: nat)
    ensures CallsSoFar(After(input, env, n).phase, After(input, env, n).calls)
  {
    hide Next;
    if n > 0 {
      CallsInOrder(input, env, n - 1);
      hide CallsSoFar;
      StepKeepsCalls(input, env, After(input, env, n - 1));
    }
  }

  // ---- processes -----------------------------------------------------------------------------------

  lemma StepMerges(input: TaskInput, env: Env, w: World)
    ensures Next(input, env, w).processes == MergeAll(true, w.processes, ProcessesStarted(env, w))
  {
    hide Persist, StepFor, Arrivals, Project.IsResetCommand, AnswerAt, IsTerminal, ResultFrom, RunsChild, Blank, Added;
  }

  // The processes are what all reported so far make of an empty list: by LastUpdateWins,
  // one entry an id, with its last update.
  lemma {:induction false} ProcessesAreMerged(input: TaskInput, env: Env, n: nat)
    ensures After(input, env, n).processes == MergeAll(true, [], StartedBy(input, env, n))
  {
    hide Next, ProcessesStarted, MergeOne;
    if n > 0 {
      ProcessesAreMerged(input, env, n - 1);
      StepMerges(input, env, After(input, env, n - 1));
      MergeConcat(true, [], StartedBy(input, env, n - 1), ProcessesStarted(env, After(input, env, n - 1)));
    }
  }
}
