// What holds after any number of steps of any agent run.
module AgentLaws {
  import opened Text
  import opened Domain
  import opened Signals
  import opened Processes
  import opened NextActionActivity
  import opened Compression
  import opened AgentMachine

  // ---- what a run has met, told from the world alone -----------------------------------

  // The step the run takes next in this state, when that is running a tool.
  function StepIn(input: AgentInput, env: AgentEnv, w: World): Option<StepEnd> {
    match w.phase
    case Using(turn, choices, workItemId, i) =>
      if i < |choices| && input.request.Some? && Allowed(choices[i], input.request.value.allowed)
      then Some(StepFor(input, env, w.clock, AnnotatedChoice(choices[i], input.lineage), workItemId, turn))
      else None
    case Completing(turn, tool) => Some(StepFor(input, env, w.clock, CompletionChoice(input, tool, turn), "", turn))
    case _ => None
  }

  function AnswerIn(input: AgentInput, env: AgentEnv, w: World): Option<ActionResult> {
    if w.phase.Calling? then AnswerAt(env, w.clock, RequestOf(input, w, w.phase.turn)) else None
  }

  function SignalsTaken(input: AgentInput, env: AgentEnv, w: World): seq<TaskSignal> {
    if w.phase.Beginning? then Arrivals(env, w.clock)
    else if StepIn(input, env, w).Some? then StepIn(input, env, w).value.signals
    else []
  }

  function ProcessesStarted(input: AgentInput, env: AgentEnv, w: World): seq<Process> {
    var (step, answer) := (StepIn(input, env, w), AnswerIn(input, env, w));
    if step.Some? && step.value.Ended? then step.value.result.processes
    else if answer.Some? then answer.value.processes else []
  }

  function ResultMade(input: AgentInput, env: AgentEnv, w: World): seq<ToolResult> {
    var step := StepIn(input, env, w);
    if step.Some? && step.value.Ended? && (w.phase.Completing? || !step.value.canceled)
    then [Annotated(step.value.result, input.lineage)] else []
  }

  // The observations a step moves into the summary, the results an answered call takes over,
  // and the results an interrupt drops when a turn begins and goes on.
  function SummarisedIn(input: AgentInput, env: AgentEnv, w: World): seq<Feedback> {
    if w.phase.Compressing? && CompressedAt(input, env, w).Some? && CompressedAt(input, env, w).value.summarized
    then Older(input.limits, w.history) else []
  }

  function AbsorbedIn(input: AgentInput, env: AgentEnv, w: World): seq<ToolResult> {
    if AnswerIn(input, env, w).Some? then w.last else []
  }

  predicate Interrupted(env: AgentEnv, w: World) {
    w.phase.Beginning? && env.interrupts(w.clock) != []
  }

  function DroppedIn(input: AgentInput, env: AgentEnv, w: World): seq<ToolResult> {
    if Interrupted(env, w) && Next(input, env, w).phase.Compressing? then w.last else []
  }

  // All of them over the first n steps, in order.
  function ConsumedBy(input: AgentInput, env: AgentEnv, n: nat): seq<TaskSignal> {
    if n == 0 then [] else ConsumedBy(input, env, n - 1) + SignalsTaken(input, env, After(input, env, n - 1))
  }

  function StartedBy(input: AgentInput, env: AgentEnv, n: nat): seq<Process> {
    if n == 0 then [] else StartedBy(input, env, n - 1) + ProcessesStarted(input, env, After(input, env, n - 1))
  }

  function MadeBy(input: AgentInput, env: AgentEnv, n: nat): seq<ToolResult> {
    if n == 0 then [] else MadeBy(input, env, n - 1) + ResultMade(input, env, After(input, env, n - 1))
  }

  function SummarisedBy(input: AgentInput, env: AgentEnv, n: nat): seq<Feedback> {
    if n == 0 then [] else SummarisedBy(input, env, n - 1) + SummarisedIn(input, env, After(input, env, n - 1))
  }

  function AbsorbedBy(input: AgentInput, env: AgentEnv, n: nat): seq<ToolResult> {
    if n == 0 then [] else AbsorbedBy(input, env, n - 1) + AbsorbedIn(input, env, After(input, env, n - 1))
  }

  function DroppedBy(input: AgentInput, env: AgentEnv, n: nat): seq<ToolResult> {
    if n == 0 then [] else DroppedBy(input, env, n - 1) + DroppedIn(input, env, After(input, env, n - 1))
  }

  // ---- signals -------------------------------------------------------------------------------

  lemma StepAddsSignals(input: AgentInput, env: AgentEnv, w: World)
    ensures Next(input, env, w).additional == w.additional + Added(SignalsTaken(input, env, w))
  {
    hide Persist, StepFor, Arrivals, MergeAll, AnswerAt, IsTerminal, Blank, Allowed, CompressedAt, AnnotatedChoice,
         CompletionChoice, Annotated;
    EmptyStored();
    assert w.additional + [] == w.additional;
  }

  // The context is what the run began with and, in order, what each consumed signal adds.
  lemma {:induction false} ContextIsWhatSignalsAdd(input: AgentInput, env: AgentEnv, n: nat)
    ensures After(input, env, n).additional == input.additional + Added(ConsumedBy(input, env, n))
  {
    hide Next, SignalsTaken, Added;
    if n == 0 {
      EmptyStored();
    } else {
      var w := After(input, env, n - 1);
      ContextIsWhatSignalsAdd(input, env, n - 1);
      StepAddsSignals(input, env, w);
      ContextGrows(input.additional, w.additional, ConsumedBy(input, env, n - 1), SignalsTaken(input, env, w));
    }
  }

  // Every consumed signal is stored, but for a failed store, which ends the run, and for
  // the signals of a step that still waits.
  predicate SignalsStored(w: World, consumed: seq<TaskSignal>) {
    && (w.storeFailed ==> w.phase.Over?)
    && match w.phase
       case Over(StillWaiting(signals)) => !w.storeFailed && StoredOk([], w.storedEvents + StoredAll(signals), consumed)
       case _ => StoredSoFar([], w.storedEvents, consumed, w.storeFailed)
  }

  lemma PersistKeeps(stored: seq<Event>, consumed: seq<TaskSignal>, more: seq<TaskSignal>, stores: nat -> bool,
        clock: nat)
    requires StoredOk([], stored, consumed)
    ensures var p := Persist(more, stores, clock);
            && StoredSoFar([], stored + p.events, consumed + more, !p.ok)
            && StoredSoFar([], stored + p.events, consumed + more, true)
    ensures StoredOk([], stored + StoredAll(more), consumed + more)
  {
    hide Persist, StoredAll;
    PersistStores(more, stores, clock);
    StoredGrows([], stored, consumed, more);
  }

  lemma SoFarMeans(stored: seq<Event>, consumed: seq<TaskSignal>)
    ensures consumed + [] == consumed
    ensures StoredSoFar([], stored, consumed, false) <==> StoredOk([], stored, consumed)
    ensures StoredOk([], stored, consumed) ==> forall failed :: StoredSoFar([], stored, consumed, failed)
  {
    hide StoredAll;
  }

  lemma BeginningStores(env: AgentEnv, w: World, consumed: seq<TaskSignal>)
    requires w.phase.Beginning? && SignalsStored(w, consumed)
    ensures SignalsStored(AfterBeginning(env, w, w.phase.turn), consumed + Arrivals(env, w.clock))
  {
    hide Arrivals, StoredOk, StoredSoFar, Persist, Added;
    SoFarMeans(w.storedEvents, consumed);
    PersistKeeps(w.storedEvents, consumed, Arrivals(env, w.clock), env.stores, w.clock + 1);
  }

  lemma StepStores(input: AgentInput, env: AgentEnv, w: World, consumed: seq<TaskSignal>)
    requires SignalsStored(w, consumed) && w.phase.Using? && StepIn(input, env, w).Some?
    ensures SignalsStored(Next(input, env, w), consumed + StepIn(input, env, w).value.signals)
  {
    hide StoredOk, StoredSoFar, Persist, Added, StoredAll, StepFor, MergeAll, Annotated, AnnotatedChoice, Allowed,
         NextTurn;
    SoFarMeans(w.storedEvents, consumed);
    PersistKeeps(w.storedEvents, consumed, StepIn(input, env, w).value.signals, env.stores, w.clock + 1);
    assert !NextTurn(input, w.phase.turn).Over? by { TurnIsNotOver(input, w.phase.turn); }
  }

  lemma TurnIsNotOver(input: AgentInput, turn: int)
    ensures NextTurn(input, turn).Beginning? || NextTurn(input, turn).Calling?
  {
  }

  lemma CompletingStores(input: AgentInput, env: AgentEnv, w: World, consumed: seq<TaskSignal>)
    requires SignalsStored(w, consumed) && w.phase.Completing?
    ensures SignalsStored(Next(input, env, w), consumed + StepIn(input, env, w).value.signals)
  {
    hide StoredOk, StoredSoFar, Persist, Added, StoredAll, StepFor, MergeAll, Annotated, CompletionChoice, NextTurn;
    SoFarMeans(w.storedEvents, consumed);
    PersistKeeps(w.storedEvents, consumed, StepIn(input, env, w).value.signals, env.stores, w.clock + 1);
    TurnIsNotOver(input, w.phase.turn);
  }

  lemma OtherStepsStore(input: AgentInput, env: AgentEnv, w: World, consumed: seq<TaskSignal>)
    requires SignalsStored(w, consumed) && !w.phase.Beginning? && StepIn(input, env, w).None?
    ensures SignalsStored(Next(input, env, w), consumed)
  {
    hide StoredOk, StoredSoFar, StoredAll, AnswerAt, IsTerminal, Blank, StepFor, CompressedAt, Allowed, NextTurn,
         MergeAll, AnnotatedChoice;
    SoFarMeans(w.storedEvents, consumed);
    if w.phase.Using? {
      TurnIsNotOver(input, w.phase.turn);
    }
  }

  lemma StepKeepsStored(input: AgentInput, env: AgentEnv, w: World, consumed: seq<TaskSignal>)
    requires SignalsStored(w, consumed)
    ensures SignalsStored(Next(input, env, w), consumed + SignalsTaken(input, env, w))
  {
    hide SignalsStored, AfterBeginning, AfterStep, AfterCompleting, AfterCompressing, AfterCalling, AfterAnswer,
         Arrivals, StepFor, Allowed;
    assert consumed + [] == consumed;
    if w.phase.Beginning? {
      BeginningStores(env, w, consumed);
    } else if w.phase.Completing? {
      CompletingStores(input, env, w, consumed);
    } else if StepIn(input, env, w).Some? {
      StepStores(input, env, w, consumed);
    } else {
      OtherStepsStore(input, env, w, consumed);
    }
  }

  // In every state of every run the stored events are, in order, one event for each consumed
  // signal that has an id.
  lemma {:induction false} SignalsStoredOnce(input: AgentInput, env: AgentEnv, n: nat)
    ensures SignalsStored(After(input, env, n), ConsumedBy(input, env, n))
  {
    hide Next, SignalsTaken;
    if n > 0 {
      SignalsStoredOnce(input, env, n - 1);
      hide SignalsStored;
      StepKeepsStored(input, env, After(input, env, n - 1), ConsumedBy(input, env, n - 1));
    }
  }

  // ---- processes --------------------------------------------------------------------------------

  // Storing what a step brought changes neither processes nor observations.
  lemma TakingKeeps(input: AgentInput, env: AgentEnv, w: World, end: StepEnd, turn: int, then_: Phase)
    requires end.Ended?
    ensures TakeStep(input, env, w, end, turn, then_).processes == w.processes
    ensures TakeStep(input, env, w, end, turn, then_).history == w.history
    ensures TakeStep(input, env, w, end, turn, then_).summary == w.summary
    ensures TakeCompletion(input, env, w, end, turn).processes == w.processes
    ensures TakeCompletion(input, env, w, end, turn).history == w.history
    ensures TakeCompletion(input, env, w, end, turn).summary == w.summary
  {
    hide Persist, Annotated, NextTurn;
  }

  lemma StepKeepsRest(input: AgentInput, env: AgentEnv, w: World)
    requires w.phase.Using? || w.phase.Completing?
    ensures var v := Next(input, env, w);
            && v.history == w.history && v.summary == w.summary
            && v.processes == if StepIn(input, env, w).Some? && StepIn(input, env, w).value.Ended?
                              then MergeAll(false, w.processes, StepIn(input, env, w).value.result.processes)
                                  else w.processes
  {
    hide StepFor, Allowed, MergeAll, Added, Annotated, AnnotatedChoice, CompletionChoice, NextTurn, TakeStep,
         TakeCompletion;
    var step := StepIn(input, env, w);
    if step.Some? && step.value.Ended? {
      var p := w.phase;
      var then_ := if p.Completing? || step.value.interrupted then NextTurn(input, p.turn)
                   else Using(p.turn, p.choices, p.workItemId, p.index + 1);
      TakingKeeps(input, env, Stepped(w, step.value), step.value, p.turn, then_);
    }
  }

  lemma StepMerges(input: AgentInput, env: AgentEnv, w: World)
    ensures Next(input, env, w).processes == MergeAll(false, w.processes, ProcessesStarted(input, env, w))
  {
    assert MergeAll(false, w.processes, []) == w.processes;
    hide MergeAll, Persist, StepFor, Arrivals, AnswerAt, IsTerminal, Blank, Allowed, CompressedAt, Added, AfterStep,
         AfterCompleting;
    if w.phase.Using? || w.phase.Completing? {
      StepKeepsRest(input, env, w);
    }
  }

  // The processes are what all reported so far make of an empty list.
  lemma {:induction false} ProcessesAreMerged(input: AgentInput, env: AgentEnv, n: nat)
    ensures After(input, env, n).processes == MergeAll(false, [], StartedBy(input, env, n))
  {
    hide Next, ProcessesStarted, MergeOne;
    if n > 0 {
      ProcessesAreMerged(input, env, n - 1);
      StepMerges(input, env, After(input, env, n - 1));
      MergeConcat(false, [], StartedBy(input, env, n - 1), ProcessesStarted(input, env, After(input, env, n - 1)));
    }
  }

  // ---- observations -------------------------------------------------------------------------------

  // What was summarised and what is still raw make up everything received: the observations
  // the run began with and, one for one, what the model is told about the absorbed results.
  ghost predicate Conserved(first: seq<Feedback>, summarised: seq<Feedback>, raw: seq<Feedback>,
        absorbed: seq<ToolResult>)
  {
    && summarised + raw == first + FeedbackAll(absorbed)
    && AllTold((summarised + raw)[|first|..], absorbed)
  }

  lemma ConservedTells(first: seq<Feedback>, summarised: seq<Feedback>, raw: seq<Feedback>, absorbed: seq<ToolResult>)
    requires summarised + raw == first + FeedbackAll(absorbed)
    ensures Conserved(first, summarised, raw, absorbed)
  {
    FeedbackTells(absorbed);
    hide FeedbackAll, AllTold;
    assert (first + FeedbackAll(absorbed))[|first|..] == FeedbackAll(absorbed);
  }

  lemma CompressionMoves(input: AgentInput, env: AgentEnv, w: World)
    requires w.phase.Compressing?
    ensures SummarisedIn(input, env, w) + Next(input, env, w).history == w.history
    ensures SummarisedIn(input, env, w) != [] ==> |Next(input, env, w).history| == Recent(input.limits)
  {
    hide WantsSummary, Usable, SourceChars, Fits, TrimSpace;
    assert [] + w.history == w.history;
  }

  lemma AnswerObserves(input: AgentInput, env: AgentEnv, w: World)
    requires AnswerIn(input, env, w).Some?
    ensures AnswerIn(input, env, w).value.observations == FeedbackAll(w.last)
  {
    hide ActionFor, FeedbackAll, CleanedAll, PreparedAll, AnyRefused;
    AnswersKeep(RequestOf(input, w, w.phase.turn), env.engine(w.clock));
  }

  lemma StepObserves(input: AgentInput, env: AgentEnv, w: World)
    ensures SummarisedIn(input, env, w) + Next(input, env, w).history
            == w.history + FeedbackAll(AbsorbedIn(input, env, w))
  {
    hide FeedbackAll, Persist, StepFor, Arrivals, AnswerAt, IsTerminal, Blank, Allowed, CompressedAt, MergeAll, Added,
         AfterStep, AfterCompleting, AfterCompressing, SummarisedIn;
    if w.phase.Compressing? {
      CompressionMoves(input, env, w);
    } else if AnswerIn(input, env, w).Some? {
      AnswerObserves(input, env, w);
    } else if w.phase.Using? || w.phase.Completing? {
      StepKeepsRest(input, env, w);
    }
    NoFeedback();
    NothingSummarised(input, env, w);
    assert w.history + [] == w.history && [] + Next(input, env, w).history == Next(input, env, w).history;
  }

  lemma NoFeedback()
    ensures FeedbackAll([]) == []
  {
  }

  lemma NothingSummarised(input: AgentInput, env: AgentEnv, w: World)
    ensures !w.phase.Compressing? ==> SummarisedIn(input, env, w) == []
  {
  }

  // The law of compression: over every run nothing observed is lost, repeated or reordered.
  lemma {:induction false} ObservationsConserved(input: AgentInput, env: AgentEnv, n: nat)
    ensures Conserved(input.observations, SummarisedBy(input, env, n), After(input, env, n).history,
            AbsorbedBy(input, env, n))
  {
    hide Next, SummarisedIn, AbsorbedIn;
    if n == 0 {
      NoFeedback();
      assert [] + input.observations == input.observations + [];
      ConservedTells(input.observations, [], input.observations, []);
    } else {
      var w := After(input, env, n - 1);
      ObservationsConserved(input, env, n - 1);
      StepObserves(input, env, w);
      MovedConserved(input.observations, SummarisedBy(input, env, n - 1), w.history, AbsorbedBy(input, env, n - 1),
                     SummarisedIn(input, env, w), After(input, env, n).history, AbsorbedIn(input, env, w));
    }
  }

  lemma MovedConserved(first: seq<Feedback>, summarised: seq<Feedback>, raw: seq<Feedback>, absorbed: seq<ToolResult>,
        moved: seq<Feedback>, left: seq<Feedback>, more: seq<ToolResult>)
    requires Conserved(first, summarised, raw, absorbed) && moved + left == raw + FeedbackAll(more)
    ensures Conserved(first, summarised + moved, left, absorbed + more)
  {
    FeedbackConcat(absorbed, more);
    hide FeedbackAll;
    assert summarised + moved + left == summarised + (moved + left);
    assert summarised + (raw + FeedbackAll(more)) == summarised + raw + FeedbackAll(more);
    assert first + (FeedbackAll(absorbed) + FeedbackAll(more)) == first + FeedbackAll(absorbed) + FeedbackAll(more);
    ConservedTells(first, summarised + moved, left, absorbed + more);
    hide AllTold;
  }

  // ---- the summary --------------------------------------------------------------------------------

  // A compression that is due, and that the compressor answers with some text.
  predicate Summarises(input: AgentInput, env: AgentEnv, w: World) {
    && w.phase.Compressing? && env.delivers(w.clock)
    && |w.history| > Recent(input.limits) && SourceChars(input.limits, w.summary, w.history) >= Trigger(input.limits)
    && env.compressor(w.clock).Summary? && !AllSpace(env.compressor(w.clock).text)
  }

  // The trimmed text of the last reply that summarised, or of the input if none has.
  function SummaryBy(input: AgentInput, env: AgentEnv, n: nat): string {
    if n == 0 then TrimSpace(input.summary)
    else
      var w := After(input, env, n - 1);
      if Summarises(input, env, w) then TrimSpace(env.compressor(w.clock).text) else SummaryBy(input, env, n - 1)
  }

  lemma StepSummarises(input: AgentInput, env: AgentEnv, w: World)
    requires Trimmed(w.summary)
    ensures Next(input, env, w).summary
         == if Summarises(input, env, w) then TrimSpace(env.compressor(w.clock).text) else w.summary
  {
    TrimSpaceOfTrimmed(w.summary);
    if w.phase.Compressing? {
      CompressedSummary(input, env, w);
    } else {
      hide AfterStep, AfterCompleting, StepFor, StepIn, Persist, Arrivals, AnswerAt, IsTerminal, Blank, MergeAll, Added,
           TrimSpace, NextTurn, RequestOf, Limit;
      if w.phase.Using? || w.phase.Completing? {
        StepKeepsRest(input, env, w);
      }
    }
  }

  lemma CompressedSummary(input: AgentInput, env: AgentEnv, w: World)
    requires w.phase.Compressing? && TrimSpace(w.summary) == w.summary
    ensures Next(input, env, w).summary
         == if Summarises(input, env, w) then TrimSpace(env.compressor(w.clock).text) else w.summary
  {
    var reply := env.compressor(w.clock);
    if reply.Summary? {
      BlankIsAllSpace(reply.text);
      TrimSpaceOfTrimmed(TrimSpace(reply.text));
    }
    hide TrimSpace, SourceChars, Recent, Trigger, MaxContext, Fits, AllSpace;
  }

  // In every state of every run the summary is the one of the last reply that summarised.
  lemma {:induction false} SummaryIsTheLast(input: AgentInput, env: AgentEnv, n: nat)
    ensures After(input, env, n).summary == SummaryBy(input, env, n) && Trimmed(After(input, env, n).summary)
  {
    hide Next, Summarises, TrimSpace;
    if n > 0 {
      SummaryIsTheLast(input, env, n - 1);
      StepSummarises(input, env, After(input, env, n - 1));
    }
  }

  // The summarised part only grows, and so do the absorbed, dropped and stored results.
  lemma {:induction false} SummaryOnlyGrows(input: AgentInput, env: AgentEnv, m: nat, n: nat)
    requires m <= n
    ensures SummarisedBy(input, env, m) <= SummarisedBy(input, env, n)
    ensures AbsorbedBy(input, env, m) <= AbsorbedBy(input, env, n)
    ensures DroppedBy(input, env, m) <= DroppedBy(input, env, n)
    ensures After(input, env, m).storedResults <= After(input, env, n).storedResults
  {
    hide Next, SummarisedIn, AbsorbedIn, DroppedIn, ResultMade;
    if m < n {
      SummaryOnlyGrows(input, env, m, n - 1);
      StepStoresResult(input, env, After(input, env, n - 1));
      ThreeGrow(SummarisedBy(input, env, m), SummarisedBy(input, env, n - 1), SummarisedBy(input, env, n));
      ResultsGrow(AbsorbedBy(input, env, m), AbsorbedBy(input, env, n - 1), AbsorbedBy(input, env, n));
      ResultsGrow(DroppedBy(input, env, m), DroppedBy(input, env, n - 1), DroppedBy(input, env, n));
      ResultsGrow(After(input, env, m).storedResults, After(input, env, n - 1).storedResults,
          After(input, env, n).storedResults);
    }
  }

  lemma ThreeGrow(a: seq<Feedback>, b: seq<Feedback>, c: seq<Feedback>)
    ensures a <= b <= c ==> a <= c
  {
  }

  lemma ResultsGrow(a: seq<ToolResult>, b: seq<ToolResult>, c: seq<ToolResult>)
    ensures a <= b <= c ==> a <= c
  {
  }

  lemma StepStoresResult(input: AgentInput, env: AgentEnv, w: World)
    ensures var v := Next(input, env, w);
            && (v.storedResults == w.storedResults || v.storedResults == w.storedResults + ResultMade(input, env, w))
            && (!v.storeFailed ==> v.storedResults == w.storedResults + ResultMade(input, env, w) && !w.storeFailed)
  {
    hide Persist, StepFor, Arrivals, AnswerAt, IsTerminal, Blank, Allowed, CompressedAt, MergeAll, Added, Annotated,
         AnnotatedChoice, CompletionChoice, NextTurn;
    assert w.storedResults + [] == w.storedResults;
  }

  // Without a failed store the stored results are exactly the results made, in order; a
  // failed store leaves a first part.
  predicate StoredAreMade(w: World, made: seq<ToolResult>) {
    w.storedResults <= made && (!w.storeFailed ==> w.storedResults == made)
  }

  lemma {:induction false} ResultsStoredAreMade(input: AgentInput, env: AgentEnv, n: nat)
    ensures StoredAreMade(After(input, env, n), MadeBy(input, env, n))
  {
    hide Next, ResultMade, SignalsStored, ConsumedBy;
    if n > 0 {
      ResultsStoredAreMade(input, env, n - 1);
      SignalsStoredOnce(input, env, n - 1);
      hide StoredAreMade;
      StepStoresMade(input, env, After(input, env, n - 1), MadeBy(input, env, n - 1), ConsumedBy(input, env, n - 1));
    }
  }

  lemma StepStoresMade(input: AgentInput, env: AgentEnv, w: World, made: seq<ToolResult>, consumed: seq<TaskSignal>)
    requires StoredAreMade(w, made) && SignalsStored(w, consumed)
    ensures StoredAreMade(Next(input, env, w), made + ResultMade(input, env, w))
  {
    StepStoresResult(input, env, w);
    FailedMakesNothing(input, env, w, consumed);
    hide Next, ResultMade, SignalsStored;
    PartGrows(w.storedResults, made, ResultMade(input, env, w));
  }

  lemma FailedMakesNothing(input: AgentInput, env: AgentEnv, w: World, consumed: seq<TaskSignal>)
    requires SignalsStored(w, consumed)
    ensures w.storeFailed ==> ResultMade(input, env, w) == []
  {
    hide StoredOk, StoredSoFar;
  }

  lemma PartGrows(part: seq<ToolResult>, all: seq<ToolResult>, more: seq<ToolResult>)
    requires part <= all
    ensures part <= all + more && (part == all || more == [] ==> part + more <= all + more)
  {
  }

  // Before a turn's call the raw history fits the limits, with the summary sent along.
  predicate HistoryFits(input: AgentInput, w: World) {
    w.phase.Calling? && w.phase.turn <= Limit(input) ==> Fits(input.limits, w.summary, w.history)
  }

  lemma CompressionFits(input: AgentInput, env: AgentEnv, w: World)
    requires w.phase.Compressing?
    ensures HistoryFits(input, AfterCompressing(input, env, w, w.phase.turn))
  {
    hide WantsSummary, Usable, SourceChars, Fits, TrimSpace, Older;
    var c := CompressedAt(input, env, w);
    if c.Some? {
      if c.value.summarized {
        FewFit(input.limits, TrimSpace(c.value.summary), c.value.remaining);
      } else {
        FitsTrimmed(input.limits, w.summary, w.history);
      }
    }
  }

  lemma {:induction false} EveryTurnFits(input: AgentInput, env: AgentEnv, n: nat)
    ensures HistoryFits(input, After(input, env, n))
  {
    hide Next, HistoryFits;
    if n == 0 {
      OpeningFits(input, Start(input));
    } else {
      var w := After(input, env, n - 1);
      if w.phase.Compressing? {
        CompressingIs(input, env, w);
        CompressionFits(input, env, w);
      } else {
        OtherStepsFit(input, env, w);
      }
    }
  }

  lemma OpeningFits(input: AgentInput, w: World)
    requires w.phase.Opening?
    ensures HistoryFits(input, w)
  {
  }

  lemma CompressingIs(input: AgentInput, env: AgentEnv, w: World)
    requires w.phase.Compressing?
    ensures Next(input, env, w) == AfterCompressing(input, env, w, w.phase.turn)
  {
    hide AfterCompressing;
  }

  // No other step leads to the call of a turn that is not forced.
  lemma OtherStepsFit(input: AgentInput, env: AgentEnv, w: World)
    requires !w.phase.Compressing?
    ensures HistoryFits(input, Next(input, env, w))
  {
    hide Persist, StepFor, Arrivals, AnswerAt, IsTerminal, Blank, Allowed, CompressedAt, MergeAll, Added, Annotated,
         AnnotatedChoice, CompletionChoice, Fits, Limit;
  }

  // Trimming a summary does not change what it takes up.
  lemma FitsTrimmed(l: Limits, summary: string, obs: seq<Feedback>)
    ensures Fits(l, TrimSpace(summary), obs) == Fits(l, summary, obs)
    ensures TrimSpace(TrimSpace(summary)) == TrimSpace(summary)
  {
    TrimSpaceOfTrimmed(TrimSpace(summary));
    hide TrimSpace;
  }

  lemma FewFit(l: Limits, summary: string, obs: seq<Feedback>)
    requires |obs| == Recent(l)
    ensures Fits(l, summary, obs)
  {
    hide SourceChars;
  }
}
