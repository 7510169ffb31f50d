// How task runs end, and what becomes of the processes they have started.
module TaskEnds {
  import opened Text
  import opened Domain
  import opened Signals
  import opened Processes
  import opened NextActionActivity
  import opened TaskMachine
  import opened TaskLaws
  import Project

  function LastCall(calls: seq<Request>): Request
    requires calls != []
  {
    calls[|calls| - 1]
  }

  // The last call was answered so at some moment, or was not answered.
  ghost predicate AnsweredBy(env: Env, calls: seq<Request>, clock: nat, r: Option<ActionResult>) {
    calls != [] && exists t: nat :: t < clock && AnswerIs(env, t, LastCall(calls), r)
  }

  predicate AnswerIs(env: Env, t: nat, request: Request, r: Option<ActionResult>) {
    AnswerAt(env, t, request) == r
  }

  ghost predicate CanceledBy(input: TaskInput, env: Env, n: nat) {
    exists m: nat :: m < n && StepCancels(env, After(input, env, m))
  }

  // The last call carried the whole list of processes.
  predicate Offered(processes: seq<Process>, calls: seq<Request>) {
    calls != [] && LastCall(calls).processes == processes
  }

  predicate AsksForReset(body: string) {
    TrimSpace(body) == "/new" || TrimSpace(body) == "\U{1F576}\U{FE0F}\U{1F526}"
  }

  // What the project hears of an answer: its status, its trimmed text and its attachments.
  // The task is complete when the answer completes or ignores it, and there is a report
  // unless the answer ignores the task or says and brings nothing.
  predicate Conveys(result: RunResult, r: ActionResult) {
    && (result.completed <==> r.status == Completed || r.status == Ignored)
    && result.status == Some(r.status)
    && result.message == TrimSpace(r.message) && result.attachments == r.attachments
    && (result.report <==> r.status != Ignored && (!AllSpace(r.message) || |r.attachments| > 0))
  }

  lemma ResultConveys(r: ActionResult)
    ensures Conveys(ResultFrom(r), r)
  {
    BlankIsAllSpace(r.message);
    hide TrimSpace;
  }

  // A result comes from the reset command, from a cancel with nothing to clean up, or from
  // an answer that ended the task and left its processes clean.
  ghost predicate ResultOk(input: TaskInput, env: Env, w: World, canceled: bool, result: RunResult) {
    || (result == RunResult(true, Some(Completed), "reset", ["erase"], true) && AsksForReset(input.event.body)
        && w.processes == [])
    || (result == RunResult(false, None, "", [], false) && canceled && w.processes == [])
    || (Offered(w.processes, w.calls) && exists r :: EndsWith(env, w, r) && Conveys(result, r))
  }

  ghost predicate EndsWith(env: Env, w: World, r: ActionResult) {
    AnsweredBy(env, w.calls, w.clock, Some(r)) && r.status != UseTools && LeftClean(w.processes, r)
  }

  // An error follows a failed store or an unanswered call.
  ghost predicate Failed(env: Env, w: World) {
    w.storeFailed || AnsweredBy(env, w.calls, w.clock, None)
  }

  ghost predicate EndsOk(input: TaskInput, env: Env, w: World, canceled: bool) {
    match w.phase
    case Opening => w.processes == []
    case Answered(cycle, r) =>
      && AnsweredBy(env, w.calls, w.clock, Some(r)) && Offered(w.processes, w.calls)
      && LastCall(w.calls).Regular? && (LastCall(w.calls).forceFinal <==> cycle == MAX_CYCLES + 1)
      && 1 <= cycle <= MAX_CYCLES + 1
    case Concluding(r) => EndsWith(env, w, r) && Offered(w.processes, w.calls)
    case Failing => Failed(env, w)
    case Stopping => canceled
    case Over(Errored) => Failed(env, w) && (w.processes == [] || Offered(w.processes, w.calls))
    case Over(Finished(result)) => ResultOk(input, env, w, canceled, result)
    case _ => true
  }

  lemma AnsweredNow(env: Env, w: World, request: Request)
    ensures AnsweredBy(env, w.calls + [request], w.clock + 1, AnswerAt(env, w.clock, request))
  {
    assert AnswerIs(env, w.clock, request, AnswerAt(env, w.clock, request));
    assert LastCall(w.calls + [request]) == request;
    hide AnswerAt, AnswerIs;
  }

  lemma StillAnswered(env: Env, calls: seq<Request>, clock: nat, later: nat, r: Option<ActionResult>)
    requires AnsweredBy(env, calls, clock, r) && clock <= later
    ensures AnsweredBy(env, calls, later, r)
  {
    hide AnswerIs;
  }

  // An answer that is not terminal has tools to use, and is not the forced one.
  lemma UnfinishedHasTools(env: Env, calls: seq<Request>, clock: nat, r: ActionResult)
    requires AnsweredBy(env, calls, clock, Some(r)) && LastCall(calls).Regular? && !IsTerminal(r)
    ensures !LastCall(calls).forceFinal && r.choices != [] && !Blank(r.workItemId)
  {
    hide Blank, FeedbackAll, PreparedAll, CleanedAll, AnswerAt;
    var request := LastCall(calls);
    var t: nat :| t < clock && AnswerIs(env, t, request, Some(r));
    AnswerShows(env, t, request);
  }

  // An answer that ends the task has cleaned up the processes its call carried.
  lemma EndLeavesClean(env: Env, calls: seq<Request>, clock: nat, r: ActionResult)
    requires AnsweredBy(env, calls, clock, Some(r)) && IsTerminal(r)
    ensures LeftClean(LastCall(calls).processes, r)
  {
    hide Answers, AnswerAt, LeftClean;
    var request := LastCall(calls);
    var t: nat :| t < clock && AnswerIs(env, t, request, Some(r));
    AnswerShows(env, t, request);
    EndedLeavesClean(request, env.engine(t), r);
  }

  lemma CompletionEnds(env: Env, t: nat, processes: seq<Process>)
    ensures var r := AnswerAt(env, t, Completion(processes)); r.Some? ==> IsTerminal(r.value)
  {
    hide CleanedAll, FeedbackAll, AnyRefused, AnyStopped;
  }

  lemma OpeningEnds(input: TaskInput, env: Env, w: World, canceled: bool)
    requires w.phase.Opening? && w.processes == []
    ensures EndsOk(input, env, AfterOpening(input, env, w), canceled)
  {
    hide TrimSpace, AnsweredBy, EndsWith, Offered;
  }

  lemma CallingEnds(input: TaskInput, env: Env, w: World, canceled: bool)
    requires w.phase.Calling? && 1 <= w.phase.cycle <= MAX_CYCLES + 1
    ensures EndsOk(input, env, AfterCalling(env, w, w.phase.cycle), canceled)
  {
    hide AnswerAt, AnsweredBy, EndsWith;
    AnsweredNow(env, w, RequestOf(w, w.phase.cycle));
  }

  lemma AnswerEnds(input: TaskInput, env: Env, w: World, canceled: bool)
    requires w.phase.Answered? && EndsOk(input, env, w, canceled)
    ensures EndsOk(input, env, AfterAnswer(env, w, w.phase.cycle, w.phase.next), canceled)
  {
    hide AnswerAt, AnsweredBy, Blank, LeftClean;
    var r := w.phase.next;
    if IsTerminal(r) {
      EndLeavesClean(env, w.calls, w.clock, r);
      StillAnswered(env, w.calls, w.clock, w.clock + 1, Some(r));
    } else {
      UnfinishedHasTools(env, w.calls, w.clock, r);
    }
  }

  lemma StepEnds(input: TaskInput, env: Env, w: World, canceled: bool)
    requires w.phase.Using? && w.phase.index < |w.phase.choices|
    ensures var p := w.phase;
            EndsOk(input, env, AfterStep(env, w, p.cycle, p.choices, p.workItemId, p.index),
                  canceled || StepCancels(env, w))
  {
    hide StepFor, MergeAll, Persist, RunsChild, Added, AnsweredBy, EndsWith, Offered, ResultOk;
  }

  lemma ConcludingEnds(input: TaskInput, env: Env, w: World, canceled: bool)
    requires w.phase.Concluding? && EndsOk(input, env, w, canceled)
    ensures EndsOk(input, env, AfterConcluding(input, env, w, w.phase.next), canceled)
  {
    ResultConveys(w.phase.next);
    hide AnswerAt, AnsweredBy, LeftClean, ResultFrom, Offered, Conveys;
    StillAnswered(env, w.calls, w.clock, w.clock + 1, Some(w.phase.next));
    var v := AfterConcluding(input, env, w, w.phase.next);
    assert !v.phase.Failing? ==> EndsWith(env, v, w.phase.next);
  }

  lemma CleanupEnds(input: TaskInput, env: Env, w: World, canceled: bool)
    requires w.processes != []
    ensures EndsOk(input, env, AfterCleanup(env, w), canceled)
  {
    hide AnswerAt, AnsweredBy, LeftClean, ResultFrom, Conveys;
    var request := Completion(w.processes);
    AnsweredNow(env, w, request);
    CompletionEnds(env, w.clock, w.processes);
    var v := AfterCleanup(env, w);
    var r := AnswerAt(env, w.clock, request);
    if r.Some? {
      EndLeavesClean(env, v.calls, v.clock, r.value);
      ResultConveys(r.value);
      assert EndsWith(env, v, r.value);
    }
  }

  lemma EndingEnds(input: TaskInput, env: Env, w: World, canceled: bool)
    requires (w.phase.Failing? || w.phase.Stopping?) && EndsOk(input, env, w, canceled)
    ensures EndsOk(input, env, Next(input, env, w), canceled)
  {
    if w.processes != [] {
      hide EndsOk, AfterCleanup;
      CleanupEnds(input, env, w, canceled);
    } else {
      hide AnsweredBy, EndsWith, Offered;
    }
  }

  lemma StepKeepsEnds(input: TaskInput, env: Env, w: World, canceled: bool)
    requires EndsOk(input, env, w, canceled) && CallsSoFar(w.phase, w.calls)
    ensures EndsOk(input, env, Next(input, env, w), canceled || StepCancels(env, w))
  {
    assert w.phase.Calling? ==> 1 <= w.phase.cycle <= MAX_CYCLES + 1;
    assert w.phase.Opening? ==> w.processes == [];
    hide CallsSoFar, AfterOpening, AfterCalling, AfterAnswer, AfterStep, AfterConcluding, StepFor, EndsOk;
    match w.phase
    case Opening => OpeningEnds(input, env, w, canceled);
    case Draining(_) => DrainingEnds(input, env, w, canceled);
    case Calling(_) => CallingEnds(input, env, w, canceled);
    case Answered(_, _) => AnswerEnds(input, env, w, canceled);
    case Using(cycle, choices, _, i) =>
      if i < |choices| {
        StepEnds(input, env, w, canceled);
      } else {
        LeavingEnds(input, env, w, canceled, cycle);
      }
    case Concluding(_) => ConcludingEnds(input, env, w, canceled);
    case Over(_) =>
    case _ => EndingEnds(input, env, w, canceled);
  }

  lemma DrainingEnds(input: TaskInput, env: Env, w: World, canceled: bool)
    requires w.phase.Draining?
    ensures EndsOk(input, env, AfterDraining(env, w, w.phase.cycle), canceled)
  {
    hide Persist, Arrivals, Added, AnsweredBy;
  }

  lemma LeavingEnds(input: TaskInput, env: Env, w: World, canceled: bool, cycle: int)
    ensures EndsOk(input, env, w.(phase := NextCycle(cycle)), canceled)
  {
  }

  // In every run: an error has a failed store or an unanswered call behind it, a result has
  // an answer, a cancel or the reset command, and the last call of a run that ends with
  // processes carried them all, so that a task that finishes has left none of its own
  // running unless it failed.
  lemma {:induction false} RunsEndForAReason(input: TaskInput, env: Env, n: nat)
    ensures EndsOk(input, env, After(input, env, n), CanceledBy(input, env, n))
  {
    hide Next, EndsOk, StepCancels, CallsSoFar;
    if n == 0 {
      StartEnds(input, env);
    } else {
      var w := After(input, env, n - 1);
      RunsEndForAReason(input, env, n - 1);
      CallsInOrder(input, env, n - 1);
      StepKeepsEnds(input, env, w, CanceledBy(input, env, n - 1));
      CanceledGrows(input, env, n);
    }
  }

  lemma StartEnds(input: TaskInput, env: Env)
    ensures EndsOk(input, env, Start(input), CanceledBy(input, env, 0))
  {
  }

  lemma CanceledGrows(input: TaskInput, env: Env, n: nat)
    requires n > 0
    ensures CanceledBy(input, env, n) <==> CanceledBy(input, env, n - 1) || StepCancels(env, After(input, env, n - 1))
  {
    hide After, StepCancels;
  }

  // Every exit offers the processes for cleanup: when a run is over and does not wait, its
  // last call carried the merged list of everything its steps reported.
  lemma ProcessesAreOffered(input: TaskInput, env: Env, n: nat)
    requires After(input, env, n).phase.Over? && !After(input, env, n).phase.exit.StillWaiting?
    ensures var w := After(input, env, n);
            && w.processes == MergeAll(true, [], StartedBy(input, env, n))
            && (w.processes == [] || Offered(w.processes, w.calls))
  {
    hide After, StartedBy, MergeAll, AnsweredBy, EndsWith, Offered, CanceledBy;
    RunsEndForAReason(input, env, n);
    ProcessesAreMerged(input, env, n);
  }
}
