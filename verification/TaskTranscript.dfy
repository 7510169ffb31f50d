// From task runs to transcripts: what any call of a run shows builds a message list that the
// validator accepts, when engine and tools keep to their call ids.
module TaskTranscript {
  import opened Text
  import opened Domain
  import opened Signals
  import opened Processes
  import opened NextActionActivity
  import opened TaskMachine
  import opened TaskLaws
  import TaskEnds
  import Transcript
  import TranscriptBuilder

  function ResultCallId(r: ToolResult): string {
    TranscriptBuilder.CallId(FeedbackOf(r))
  }

  predicate Echoes(end: StepEnd, choice: ToolChoice, cycle: int) {
    end.Ended? ==> end.result.cycle == cycle && ResultCallId(end.result) == ChoiceCallId(choice)
  }

  // The engine gives usable call ids in every turn, the made ids are hashes, and a tool
  // activity answers with the call id and the cycle it was given.
  ghost predicate Cooperative(env: Env) {
    && (forall t :: UsableIds(env.engine(t).choices, env.engine(t).token) && Trimmed("toolu_" + env.engine(t).token))
    && (forall t, choice, workItemId, cycle :: ChoiceCallId(choice) != "" ==>
          Echoes(ToolStepEnd(choice, workItemId, cycle, env.wakeups(t, choice, cycle)), choice, cycle))
  }

  // ---- every result answers its choice ----------------------------------------------------

  // A result that has its choice's call id answers it.
  lemma IdEchoes(r: ToolResult, choice: ToolChoice)
    requires r.toolCallId == ChoiceCallId(choice) && ChoiceCallId(choice) != ""
    ensures ResultCallId(r) == ChoiceCallId(choice)
  {
    TrimSpaceOfTrimmed(ChoiceCallId(choice));
    hide TrimSpace;
  }

  // Failed and child results answer the call they were made for, as tool results do.
  lemma StepEchoes(env: Env, t: nat, choice: ToolChoice, workItemId: string, cycle: int)
    requires Cooperative(env) && ChoiceCallId(choice) != ""
    ensures Echoes(StepFor(env, t, choice, workItemId, cycle), choice, cycle)
  {
    hide ChoiceCallId, ResultCallId, ToolStepEnd, FailedExecution, ChildFor, UsableIds, Trimmed;
    if choice.tool == "agent" {
      ChildEchoes(env, t, choice, workItemId, cycle);
    } else if IsAuthoringTool(choice.tool) {
      AuthoringEchoes(env, t, choice, workItemId, cycle);
    }
  }

  lemma ChildEchoes(env: Env, t: nat, choice: ToolChoice, workItemId: string, cycle: int)
    requires ChoiceCallId(choice) != ""
    ensures Echoes(ChildFor(env, t, choice, workItemId, cycle), choice, cycle)
  {
    hide ChoiceCallId, ResultCallId, TrimSpace;
    var end := ChildFor(env, t, choice, workItemId, cycle);
    if end.Ended? {
      IdEchoes(end.result, choice);
    }
  }

  lemma AuthoringEchoes(env: Env, t: nat, choice: ToolChoice, workItemId: string, cycle: int)
    requires ChoiceCallId(choice) != ""
    ensures Echoes(AuthoringFor(env, t, choice, workItemId, cycle), choice, cycle)
  {
    hide ChoiceCallId, ResultCallId, TrimSpace, Blank, ChildFor;
    var end := AuthoringFor(env, t, choice, workItemId, cycle);
    if env.authoring(t).Planned? {
      ChildCycle(env, t, env.authoring(t).choice, workItemId, cycle);
    }
    if end.Ended? {
      IdEchoes(end.result, choice);
    }
  }

  lemma ChildCycle(env: Env, t: nat, choice: ToolChoice, workItemId: string, cycle: int)
    ensures var end := ChildFor(env, t, choice, workItemId, cycle); end.Ended? ==> end.result.cycle == cycle
  {
    hide ChoiceCallId, TrimSpace;
  }

  // ---- results of one cycle answer different calls -------------------------------------------

  predicate DistinctChoices(cs: seq<ToolChoice>) {
    && (forall i :: 0 <= i < |cs| ==> ChoiceCallId(cs[i]) != "")
    && forall i, j :: 0 <= i < j < |cs| ==> ChoiceCallId(cs[i]) != ChoiceCallId(cs[j])
  }

  // Every result answers a call, and no two results of one cycle answer the same.
  predicate CallsApart(results: seq<ToolResult>) {
    && (forall i :: 0 <= i < |results| ==> ResultCallId(results[i]) != "")
    && forall i, j :: 0 <= i < j < |results| && results[i].cycle == results[j].cycle ==>
      ResultCallId(results[i]) != ResultCallId(results[j])
  }

  // The results up to and with the running cycle; those of it answer the choices before i.
  predicate ApartSoFar(results: seq<ToolResult>, cycle: int, choices: seq<ToolChoice>, i: nat) {
    && CallsApart(results) && DistinctChoices(choices) && i <= |choices|
    && (forall k :: 0 <= k < |results| ==> results[k].cycle <= cycle)
    && (forall k, j :: 0 <= k < |results| && results[k].cycle == cycle && i <= j < |choices| ==>
          ResultCallId(results[k]) != ChoiceCallId(choices[j]))
  }

  predicate Before(results: seq<ToolResult>, cycle: int) {
    CallsApart(results) && forall k :: 0 <= k < |results| ==> results[k].cycle < cycle
  }

  ghost predicate IdsApart(w: World) {
    match w.phase
    case Opening => w.storedResults == []
    case Draining(cycle) => Before(w.storedResults, cycle)
    case Calling(cycle) => Before(w.storedResults, cycle)
    case Answered(cycle, next) => Before(w.storedResults, cycle)
        && (!IsTerminal(next) ==> DistinctChoices(next.choices))
    case Using(cycle, choices, _, i) => cycle <= MAX_CYCLES && ApartSoFar(w.storedResults, cycle, choices, i)
    case _ => CallsApart(w.storedResults)
  }

  lemma PreparedDistinct(env: Env, t: nat, request: Request)
    requires Cooperative(env)
    ensures var r := AnswerAt(env, t, request); r.Some? && !IsTerminal(r.value) ==> DistinctChoices(r.value.choices)
  {
    hide PreparedAll, ChoiceCallId, CleanedAll, FeedbackAll, Echoes, AnyRefused, AnyStopped, Trimmed, Blank;
    var reply := env.engine(t);
    PreparedIdsAre(reply.choices, reply.workItemId, reply.token);
  }

  lemma PreparedIdsAre(cs: seq<ToolChoice>, workItemId: string, token: string)
    requires Trimmed("toolu_" + token) && UsableIds(cs, token)
    ensures DistinctChoices(PreparedAll(cs, workItemId, token))
  {
    hide ChoiceCallId, Trimmed, Prepared;
    PreparedApartIff(cs, workItemId, token);
  }

  lemma ResultAnswers(results: seq<ToolResult>, cycle: int, choices: seq<ToolChoice>, i: nat, r: ToolResult)
    requires ApartSoFar(results, cycle, choices, i) && i < |choices|
    requires r.cycle == cycle && ResultCallId(r) == ChoiceCallId(choices[i])
    ensures ApartSoFar(results + [r], cycle, choices, i + 1) && Before(results + [r], cycle + 1)
  {
    hide ResultCallId, ChoiceCallId;
  }

  lemma ApartSoFarMeans(results: seq<ToolResult>, cycle: int, choices: seq<ToolChoice>, i: nat)
    requires ApartSoFar(results, cycle, choices, i)
    ensures CallsApart(results) && Before(results, cycle + 1)
  {
    hide ResultCallId, ChoiceCallId, DistinctChoices;
  }

  // A step either goes on with its result stored, or leads to an end with none.
  lemma StepOutcome(env: Env, w: World)
    requires w.phase.Using? && w.phase.index < |w.phase.choices|
    ensures var p := w.phase;
            var (v, end) := (AfterStep(env, w, p.cycle, p.choices, p.workItemId, p.index), StepIn(env, w).value);
            || (TaskLaws.Ending(v.phase) && v.storedResults == w.storedResults)
            || (end.Ended? && v.storedResults == w.storedResults + [end.result]
                && v.phase in {NextCycle(p.cycle), Using(p.cycle, p.choices, p.workItemId, p.index + 1)})
  {
    hide StepFor, MergeAll, Persist, RunsChild, Added, NextCycle;
  }

  lemma StepKeepsApart(env: Env, w: World)
    requires Cooperative(env) && w.phase.Using? && w.phase.index < |w.phase.choices| && IdsApart(w)
    ensures var p := w.phase; IdsApart(AfterStep(env, w, p.cycle, p.choices, p.workItemId, p.index))
  {
    hide Cooperative, StepFor, AfterStep, ResultCallId, ChoiceCallId, ApartSoFar, Before, CallsApart, NextCycle;
    var p := w.phase;
    ApartSoFarMeans(w.storedResults, p.cycle, p.choices, p.index);
    ChoiceHasId(w.storedResults, p.cycle, p.choices, p.index);
    StepEchoes(env, w.clock, p.choices[p.index], p.workItemId, p.cycle);
    StepOutcome(env, w);
    NextIs(p.cycle);
    var end := StepIn(env, w).value;
    if end.Ended? {
      ResultAnswers(w.storedResults, p.cycle, p.choices, p.index, end.result);
    }
  }

  lemma NextIs(cycle: int)
    requires cycle <= MAX_CYCLES
    ensures NextCycle(cycle) in {Draining(cycle + 1), Calling(cycle + 1)}
  {
  }

  lemma ChoiceHasId(results: seq<ToolResult>, cycle: int, choices: seq<ToolChoice>, i: nat)
    requires ApartSoFar(results, cycle, choices, i) && i < |choices|
    ensures ChoiceCallId(choices[i]) != ""
  {
    hide ChoiceCallId, CallsApart;
  }

  lemma LeavingApart(w: World)
    requires w.phase.Using? && IdsApart(w)
    ensures IdsApart(w.(phase := NextCycle(w.phase.cycle)))
  {
    var p := w.phase;
    ApartSoFarMeans(w.storedResults, p.cycle, p.choices, p.index);
    hide Before, ApartSoFar;
  }

  lemma AnswerApart(env: Env, w: World)
    requires w.phase.Answered? && IdsApart(w)
    ensures IdsApart(AfterAnswer(env, w, w.phase.cycle, w.phase.next))
  {
    hide ResultCallId, ChoiceCallId, Blank, IsTerminal;
  }

  lemma CallingApart(env: Env, w: World)
    requires Cooperative(env) && w.phase.Calling? && IdsApart(w)
    ensures IdsApart(AfterCalling(env, w, w.phase.cycle))
  {
    hide Cooperative, AnswerAt, DistinctChoices, CallsApart, IsTerminal;
    PreparedDistinct(env, w.clock, RequestOf(w, w.phase.cycle));
  }

  lemma OtherStepsApart(input: TaskInput, env: Env, w: World)
    requires IdsApart(w) && (w.phase.Opening? || w.phase.Draining? || w.phase.Concluding? || TaskLaws.Ending(w.phase))
    ensures IdsApart(Next(input, env, w))
  {
    StepStoresResult(input, env, w);
    StepLeads(input, env, w);
    hide Next, ResultCallId;
    assert w.storedResults + [] == w.storedResults;
  }

  lemma {:induction false} ResultsStayApart(input: TaskInput, env: Env, n: nat)
    requires Cooperative(env)
    ensures IdsApart(After(input, env, n))
  {
    hide Cooperative, Next;
    if n > 0 {
      ResultsStayApart(input, env, n - 1);
      hide IdsApart;
      NextKeepsApart(input, env, After(input, env, n - 1));
    }
  }

  lemma NextKeepsApart(input: TaskInput, env: Env, w: World)
    requires Cooperative(env) && IdsApart(w)
    ensures IdsApart(Next(input, env, w))
  {
    hide Cooperative, IdsApart, AfterCalling, AfterAnswer, AfterStep, AfterOpening, AfterDraining, AfterConcluding,
         AfterCleanup, StepFor;
    if w.phase.Calling? {
      CallingApart(env, w);
    } else if w.phase.Answered? {
      AnswerApart(env, w);
    } else if StepIn(env, w).Some? {
      StepKeepsApart(env, w);
    } else if w.phase.Using? {
      LeavingApart(w);
    } else {
      OtherStepsApart(input, env, w);
    }
  }

  lemma ApartIsApart(w: World)
    requires IdsApart(w)
    ensures CallsApart(w.storedResults)
  {
  }

  // ---- the transcript ----------------------------------------------------------------------------

  predicate ApartPerCycle(history: seq<Feedback>) {
    forall i, j :: 0 <= i < j < |history| && history[i].cycle == history[j].cycle ==>
      TranscriptBuilder.CallId(history[i]) != TranscriptBuilder.CallId(history[j])
  }

  lemma {:induction false} ApartMeansDistinct(history: seq<Feedback>)
    requires ApartPerCycle(history)
    ensures TranscriptBuilder.DistinctInGroups(history)
    decreases |history|
  {
    hide TranscriptBuilder.CallId;
    if history != [] {
      ApartMeansDistinct(history[TranscriptBuilder.GroupLength(history)..]);
    }
  }

  lemma FeedbackKeepsCycle(results: seq<ToolResult>)
    ensures forall i :: 0 <= i < |results| ==>
              FeedbackAll(results)[i].cycle == results[i].cycle && FeedbackAll(results)[i].tool == results[i].tool
              && TranscriptBuilder.CallId(FeedbackAll(results)[i]) == ResultCallId(results[i])
  {
    hide TranscriptBuilder.CallId;
  }

  // Results that answer different calls in each cycle build a transcript the validator
  // accepts, whatever plain messages stand around it.
  lemma ApartIsAccepted(reg: TranscriptBuilder.Registry, before: seq<Transcript.Message>, results: seq<ToolResult>,
        after: seq<Transcript.Message>)
    requires CallsApart(results) && TranscriptBuilder.NamesTools(reg)
    requires TranscriptBuilder.PlainMessages(before) && TranscriptBuilder.PlainMessages(after)
    requires forall i :: 0 <= i < |results| ==> reg.name(results[i].tool).Some?
    ensures TranscriptBuilder.AllUsable(reg, FeedbackAll(results))
    ensures Transcript.Grammatical(before + TranscriptBuilder.Exchanges(reg, FeedbackAll(results)) + after)
  {
    FeedbackKeepsCycle(results);
    hide ResultCallId, TranscriptBuilder.CallId, FeedbackAll, TranscriptBuilder.Exchanges, Transcript.Grammatical;
    ApartMeansDistinct(FeedbackAll(results));
    hide TranscriptBuilder.DistinctInGroups;
    TranscriptBuilder.BuiltAcceptedIff(reg, before, FeedbackAll(results), after);
  }

  // End to end: with cooperative engine and tools, every call that any run ever makes shows
  // a history whose transcript the validator accepts, if the tools used are supported.
  lemma EveryCallIsAccepted(input: TaskInput, env: Env, n: nat, k: nat, reg: TranscriptBuilder.Registry,
        before: seq<Transcript.Message>, after: seq<Transcript.Message>)
    requires Cooperative(env)
    requires k < |After(input, env, n).calls| && After(input, env, n).calls[k].Regular?
    requires TranscriptBuilder.NamesTools(reg) && TranscriptBuilder.PlainMessages(before)
             && TranscriptBuilder.PlainMessages(after)
    requires forall r :: r in After(input, env, n).storedResults ==> reg.name(r.tool).Some?
    ensures var call := After(input, env, n).calls[k];
            var shown := call.history + FeedbackAll(call.lastResults);
            TranscriptBuilder.AllUsable(reg, shown)
            && Transcript.Grammatical(before + TranscriptBuilder.Exchanges(reg, shown) + after)
  {
    hide Cooperative, After, FeedbackAll, TranscriptBuilder.AllUsable, TranscriptBuilder.Exchanges,
         Transcript.Grammatical, CallsApart, IdsApart, MadeBy;
    var m := EveryCallShowsEveryResult(input, env, n, k);
    ResultsStayApart(input, env, m);
    ApartIsApart(After(input, env, m));
    var stored := After(input, env, m).storedResults;
    assert forall i :: 0 <= i < |stored| ==> stored[i] == After(input, env, n).storedResults[i];
    ApartIsAccepted(reg, before, stored, after);
  }
}
