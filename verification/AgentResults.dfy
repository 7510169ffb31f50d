// Where the tool results of an agent run go: which calls show them, and when they are lost.
module AgentResults {
  import opened Text
  import opened Domain
  import opened Signals
  import opened Processes
  import opened NextActionActivity
  import opened Compression
  import opened AgentMachine
  import opened AgentLaws

  // ---- the calls of a run ------------------------------------------------------------

  // The only step that makes a call is the one that asks for the next action.
  lemma StepCalls(input: AgentInput, env: AgentEnv, w: World)
    ensures Next(input, env, w).calls
         == if w.phase.Calling? then w.calls + [AgentCall(RequestOf(input, w, w.phase.turn), w.summary)] else w.calls
  {
    hide Persist, StepFor, Arrivals, AnswerAt, IsTerminal, Blank, Allowed, CompressedAt, MergeAll, Added, Annotated,
         AnnotatedChoice, CompletionChoice, NextTurn, RequestOf;
  }

  lemma {:induction false} CallWasMade(input: AgentInput, env: AgentEnv, n: nat, k: nat) returns (m: nat)
    requires k < |After(input, env, n).calls|
    ensures m < n && After(input, env, m).phase.Calling? && |After(input, env, m).calls| == k
    ensures var w := After(input, env, m);
            After(input, env, n).calls[k] == AgentCall(RequestOf(input, w, w.phase.turn), w.summary)
  {
    hide Next, RequestOf;
    var w := After(input, env, n - 1);
    StepCalls(input, env, w);
    if k < |w.calls| {
      m := CallWasMade(input, env, n - 1, k);
    } else {
      m := n - 1;
    }
  }

  // One call a turn, and the forced one after the last.
  predicate TurnCalls(input: AgentInput, calls: seq<AgentCall>, n: int) {
    |calls| == n <= Limit(input) + 1 && forall k :: 0 <= k < n ==>
      var r := calls[k].request; r.Regular? && r.cycle == k + 1 && (r.forceFinal <==> k == Limit(input))
  }

  predicate CallsSoFar(input: AgentInput, phase: Phase, calls: seq<AgentCall>) {
    match phase
    case Opening => calls == []
    case Beginning(turn) => 1 <= turn <= Limit(input) && TurnCalls(input, calls, turn - 1)
    case Compressing(turn) => 1 <= turn <= Limit(input) && TurnCalls(input, calls, turn - 1)
    case Calling(turn) => 1 <= turn <= Limit(input) + 1 && TurnCalls(input, calls, turn - 1)
    case Answered(turn, _) => 1 <= turn && TurnCalls(input, calls, turn)
    case Using(turn, _, _, _) => 1 <= turn <= Limit(input) && TurnCalls(input, calls, turn)
    case Completing(turn, _) => 1 <= turn && TurnCalls(input, calls, turn)
    case Over(_) => TurnCalls(input, calls, |calls|)
  }

  // Which phase may follow which.
  predicate Leads(input: AgentInput, from: Phase, to: Phase) {
    || to.Over?
    || match from
       case Opening => to == Beginning(1) && input.request.Some?
       case Beginning(turn) => to == Compressing(turn)
       case Compressing(turn) => to == Calling(turn)
       case Calling(turn) => to.Answered? && to.turn == turn
       case Answered(turn, _) => (to.Completing? || (to.Using? && turn <= Limit(input))) && to.turn == turn
       case Using(turn, _, _, _) => to == NextTurn(input, turn) || (to.Using? && to.turn == turn)
       case Completing(turn, _) => to == NextTurn(input, turn) && turn <= Limit(input)
       case Over(_) => false
  }

  lemma StepLeads(input: AgentInput, env: AgentEnv, w: World)
    ensures Leads(input, w.phase, Next(input, env, w).phase)
  {
    hide Persist, StepFor, Arrivals, AnswerAt, IsTerminal, Blank, Allowed, CompressedAt, MergeAll, Added, Annotated,
         AnnotatedChoice, CompletionChoice, NextTurn, Limit;
  }

  lemma TurnAdds(input: AgentInput, calls: seq<AgentCall>, call: AgentCall, turn: int)
    requires TurnCalls(input, calls, turn - 1) && call.request.Regular?
             && call.request.cycle == turn <= Limit(input) + 1
    requires call.request.forceFinal <==> turn > Limit(input)
    ensures TurnCalls(input, calls + [call], turn)
  {
    hide Limit;
  }

  lemma RequestIs(input: AgentInput, w: World)
    ensures w.phase.Calling? ==>
              var r := RequestOf(input, w, w.phase.turn);
              r.Regular? && r.cycle == w.phase.turn && (r.forceFinal <==> w.phase.turn > Limit(input))
  {
    hide Limit;
  }

  lemma PhaseKeepsOrder(input: AgentInput, from: Phase, calls: seq<AgentCall>, to: Phase)
    requires CallsSoFar(input, from, calls) && !from.Calling? && !from.Over? && Leads(input, from, to)
    ensures CallsSoFar(input, to, calls)
  {
    assert from.Opening? && input.request.Some? ==> Limit(input) >= 1;
    assert from.Opening? ==> TurnCalls(input, calls, 0);
    hide TurnCalls, Limit;
    assert TurnCalls(input, calls, |calls|) by { CountIs(input, from, calls); }
  }

  lemma CountIs(input: AgentInput, from: Phase, calls: seq<AgentCall>)
    requires CallsSoFar(input, from, calls)
    ensures TurnCalls(input, calls, |calls|)
  {
    hide Limit;
  }

  lemma {:induction false} CallsInOrder(input: AgentInput, env: AgentEnv, n: nat)
    ensures CallsSoFar(input, After(input, env, n).phase, After(input, env, n).calls)
  {
    hide Next, CallsSoFar, Leads, RequestOf;
    if n == 0 {
      NoCalls(input);
    } else {
      var w := After(input, env, n - 1);
      CallsInOrder(input, env, n - 1);
      StepCalls(input, env, w);
      StepLeads(input, env, w);
      if w.phase.Calling? {
        RequestIs(input, w);
        CallKeepsOrder(input, w.phase, w.calls, AgentCall(RequestOf(input, w, w.phase.turn), w.summary),
                       After(input, env, n).phase);
      } else if w.phase.Over? {
        OverStays(input, env, w);
      } else {
        PhaseKeepsOrder(input, w.phase, w.calls, After(input, env, n).phase);
      }
    }
  }

  lemma NoCalls(input: AgentInput)
    ensures CallsSoFar(input, Start(input).phase, Start(input).calls)
  {
  }

  lemma OverStays(input: AgentInput, env: AgentEnv, w: World)
    requires w.phase.Over?
    ensures Next(input, env, w) == w
  {
  }

  lemma CallKeepsOrder(input: AgentInput, from: Phase, calls: seq<AgentCall>, call: AgentCall, to: Phase)
    requires CallsSoFar(input, from, calls) && from.Calling? && Leads(input, from, to)
    requires call.request.Regular? && call.request.cycle == from.turn
    requires call.request.forceFinal <==> from.turn > Limit(input)
    ensures CallsSoFar(input, to, calls + [call])
  {
    TurnAdds(input, calls, call, from.turn);
    hide TurnCalls, Limit;
  }

  // ---- where results are -------------------------------------------------------------------

  // Every stored result is absorbed, waiting, or dropped, and if none is dropped the
  // absorbed and the waiting ones are the stored ones in order.
  predicate Balanced(stored: seq<ToolResult>, absorbed: seq<ToolResult>, last: seq<ToolResult>,
        dropped: seq<ToolResult>)
  {
    && multiset(stored) == multiset(absorbed) + multiset(last) + multiset(dropped)
    && (dropped == [] ==> stored == absorbed + last)
  }

  // At the end: what was absorbed and dropped are different stored results.
  predicate Accounted(stored: seq<ToolResult>, absorbed: seq<ToolResult>, dropped: seq<ToolResult>) {
    && multiset(absorbed) + multiset(dropped) <= multiset(stored)
    && (dropped == [] ==> absorbed <= stored)
  }

  // The results that wait for the next call.
  function Held(w: World): seq<ToolResult> {
    if w.phase.Answered? || w.phase.Completing? then [] else w.last
  }

  predicate ResultsBalanced(w: World, absorbed: seq<ToolResult>, dropped: seq<ToolResult>) {
    if w.phase.Over? then Accounted(w.storedResults, absorbed, dropped)
    else Balanced(w.storedResults, absorbed, Held(w), dropped)
  }

  lemma ResultStored(stored: seq<ToolResult>, absorbed: seq<ToolResult>, last: seq<ToolResult>,
        dropped: seq<ToolResult>, r: ToolResult)
    requires Balanced(stored, absorbed, last, dropped)
    ensures Balanced(stored + [r], absorbed, last + [r], dropped)
  {
    assert absorbed + last + [r] == absorbed + (last + [r]);
  }

  lemma ResultsMove(stored: seq<ToolResult>, absorbed: seq<ToolResult>, last: seq<ToolResult>, dropped: seq<ToolResult>)
    requires Balanced(stored, absorbed, last, dropped)
    ensures Balanced(stored, absorbed + last, [], dropped) && Balanced(stored, absorbed, [], dropped + last)
    ensures absorbed + [] == absorbed && dropped + [] == dropped
  {
    assert absorbed + last + [] == absorbed + last;
    assert last == [] ==> dropped + last == dropped && absorbed + [] == absorbed + last;
  }

  // How the results move in one step.
  lemma StepMoves(input: AgentInput, env: AgentEnv, w: World)
    ensures var (v, step) := (Next(input, env, w), StepIn(input, env, w));
            v.phase.Over? ||
            match w.phase
            case Beginning(_) => v.storedResults == w.storedResults
              && v.last == if Interrupted(env, w) then [] else w.last
            case Answered(_, _) => v.storedResults == w.storedResults && (v.phase.Completing? || v.last == [])
            case Completing(_, _) =>
              step.Some? && step.value.Ended? &&
              var r := Annotated(step.value.result, input.lineage);
              v.storedResults == w.storedResults + [r] && v.last == [r]
            case Using(_, _, _, _) =>
              if step.Some? && step.value.Ended? then
                var r := Annotated(step.value.result, input.lineage);
                v.storedResults == w.storedResults + [r] && v.last == w.last + [r]
              else v.storedResults == w.storedResults && v.last == w.last
            case _ => v.storedResults == w.storedResults && v.last == w.last
  {
    hide Persist, StepFor, Arrivals, AnswerAt, IsTerminal, Blank, Allowed, CompressedAt, MergeAll, Added, Annotated,
         AnnotatedChoice, CompletionChoice, NextTurn;
  }

  lemma CallingAbsorbs(input: AgentInput, env: AgentEnv, w: World)
    ensures AbsorbedIn(input, env, w) == if w.phase.Calling? && !Next(input, env, w).phase.Over? then w.last else []
    ensures DroppedIn(input, env, w) == if Interrupted(env, w) && !Next(input, env, w).phase.Over? then w.last else []
  {
    hide Persist, Arrivals, AnswerAt, MergeAll, Added, AfterStep, AfterCompleting, AfterAnswer, CompressedAt,
         RequestOf, NextTurn;
  }

  // A step that goes on stores and holds one more result, absorbs what was held, drops it,
  // or leaves everything where it is.
  predicate Moved(w: World, v: World, absorbed: seq<ToolResult>, dropped: seq<ToolResult>, r: Option<ToolResult>) {
    if r.Some? then
      && v.storedResults == w.storedResults + [r.value] && Held(v) == Held(w) + [r.value]
      && absorbed == [] && dropped == []
    else
      && v.storedResults == w.storedResults
      && ((absorbed == [] && dropped == [] && Held(v) == Held(w))
          || (absorbed == Held(w) && dropped == [] && Held(v) == [])
          || (absorbed == [] && dropped == Held(w) && Held(v) == []))
  }

  function StoredIn(input: AgentInput, env: AgentEnv, w: World): Option<ToolResult> {
    var step := StepIn(input, env, w);
    if step.Some? && step.value.Ended? then Some(Annotated(step.value.result, input.lineage)) else None
  }

  lemma StepHolds(input: AgentInput, env: AgentEnv, w: World)
    requires !Next(input, env, w).phase.Over?
    ensures Moved(w, Next(input, env, w), AbsorbedIn(input, env, w), DroppedIn(input, env, w), StoredIn(input, env, w))
  {
    StepMoves(input, env, w);
    StepLeads(input, env, w);
    CallingAbsorbs(input, env, w);
    NotInterrupted(env, w);
    OnlyToolsStep(input, env, w);
    hide Next, AbsorbedIn, DroppedIn, StepIn, Annotated, NextTurn, Limit, Interrupted;
    TurnIsNotOver(input, if w.phase.Using? || w.phase.Completing? then w.phase.turn else 0);
  }

  lemma OnlyToolsStep(input: AgentInput, env: AgentEnv, w: World)
    ensures StepIn(input, env, w).Some? ==> w.phase.Using? || w.phase.Completing?
  {
    hide StepFor;
  }

  lemma MovedBalances(w: World, v: World, absorbed: seq<ToolResult>, dropped: seq<ToolResult>,
        taken: seq<ToolResult>, lost: seq<ToolResult>, r: Option<ToolResult>)
    requires Balanced(w.storedResults, absorbed, Held(w), dropped) && Moved(w, v, taken, lost, r)
    ensures Balanced(v.storedResults, absorbed + taken, Held(v), dropped + lost)
  {
    ResultsMove(w.storedResults, absorbed, Held(w), dropped);
    if r.Some? {
      ResultStored(w.storedResults, absorbed, Held(w), dropped, r.value);
    }
    hide Balanced, Held;
  }

  // The step that ends a run absorbs and drops nothing.
  lemma EndAccounts(input: AgentInput, env: AgentEnv, w: World, absorbed: seq<ToolResult>, dropped: seq<ToolResult>)
    requires ResultsBalanced(w, absorbed, dropped) && Next(input, env, w).phase.Over?
    ensures AbsorbedIn(input, env, w) == [] && DroppedIn(input, env, w) == []
    ensures Accounted(Next(input, env, w).storedResults, absorbed, dropped)
  {
    CallingAbsorbs(input, env, w);
    StepStoresResult(input, env, w);
    if w.phase.Over? {
      OverStays(input, env, w);
    } else {
      hide Next, AbsorbedIn, DroppedIn, Interrupted, ResultMade;
      StoredAccounts(w.storedResults, absorbed, Held(w), dropped, ResultMade(input, env, w));
    }
  }

  lemma StoredAccounts(stored: seq<ToolResult>, absorbed: seq<ToolResult>, last: seq<ToolResult>,
        dropped: seq<ToolResult>, more: seq<ToolResult>)
    requires Balanced(stored, absorbed, last, dropped)
    ensures Accounted(stored, absorbed, dropped) && Accounted(stored + more, absorbed, dropped)
  {
    assert multiset(stored + more) == multiset(stored) + multiset(more);
  }

  lemma NotInterrupted(env: AgentEnv, w: World)
    ensures !w.phase.Beginning? ==> !Interrupted(env, w)
  {
  }

  lemma StepBalances(input: AgentInput, env: AgentEnv, w: World, absorbed: seq<ToolResult>, dropped: seq<ToolResult>)
    requires ResultsBalanced(w, absorbed, dropped)
    ensures ResultsBalanced(Next(input, env, w), absorbed + AbsorbedIn(input, env, w),
                            dropped + DroppedIn(input, env, w))
  {
    hide Balanced, Accounted, Held;
    if Next(input, env, w).phase.Over? {
      EndAccounts(input, env, w, absorbed, dropped);
      assert absorbed + [] == absorbed && dropped + [] == dropped;
    } else {
      StepHolds(input, env, w);
      assert !w.phase.Over?;
      hide Next, AbsorbedIn, DroppedIn, StoredIn, Moved;
      MovedBalances(w, Next(input, env, w), absorbed, dropped, AbsorbedIn(input, env, w), DroppedIn(input, env, w),
                    StoredIn(input, env, w));
    }
  }

  // Over every run: every stored result is absorbed into the observations, waiting for the
  // next call, or dropped by an interrupt.
  lemma {:induction false} ResultsAccounted(input: AgentInput, env: AgentEnv, n: nat)
    ensures ResultsBalanced(After(input, env, n), AbsorbedBy(input, env, n), DroppedBy(input, env, n))
  {
    hide Next, AbsorbedIn, DroppedIn;
    if n > 0 {
      ResultsAccounted(input, env, n - 1);
      hide ResultsBalanced;
      StepBalances(input, env, After(input, env, n - 1), AbsorbedBy(input, env, n - 1), DroppedBy(input, env, n - 1));
    }
  }

  // ---- what a call shows -----------------------------------------------------------------------

  // Every call of every run: the summarised part and the raw history make up everything
  // received, the results it brings are those stored and neither absorbed nor dropped, the
  // raw history fits unless the call is forced, and nothing known then is undone later.
  lemma EveryCallAccounts(input: AgentInput, env: AgentEnv, n: nat, k: nat) returns (m: nat)
    requires k < |After(input, env, n).calls|
    ensures m < n && |After(input, env, m).calls| == k && After(input, env, m).phase.Calling?
    ensures var (call, w) := (After(input, env, n).calls[k], After(input, env, m));
            && call.request.Regular?
            && Conserved(input.observations, SummarisedBy(input, env, m), call.request.history,
                AbsorbedBy(input, env, m))
            && Balanced(w.storedResults, AbsorbedBy(input, env, m), call.request.lastResults, DroppedBy(input, env, m))
            && (!call.request.forceFinal ==> Fits(input.limits, call.summary, call.request.history))
            && call.summary == SummaryBy(input, env, m)
            && w.storedResults <= After(input, env, n).storedResults
            && SummarisedBy(input, env, m) <= SummarisedBy(input, env, n)
            && AbsorbedBy(input, env, m) <= AbsorbedBy(input, env, n)
            && DroppedBy(input, env, m) <= DroppedBy(input, env, n)
  {
    hide After, SummarisedBy, SummaryBy, AbsorbedBy, DroppedBy, Conserved, Balanced, Fits;
    m := CallWasMade(input, env, n, k);
    ObservationsConserved(input, env, m);
    ResultsAccounted(input, env, m);
    EveryTurnFits(input, env, m);
    SummaryIsTheLast(input, env, m);
    SummaryOnlyGrows(input, env, m, n);
  }

  // Over is final, so a run that goes on after step j was not over before.
  lemma {:induction false} GoesOn(input: AgentInput, env: AgentEnv, j: nat, m: nat)
    requires j <= m && !After(input, env, m).phase.Over?
    ensures !After(input, env, j).phase.Over?
  {
    hide Next;
    if j < m {
      if After(input, env, m - 1).phase.Over? {
        OverStays(input, env, After(input, env, m - 1));
        assert false;
      }
      GoesOn(input, env, j, m - 1);
    }
  }

  // No turn has begun with an interrupt waiting and results on hand.
  ghost predicate NeverInterrupted(input: AgentInput, env: AgentEnv, m: nat) {
    forall j: nat :: j < m && Interrupted(env, After(input, env, j)) ==> After(input, env, j).last == []
  }

  lemma {:induction false} DroppedIff(input: AgentInput, env: AgentEnv, m: nat)
    requires !After(input, env, m).phase.Over?
    ensures DroppedBy(input, env, m) == [] <==> NeverInterrupted(input, env, m)
  {
    hide Next, Interrupted, DroppedIn, AbsorbedIn;
    if m > 0 {
      var w := After(input, env, m - 1);
      GoesOn(input, env, m - 1, m);
      DroppedIff(input, env, m - 1);
      CallingAbsorbs(input, env, w);
    }
  }

  // A call shows every stored result, once and in order, exactly when no turn before it
  // began with an interrupt waiting while results of the turn before waited.
  lemma LosslessIffNeverInterrupted(input: AgentInput, env: AgentEnv, n: nat, k: nat) returns (m: nat)
    requires k < |After(input, env, n).calls|
    ensures m < n && |After(input, env, m).calls| == k && After(input, env, m).phase.Calling?
    ensures var (call, stored) := (After(input, env, n).calls[k].request, After(input, env, m).storedResults);
            call.Regular? &&
            (SummarisedBy(input, env, m) + call.history + FeedbackAll(call.lastResults)
             == input.observations + FeedbackAll(stored)
             <==> NeverInterrupted(input, env, m))
  {
    hide After, SummarisedBy, SummaryBy, AbsorbedBy, DroppedBy, Conserved, Balanced, Fits, NeverInterrupted,
         FeedbackAll;
    m := EveryCallAccounts(input, env, n, k);
    DroppedIff(input, env, m);
    var (call, w) := (After(input, env, n).calls[k].request, After(input, env, m));
    ShownIff(input.observations, SummarisedBy(input, env, m), call.history, w.storedResults, AbsorbedBy(input, env, m),
             call.lastResults, DroppedBy(input, env, m));
  }

  lemma ShownIff(first: seq<Feedback>, summarised: seq<Feedback>, history: seq<Feedback>, stored: seq<ToolResult>,
        absorbed: seq<ToolResult>, last: seq<ToolResult>, dropped: seq<ToolResult>)
    requires Conserved(first, summarised, history, absorbed) && Balanced(stored, absorbed, last, dropped)
    ensures summarised + history + FeedbackAll(last) == first + FeedbackAll(stored) <==> dropped == []
  {
    hide AllTold;
    FeedbackConcat(absorbed, last);
    assert |multiset(stored)| == |multiset(absorbed) + multiset(last) + multiset(dropped)|;
    hide FeedbackOf;
    assert |summarised + history + FeedbackAll(last)| == |first| + |absorbed| + |last|;
    if dropped == [] {
      assert first + FeedbackAll(absorbed) + FeedbackAll(last) == first + FeedbackAll(stored);
    }
  }

  // A call made after m steps: where all observations and all stored results are by then.
  ghost predicate Accounts(input: AgentInput, env: AgentEnv, m: nat, k: nat, call: AgentCall) {
    && call.request.Regular? && |After(input, env, m).calls| == k
    && Conserved(input.observations, SummarisedBy(input, env, m), call.request.history, AbsorbedBy(input, env, m))
    && Balanced(After(input, env, m).storedResults, AbsorbedBy(input, env, m), call.request.lastResults,
                DroppedBy(input, env, m))
    && (DroppedBy(input, env, m) == [] <==> NeverInterrupted(input, env, m))
    && (!call.request.forceFinal ==> Fits(input.limits, call.summary, call.request.history))
    && call.summary == SummaryBy(input, env, m)
  }

  ghost predicate AccountsBefore(input: AgentInput, env: AgentEnv, n: nat, k: nat, call: AgentCall) {
    exists m: nat :: m < n && Accounts(input, env, m, k, call)
  }

  lemma CallsAccount(input: AgentInput, env: AgentEnv, n: nat)
    ensures var calls := After(input, env, n).calls;
            forall k :: 0 <= k < |calls| ==> AccountsBefore(input, env, n, k, calls[k])
  {
    hide After, SummarisedBy, SummaryBy, AbsorbedBy, DroppedBy, Conserved, Balanced, Fits, NeverInterrupted;
    var calls := After(input, env, n).calls;
    forall k | 0 <= k < |calls| ensures AccountsBefore(input, env, n, k, calls[k]) {
      var m := EveryCallAccounts(input, env, n, k);
      DroppedIff(input, env, m);
      assert Accounts(input, env, m, k, calls[k]);
    }
  }
}
