// A run of an agent in which a stored result is never shown to the model: an interrupt
// waits when the turn after it begins.
module AgentWitness {
  import opened Text
  import opened Domain
  import opened Signals
  import opened Processes
  import opened NextActionActivity
  import opened Compression
  import opened AgentMachine
  import opened AgentLaws
  import AgentResults

  const Choice := ToolChoice("c", "exec", "", map[])
  const Result := ToolResult(1, "w", "c", "exec", "succeeded", "done", "", "", "0", map[], [])
  const Note := Event("", Discord, "", "", "", map[], "")

  const UsesTool := EngineReply(
    true, true, true, true, true, UseTools, [Choice], "w", "h", "", [], "", (_: nat) => StopError, "")
  const IsDone := EngineReply(
    true, true, true, true, true, Completed, [], "", "", "ok", [], "", (_: nat) => StopError, "")

  const Asked := AgentInput(
    Some(AgentRequest(["exec"], 2)), [], [], "", None, (_: int) => "", map[], Limits(0, 0, 0, (_: Feedback) => 0))

  // The only interrupt arrives at moment 6, when the second turn begins.
  const Met := AgentEnv(
    (_: nat) => true, (_: nat) => [], (_: nat) => [], (t: nat) => if t == 6 then [Note] else [],
    (_: nat) => true, (t: nat) => if t < 4 then UsesTool else IsDone, (_: nat) => NotConfigured,
    (_: nat, _: ToolChoice, _: int) => [Done(Result)])

  const Use := Prepared(Choice, "w", "h", "c")
  const FirstAnswer := ActionResult(UseTools, [], [Use], "w", "", [], [])
  const LastAnswer := ActionResult(Completed, [], [], "", "ok", [], [])

  function CallOf(turn: int): AgentCall {
    AgentCall(Regular([], [], [], [], turn, false), "")
  }

  function At(clock: nat, last: seq<ToolResult>, calls: seq<AgentCall>, stored: seq<ToolResult>, phase: Phase): World {
    World(clock, [], [], "", last, [], calls, [], stored, false, phase)
  }

  lemma Nothing()
    ensures SignalsOf(ContextSignal, []) == [] && SignalsOf(CancelSignal, []) == []
            && SignalsOf(InterruptSignal, []) == []
    ensures TrimSpace("") == "" && FeedbackAll([]) == [] && Added([]) == [] && Limit(Asked) == 2
  {
  }

  lemma ArrivalsAre(clock: nat)
    ensures Arrivals(Met, clock) == if clock == 6 then [TaskSignal(InterruptSignal, Note)] else []
    ensures Added(Arrivals(Met, clock)) == []
    ensures Persist(Arrivals(Met, clock), Met.stores, clock + 1) == Persisted(true, clock + 1, [])
  {
    Nothing();
    var note := [TaskSignal(InterruptSignal, Note)];
    assert SignalsOf(InterruptSignal, [Note]) == note && note[..0] == [] && note[1..] == [];
    assert Blank("");
    assert Arrivals(Met, clock) == if clock == 6 then note else [];
  }

  // A turn without results or signals waiting begins, compresses and asks.
  lemma TurnBegins(clock: nat, last: seq<ToolResult>, calls: seq<AgentCall>, stored: seq<ToolResult>, turn: int)
    requires clock == 6 || last == []
    ensures Next(Asked, Met, At(clock, last, calls, stored, Beginning(turn)))
         == At(clock + 1, [], calls, stored, Compressing(turn))
  {
    hide Persist, Arrivals, Added;
    ArrivalsAre(clock);
  }

  lemma TurnCompresses(clock: nat, calls: seq<AgentCall>, stored: seq<ToolResult>, turn: int)
    ensures Next(Asked, Met, At(clock, [], calls, stored, Compressing(turn)))
            == At(clock + 1, [], calls, stored, Calling(turn))
  {
    Nothing();
    NothingIsCompressed();
    hide CompressAgentObservations, TrimSpace, Asked;
  }

  lemma NothingIsCompressed()
    ensures CompressAgentObservations(Asked.limits, "", [], NotConfigured)
         == Some(Compressed(false, "", [], 0, SourceChars(Asked.limits, "", []), false))
  {
    Nothing();
    FewStay(Asked.limits, "", [], NotConfigured);
    hide CompressAgentObservations, SourceChars, TrimSpace, FeedbackAll, Added, SignalsOf;
  }

  lemma ToolsAreAsked(turn: int)
    ensures ActionFor(CallOf(turn).request, UsesTool) == Some(FirstAnswer)
  {
    Nothing();
    ChoiceIsPrepared();
    hide PreparedAll, TrimSpace;
  }

  lemma ChoiceIsPrepared()
    ensures PreparedAll([Choice], "w", "h") == [Use] && !Blank("w")
  {
    assert OwnIds([Choice]) == ["c"] by { assert TrimSpace("c") == "c"; }
  }

  lemma EndIsAsked(turn: int)
    ensures ActionFor(CallOf(turn).request, IsDone) == Some(LastAnswer)
  {
    Nothing();
    assert !Blank("ok");
    assert CleanedAll([], (_: nat) => StopError) == [];
    hide PreparedAll, TrimSpace;
  }

  lemma TurnAsks(clock: nat, calls: seq<AgentCall>, stored: seq<ToolResult>, turn: int)
    requires turn <= 2
    ensures var answer := if clock < 4 then FirstAnswer else LastAnswer;
            Next(Asked, Met, At(clock, [], calls, stored, Calling(turn)))
            == At(clock + 1, [], calls + [CallOf(turn)], stored, Answered(turn, answer))
  {
    Nothing();
    ToolsAreAsked(turn);
    EndIsAsked(turn);
    hide ActionFor;
    assert MergeAll(false, [], []) == [];
  }

  lemma ToolsBegin()
    ensures Next(Asked, Met, At(3, [], [CallOf(1)], [], Answered(1, FirstAnswer)))
         == At(4, [], [CallOf(1)], [], Using(1, [Use], "w", 0))
  {
    Nothing();
    assert !Blank("w");
    hide Use, TrimSpace;
  }

  lemma ToolIsUsed()
    ensures Next(Asked, Met, At(4, [], [CallOf(1)], [], Using(1, [Use], "w", 0)))
         == At(6, [Result], [CallOf(1)], [Result], Using(1, [Use], "w", 1))
  {
    Nothing();
    assert AnnotatedChoice(Use, map[]) == Use && Annotated(Result, map[]) == Result && Use.tool == "exec";
    StepAnswers();
    hide ToolStepEnd, TrimSpace, AnnotatedChoice, Annotated;
    assert MergeAll(false, [], []) == [];
  }

  lemma ToolsEnd()
    ensures Next(Asked, Met, At(6, [Result], [CallOf(1)], [Result], Using(1, [Use], "w", 1)))
         == At(6, [Result], [CallOf(1)], [Result], Beginning(2))
  {
    Nothing();
  }

  lemma StepAnswers()
    ensures ToolStepEnd(Use, "w", 1, [Done(Result)]) == Ended(Result, false, false, [])
  {
    var ws := [Done(Result)];
    ToolWaitAt(ws, 0);
    assert ws[..1] == ws && ws[..0] == [] && SignalsIn(ws) == [] && !Cancels(ws);
  }

  lemma RunEnds()
    ensures Next(Asked, Met, At(9, [], [CallOf(1), CallOf(2)], [Result], Answered(2, LastAnswer)))
         == At(10, [], [CallOf(1), CallOf(2)], [Result], Over(Returned("succeeded", 2, [])))
  {
  }

  // One result is stored, the run succeeds, and no call shows anything.
  lemma ResultIsLost()
    ensures var w := After(Asked, Met, 11);
            && w.phase == Over(Returned("succeeded", 2, [])) && w.storedResults == [Result]
            && |w.calls| == 2
            && (forall k :: 0 <= k < 2 ==> w.calls[k].request.Regular? && w.calls[k].request.history == []
                                            && w.calls[k].request.lastResults == [])
  {
    hide Next;
    Nothing();
    assert After(Asked, Met, 0) == At(0, [], [], [], Opening);
    assert After(Asked, Met, 1) == At(0, [], [], [], Beginning(1)) by { RunOpens(); }
    TurnBegins(0, [], [], [], 1);
    assert After(Asked, Met, 2) == At(1, [], [], [], Compressing(1));
    TurnCompresses(1, [], [], 1);
    assert After(Asked, Met, 3) == At(2, [], [], [], Calling(1));
    TurnAsks(2, [], [], 1);
    assert After(Asked, Met, 4) == At(3, [], [CallOf(1)], [], Answered(1, FirstAnswer));
    ToolsBegin();
    ToolIsUsed();
    ToolsEnd();
    assert After(Asked, Met, 5) == At(4, [], [CallOf(1)], [], Using(1, [Use], "w", 0));
    assert After(Asked, Met, 6) == At(6, [Result], [CallOf(1)], [Result], Using(1, [Use], "w", 1));
    assert After(Asked, Met, 7) == At(6, [Result], [CallOf(1)], [Result], Beginning(2));
    TurnBegins(6, [Result], [CallOf(1)], [Result], 2);
    assert After(Asked, Met, 8) == At(7, [], [CallOf(1)], [Result], Compressing(2));
    TurnCompresses(7, [CallOf(1)], [Result], 2);
    assert After(Asked, Met, 9) == At(8, [], [CallOf(1)], [Result], Calling(2));
    TurnAsks(8, [CallOf(1)], [Result], 2);
    assert After(Asked, Met, 10) == At(9, [], [CallOf(1), CallOf(2)], [Result], Answered(2, LastAnswer));
    RunEnds();
  }

  lemma RunOpens()
    ensures Next(Asked, Met, At(0, [], [], [], Opening)) == At(0, [], [], [], Beginning(1))
  {
  }
}
