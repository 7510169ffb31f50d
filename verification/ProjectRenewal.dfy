// What becomes of a project workflow that continues as new.
module ProjectRenewal {
  import opened Text
  import opened Domain
  import opened Project
  import opened ProjectLaws

  // The snapshot keeps the count of processed events, so a renewed execution renews again:
  // nothing changes, and no other step is ever enabled.
  lemma RenewIsFinal(p: Params, steps: seq<Step>, w: World)
    requires Run(p, Initial, steps, w) && Enabled(p, w, Renew)
    ensures Next(p, w, Renew) == w
    ensures forall a :: Enabled(p, w, a) ==> a == Renew
  {
    hide Run, Inv;
    InitialInv(p);
    RunKeepsInv(p, Initial, steps, w);
    RenewLosesNothing(p, w);
  }

  // In every other state some other step is enabled.
  lemma OthersGoOn(p: Params, w: World, e: Event)
    requires !Enabled(p, w, Renew)
    ensures exists a :: a != Renew && Enabled(p, w, a)
  {
    hide WorkflowRunning, TaskWorkflowId;
    match w.phase
    case Flushing =>
      if w.s.pending != [] {
        assert Enabled(p, w, Deliver);
      } else {
        assert Enabled(p, w, BeginStarts);
      }
    case Launching(_) =>
      if CanStart(w.s) {
        assert Enabled(p, w, StartChild(false, ""));
      } else {
        assert Enabled(p, w, EndStarts);
      }
    case Blocked =>
      assert Enabled(p, w, Signal(e));
  }

  // A run is stuck in continue-as-new exactly when its reports are flushed, enough events
  // are processed, and no task is active at the start of a turn.
  lemma StuckIff(p: Params, steps: seq<Step>, w: World, e: Event)
    requires Run(p, Initial, steps, w)
    ensures (forall a :: Enabled(p, w, a) ==> a == Renew && Next(p, w, a) == w)
       <==> w.phase == Flushing && w.s.pending == [] && MayRenew(p, w.s)
  {
    hide Run, MayRenew, Next;
    if Enabled(p, w, Renew) {
      RenewIsFinal(p, steps, w);
    } else {
      OthersGoOn(p, w, e);
    }
    hide Enabled;
    assert Enabled(p, w, Renew) <==> w.phase == Flushing && w.s.pending == [] && MayRenew(p, w.s) by {
      RenewEnabled(p, w);
    }
  }

  lemma RenewEnabled(p: Params, w: World)
    ensures Enabled(p, w, Renew) <==> w.phase == Flushing && w.s.pending == [] && MayRenew(p, w.s)
  {
    hide MayRenew;
  }

  // ---- a run that gets there ------------------------------------------------------------

  const Once := Params("p", 1)
  const Hello := Event("e", OtherChannel("cli"), "", "", "", map[], "")

  // One message, whose task fails to start, then the same message again.
  const Stuck := [BeginStarts, EndStarts, Signal(Hello), BeginStarts, StartChild(false, "x"), EndStarts,
      Signal(Hello), Deliver]

  function Just(queue: seq<Event>, recent: seq<string>, processed: int, pending: seq<TaskResult>): State {
    State(queue, recent, processed, map[], map[], map[], pending)
  }

  lemma HelloIsQueued(h: History)
    ensures var (s, t) := (Just([], [], 0, []), Just([Hello], ["e"], 0, []));
            AfterSignal(s, Hello) == t && NotedSignal(s, h, Hello).delivered == h.delivered
  {
    HelloIsPlain();
    hide IsScheduledTask, IsResetCommand, IsOnboardingCommand, ControlAction, ReplyTo, TrimSpace;
    assert [] + [Hello] == [Hello] && [] + ["e"] == ["e"];
  }

  lemma HelloIsPlain()
    ensures !IsScheduledTask(Hello) && !IsResetCommand(Hello.body) && !IsOnboardingCommand(Hello.body)
    ensures ReplyTo(Hello) == "" && ControlAction(Hello) == NoControl && TrimSpace("e") == "e" && TrimSpace("") == ""
  {
    assert TrimSpace("") == "" && FirstField("") == "" && WithoutTarget("") == "" && Lower("") == "";
    assert TrimSpace("e") == "e";
    hide TrimSpace, FirstField, WithoutTarget, Lower;
  }

  lemma HelloIsRepeated(h: History, processed: int, pending: seq<TaskResult>)
    ensures var s := Just([], ["e"], processed, pending);
            AfterSignal(s, Hello) == s && NotedSignal(s, h, Hello) == h
  {
    HelloIsPlain();
    hide IsScheduledTask, IsResetCommand, IsOnboardingCommand, ControlAction, ReplyTo, TrimSpace, Decide;
  }

  // Continue-as-new is reached.
  lemma RenewIsReached() returns (w: World)
    ensures Run(Once, Initial, Stuck, w) && Enabled(Once, w, Renew)
  {
    hide Run, AfterSignal, NotedSignal, TaskWorkflowId, WorkflowRunning;
    var s1 := [] + [BeginStarts];
    var w1 := Taken(Initial, [], BeginStarts);
    var w2 := Taken(w1, s1, EndStarts);
    var s2 := s1 + [EndStarts];
    HelloIsQueued(w2.h);
    var w3 := Taken(w2, s2, Signal(Hello));
    var s3 := s2 + [Signal(Hello)];
    var w4 := Taken(w3, s3, BeginStarts);
    var s4 := s3 + [BeginStarts];
    var w5 := Taken(w4, s4, StartChild(false, "x"));
    var s5 := s4 + [StartChild(false, "x")];
    var w6 := Taken(w5, s5, EndStarts);
    var s6 := s5 + [EndStarts];
    HelloIsRepeated(w6.h, 1, w6.s.pending);
    var w7 := Taken(w6, s6, Signal(Hello));
    var s7 := s6 + [Signal(Hello)];
    w := Taken(w7, s7, Deliver);
    assert s7 + [Deliver] == Stuck;
  }

  lemma Taken(w: World, steps: seq<Step>, a: Step) returns (v: World)
    requires (steps == [] && w == Initial) || Run(Once, Initial, steps, w)
    requires Enabled(Once, w, a)
    ensures v == Next(Once, w, a) && Run(Once, Initial, steps + [a], v)
  {
    assert Run(Once, Initial, [], Initial);
    hide Run, Next, Enabled;
    v := Next(Once, w, a);
    RunOne(Once, w, a);
    RunConcat(Once, Initial, steps, w, [a], v);
  }
}
