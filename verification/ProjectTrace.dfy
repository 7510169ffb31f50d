// What a run of the project scheduler sends, asks of the server and takes from outside, as
// functions of its steps.
module ProjectTrace {
  import opened Text
  import opened Domain
  import opened Project

  // What the workflow sends out.
  datatype Outgoing =
    | Report(result: TaskResult)
    | AdditionalContext(workflowId: string, event: Event)
    | Cancel(workflowId: string, event: Event)
    | Interrupt(workflowId: string, event: Event)

  // What a blocked workflow can wake up to.
  datatype Wakeup = Arrives(event: Event) | Ends(id: string, result: TaskResult)

  // The failure that the server reports for the n-th child start, if any.
  type StartOracle = nat -> Option<string>

  // What a failed start reports; a workflow id that is still running is the server's own refusal.
  function Failure(answer: Option<string>): string {
    if answer.Some? then answer.value else "workflow execution already started"
  }

  function ReportOf(r: TaskResult): seq<Outgoing> {
    if r.report && !(Blank(r.text) && r.attachments == []) then [Report(r)] else []
  }

  // The signals that a routing decision sends.
  function Sent(o: Outcome, e: Event): seq<Outgoing> {
    match o
    case Routed(owner, true) => [AdditionalContext(owner, WithControl(e, "task_reply"))]
    case Controlled(target, CancelTask) => if target == "" then [] else [Cancel(target, e)]
    case Controlled(target, InterruptTask) => if target == "" then [] else [Interrupt(target, e)]
    case _ => []
  }

  // ---- what a run sends ------------------------------------------------------------------

  ghost function OutOf(w: World, a: Step): seq<Outgoing> {
    match a
    case Deliver => if w.s.pending == [] then [] else ReportOf(w.s.pending[0])
    case Signal(e) => Sent(OutcomeOf(w.s, e), e)
    case _ => []
  }

  ghost function SentBy(p: Params, w: World, steps: seq<Step>): seq<Outgoing>
    decreases |steps|
  {
    if steps == [] || !Enabled(p, w, steps[0]) then []
    else OutOf(w, steps[0]) + SentBy(p, Next(p, w, steps[0]), steps[1..])
  }

  lemma {:induction false} SentByExtends(p: Params, w: World, steps: seq<Step>, w': World, a: Step)
    requires Run(p, w, steps, w') && Enabled(p, w', a)
    ensures SentBy(p, w, steps + [a]) == SentBy(p, w, steps) + OutOf(w', a)
    decreases |steps|
  {
    hide Next, Enabled, OutOf;
    if steps == [] {
      assert [a][1..] == [];
      assert OutOf(w', a) + [] == OutOf(w', a) && [] + OutOf(w', a) == OutOf(w', a);
    } else {
      var v := Next(p, w, steps[0]);
      assert (steps + [a])[1..] == steps[1..] + [a] && (steps + [a])[0] == steps[0];
      SentByExtends(p, v, steps[1..], w', a);
      assert OutOf(w, steps[0]) + (SentBy(p, v, steps[1..]) + OutOf(w', a))
          == OutOf(w, steps[0]) + SentBy(p, v, steps[1..]) + OutOf(w', a);
    }
  }

  // ---- what the server answers --------------------------------------------------------------

  function StartsIn(steps: seq<Step>): nat {
    if steps == [] then 0 else (if steps[0].StartChild? then 1 else 0) + StartsIn(steps[1..])
  }

  // A start succeeds exactly when the server says so and the workflow id is not running.
  ghost predicate StartObeys(p: Params, starts: StartOracle, w: World, a: Step, k: nat) {
    a.StartChild? && w.s.queue != [] ==>
      && a.ok == (starts(k) == None && !WorkflowRunning(w.s, TaskWorkflowId(p.projectId, w.s.queue[0].id)))
      && a.failure == Failure(starts(k))
  }

  ghost predicate Obeys(p: Params, starts: StartOracle, w: World, steps: seq<Step>, k: nat)
    decreases |steps|
  {
    steps == [] || !Enabled(p, w, steps[0]) ||
    (&& StartObeys(p, starts, w, steps[0], k)
     && Obeys(p, starts, Next(p, w, steps[0]), steps[1..], k + if steps[0].StartChild? then 1 else 0))
  }

  lemma {:induction false} ObeysExtends(p: Params, starts: StartOracle, w: World, steps: seq<Step>, w': World, a: Step,
        k: nat)
    requires Run(p, w, steps, w') && Enabled(p, w', a) && Obeys(p, starts, w, steps, k)
    requires StartObeys(p, starts, w', a, k + StartsIn(steps))
    ensures Obeys(p, starts, w, steps + [a], k)
    ensures StartsIn(steps + [a]) == StartsIn(steps) + if a.StartChild? then 1 else 0
    decreases |steps|
  {
    hide Next, Enabled, StartObeys;
    if steps == [] {
      assert [] + [a] == [a] && [a][1..] == [];
    } else {
      assert (steps + [a])[1..] == steps[1..] + [a] && (steps + [a])[0] == steps[0];
      ObeysExtends(p, starts, Next(p, w, steps[0]), steps[1..], w', a, k + if steps[0].StartChild? then 1 else 0);
    }
  }

  // ---- what a run takes from outside ----------------------------------------------------------

  predicate Internal(a: Step) {
    !a.Signal? && !a.Finish?
  }

  function StepOf(u: Wakeup): Step {
    match u
    case Arrives(e) => Signal(e)
    case Ends(id, result) => Finish(id, result)
  }

  // A child that is not active cannot end.
  predicate NotOffered(w: World, u: Wakeup) {
    w.phase == Blocked && u.Ends? && u.id !in w.s.active
  }

  // The steps from w on are the workflow's own and one for each wake-up, in order, but for
  // ends of tasks that were not active when their turn came.
  ghost predicate Handles(p: Params, w: World, steps: seq<Step>, ws: seq<Wakeup>)
    decreases |steps| + |ws|
  {
    || (steps == [] && ws == [])
    || (steps != [] && Enabled(p, w, steps[0]) && Internal(steps[0])
        && Handles(p, Next(p, w, steps[0]), steps[1..], ws))
    || (steps != [] && ws != [] && Enabled(p, w, steps[0]) && steps[0] == StepOf(ws[0])
        && Handles(p, Next(p, w, steps[0]), steps[1..], ws[1..]))
    || (ws != [] && NotOffered(w, ws[0]) && Handles(p, w, steps, ws[1..]))
  }

  // One more step of the workflow's own, or one more wake-up taken or not offered.
  predicate Adds(w: World, more: seq<Step>, us: seq<Wakeup>) {
    || (|more| == 1 && us == [] && Internal(more[0]))
    || (|more| == 1 && |us| == 1 && more[0] == StepOf(us[0]))
    || (more == [] && |us| == 1 && NotOffered(w, us[0]))
  }

  lemma {:induction false} HandlesAdds(p: Params, w: World, steps: seq<Step>, ws: seq<Wakeup>, w': World,
        more: seq<Step>, us: seq<Wakeup>)
    requires Run(p, w, steps, w') && Handles(p, w, steps, ws) && Adds(w', more, us)
    requires more != [] ==> Enabled(p, w', more[0])
    ensures Handles(p, w, steps + more, ws + us)
    decreases |steps| + |ws|
  {
    hide Next, Enabled;
    if steps != [] {
      assert (steps + more)[1..] == steps[1..] + more && (steps + more)[0] == steps[0];
    }
    if ws != [] {
      assert (ws + us)[1..] == ws[1..] + us && (ws + us)[0] == ws[0];
    }
    if steps == [] && ws == [] {
      assert steps + more == more && ws + us == us;
      AddsAlone(p, w', more, us);
    } else if steps != [] && Internal(steps[0]) && Handles(p, Next(p, w, steps[0]), steps[1..], ws) {
      HandlesAdds(p, Next(p, w, steps[0]), steps[1..], ws, w', more, us);
    } else if steps != [] && ws != [] && steps[0] == StepOf(ws[0])
        && Handles(p, Next(p, w, steps[0]), steps[1..], ws[1..]) {
      HandlesAdds(p, Next(p, w, steps[0]), steps[1..], ws[1..], w', more, us);
    } else {
      HandlesAdds(p, w, steps, ws[1..], w', more, us);
    }
  }

  lemma AddsAlone(p: Params, w: World, more: seq<Step>, us: seq<Wakeup>)
    requires Adds(w, more, us) && (more != [] ==> Enabled(p, w, more[0]))
    ensures Handles(p, w, more, us)
  {
    hide Next, Enabled, Internal, NotOffered;
    if more != [] {
      assert more[1..] == [];
      assert Handles(p, Next(p, w, more[0]), [], []);
    }
    if us != [] {
      assert us[1..] == [];
    }
    assert Handles(p, w, [], []);
  }

  // Many steps of the workflow's own.
  lemma {:induction false} HandlesOwn(p: Params, w: World, steps: seq<Step>, ws: seq<Wakeup>, w': World,
        more: seq<Step>, w'': World)
    requires Run(p, w, steps, w') && Handles(p, w, steps, ws) && Run(p, w', more, w'')
    requires forall k :: 0 <= k < |more| ==> Internal(more[k])
    ensures Handles(p, w, steps + more, ws) && Run(p, w, steps + more, w'')
    decreases |more|
  {
    hide Next, Enabled, Handles;
    RunConcat(p, w, steps, w', more, w'');
    if more == [] {
      assert steps + more == steps;
    } else {
      RunOne(p, w', more[0]);
      RunConcat(p, w, steps, w', [more[0]], Next(p, w', more[0]));
      HandlesAdds(p, w, steps, ws, w', [more[0]], []);
      assert ws + [] == ws && steps + more == steps + [more[0]] + more[1..];
      HandlesOwn(p, w, steps + [more[0]], ws, Next(p, w', more[0]), more[1..], w'');
    }
  }

  // The steps of a run after some first part lead from where that part led.
  lemma {:induction false} RunRest(p: Params, w: World, a: seq<Step>, m: World, b: seq<Step>, w': World)
    requires Run(p, w, a, m) && Run(p, w, a + b, w')
    ensures Run(p, m, b, w')
    decreases |a|
  {
    hide Next, Enabled;
    if a == [] {
      assert a + b == b;
    } else {
      assert (a + b)[1..] == a[1..] + b && (a + b)[0] == a[0];
      RunRest(p, Next(p, w, a[0]), a[1..], m, b, w');
    }
  }

  // Every turn of the loop renews the execution or looks for children to start, once.
  function TurnsIn(steps: seq<Step>): nat {
    if steps == [] then 0
    else TurnsIn(steps[..|steps| - 1]) + if steps[|steps| - 1].Renew? || steps[|steps| - 1].BeginStarts? then 1 else 0
  }

  lemma {:induction false} TurnsConcat(a: seq<Step>, b: seq<Step>)
    ensures TurnsIn(a + b) == TurnsIn(a) + TurnsIn(b)
    decreases |b|
  {
    if b == [] {
      assert a + b == a;
    } else {
      assert (a + b)[..|a + b| - 1] == a + b[..|b| - 1];
      TurnsConcat(a, b[..|b| - 1]);
    }
  }

  lemma {:induction false} NoTurns(steps: seq<Step>)
    requires forall k :: 0 <= k < |steps| ==> !steps[k].Renew? && !steps[k].BeginStarts?
    ensures TurnsIn(steps) == 0
    decreases |steps|
  {
    if steps != [] {
      NoTurns(steps[..|steps| - 1]);
    }
  }

  // ---- all of it -------------------------------------------------------------------------------

  // The steps lead to this world, what was sent is what they send, and the starts among them
  // are as the server answered.
  ghost predicate Traced(p: Params, starts: StartOracle, trace: seq<Step>, w: World, outbox: seq<Outgoing>,
        attempts: nat)
  {
    && Run(p, Initial, trace, w)
    && outbox == SentBy(p, Initial, trace)
    && Obeys(p, starts, Initial, trace, 0) && attempts == StartsIn(trace)
  }

  lemma TraceExtends(p: Params, starts: StartOracle, trace: seq<Step>, w: World, outbox: seq<Outgoing>, attempts: nat,
        a: Step)
    requires Traced(p, starts, trace, w, outbox, attempts) && Enabled(p, w, a) && StartObeys(p, starts, w, a, attempts)
    ensures Traced(p, starts, trace + [a], Next(p, w, a),
                   if a.Deliver? || a.Signal? then outbox + OutOf(w, a) else outbox,
                   attempts + if a.StartChild? then 1 else 0)
  {
    hide Next, Enabled, Run, SentBy, Obeys, StartObeys, StartsIn;
    RunOne(p, w, a);
    RunConcat(p, Initial, trace, w, [a], Next(p, w, a));
    SentByExtends(p, Initial, trace, w, a);
    ObeysExtends(p, starts, Initial, trace, w, a, 0);
    assert !a.Deliver? && !a.Signal? ==> outbox + OutOf(w, a) == outbox;
  }

  lemma NothingTraced(p: Params, starts: StartOracle)
    ensures Traced(p, starts, [], Initial, [], 0)
  {
  }
}
