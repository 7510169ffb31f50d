// The project workflow as the program runs it: fields updated in place, proved to take
// exactly the steps of the machine in Project.
module ProjectWorkflow {
  import opened Text
  import opened Domain
  import opened Project
  import opened ProjectLaws
  import opened ProjectTrace

  function ReportsOf(rs: seq<TaskResult>): seq<Outgoing> {
    if rs == [] then [] else ReportOf(rs[0]) + ReportsOf(rs[1..])
  }

  function Delivers(n: nat): (d: seq<Step>)
    ensures |d| == n
  {
    seq(n, _ => Deliver)
  }

  class ProjectWorkflow {
    const p: Params
    const starts: StartOracle

    var queue: seq<Event>
    var recentEventIds: seq<string>
    var processedEvents: int
    var active: map<string, ActiveTask>
    var messageOwners: map<string, string>
    var threadOwners: map<string, string>
    var pendingReports: seq<TaskResult>
    var outbox: seq<Outgoing>
    var attempts: nat

    ghost var history: History
    ghost var phase: Phase
    ghost var trace: seq<Step>

    function S(): State
      reads this
    {
      State(queue, recentEventIds, processedEvents, active, messageOwners, threadOwners, pendingReports)
    }

    ghost function W(): World
      reads this
    {
      World(S(), history, phase)
    }

    // The fields are the state that the recorded steps lead to, the outbox is what they have
    // sent, and the starts among them are as the server answered.
    ghost predicate Valid()
      reads this
    {
      Traced(p, starts, trace, W(), outbox, attempts)
    }

    constructor (p: Params, starts: StartOracle)
      ensures Valid() && W() == Initial && trace == [] && outbox == []
      ensures this.p == p && this.starts == starts
    {
      this.p, this.starts := p, starts;
      queue, recentEventIds, processedEvents, pendingReports := [], [], 0, [];
      active, messageOwners, threadOwners := map[], map[], map[];
      outbox, attempts := [], 0;
      history, phase, trace := Initial.h, Flushing, [];
      new;
      NothingTraced(p, starts);
    }

    // ---- reports ------------------------------------------------------------------

    method FlushReports()
      requires Valid() && phase == Flushing
      modifies `pendingReports, `outbox, `history, `trace
      ensures Valid() && pendingReports == []
      ensures trace == old(trace) + Delivers(|old(pendingReports)|)
      ensures outbox == old(outbox) + ReportsOf(old(pendingReports))
      ensures history == old(history).(delivered := old(history).delivered + old(pendingReports))
    {
      hide Valid, ReportOf;
      ghost var n := 0;
      ghost var all := pendingReports;
      while pendingReports != []
        invariant Valid()
        invariant n <= |all| && pendingReports == all[n..]
        invariant trace == old(trace) + Delivers(n)
        invariant outbox + ReportsOf(all[n..]) == old(outbox) + ReportsOf(all)
        invariant history == old(history).(delivered := old(history).delivered + all[..n])
        decreases |pendingReports|
      {
        DeliverReport();
        assert all[..n + 1] == all[..n] + [all[n]];
        assert all[n..][0] == all[n] && all[n..][1..] == all[n + 1..];
        assert Delivers(n + 1) == Delivers(n) + [Deliver];
        n := n + 1;
      }
      assert all[..n] == all;
    }

    // Hands the first pending report over; an empty one sends nothing.
    method DeliverReport()
      requires Valid() && phase == Flushing && pendingReports != []
      modifies `pendingReports, `outbox, `history, `trace
      ensures Valid() && trace == old(trace) + [Deliver]
      ensures pendingReports == old(pendingReports)[1..]
      ensures outbox == old(outbox) + ReportOf(old(pendingReports)[0])
      ensures history == old(history).(delivered := old(history).delivered + [old(pendingReports)[0]])
    {
      hide Traced, StartObeys, ReportsOf;
      NoStart(p, starts, W(), Deliver, attempts);
      assert outbox + [] == outbox;
      TraceExtends(p, starts, trace, W(), outbox, attempts, Deliver);
      var report := pendingReports[0];
      pendingReports := pendingReports[1..];
      if report.report && !(Blank(report.text) && report.attachments == []) {
        outbox := outbox + [Report(report)];
      }
      history := history.(delivered := history.delivered + [report]);
      trace := trace + [Deliver];
    }

    // ---- continue-as-new -------------------------------------------------------------

    method TryContinueAsNew() returns (renewed: bool)
      requires Valid() && phase == Flushing && pendingReports == []
      modifies this
      ensures Valid() && phase == Flushing
      ensures renewed == MayRenew(p, old(S()))
      ensures S() == old(S()) && history == old(history) && outbox == old(outbox) && attempts == old(attempts)
      ensures trace == old(trace) + if renewed then [Renew] else []
    {
      hide Traced, StartObeys, Run, Inv, Resumed;
      renewed := p.renewAfter > 0 && processedEvents >= p.renewAfter && |active| == 0;
      if renewed {
        ghost var before := W();
        TracedKeepsInv(p, starts, trace, before, outbox, attempts);
        NoStart(p, starts, before, Renew, attempts);
        TraceExtends(p, starts, trace, before, outbox, attempts, Renew);
        RenewLosesNothing(p, before);
        Restart(Snapshot(queue, recentEventIds, processedEvents));
        trace := trace + [Renew];
      }
    }

    // A new execution starts from the snapshot, with fresh maps and no pending report.
    method Restart(snapshot: Snapshot)
      modifies `queue, `recentEventIds, `processedEvents, `active, `messageOwners, `threadOwners, `pendingReports
      ensures S() == Resumed(snapshot)
    {
      hide TrimRecent;
      queue, processedEvents := snapshot.queue, snapshot.processed;
      recentEventIds := TrimRecentIds(snapshot.recent);
      active, messageOwners, threadOwners, pendingReports := map[], map[], map[], [];
    }

    static method TrimRecentIds(ids: seq<string>) returns (r: seq<string>)
      ensures r == TrimRecent(ids)
    {
      if |ids| <= RECENT_LIMIT {
        return ids;
      }
      var start := |ids| - RECENT_LIMIT;
      r := ids[start..];
    }

    // ---- child tasks -------------------------------------------------------------------

    method IsRunning(workflowId: string) returns (r: bool)
      ensures r == WorkflowRunning(S(), workflowId)
    {
      r := exists id :: id in active && active[id].workflowId == workflowId;
    }

    // Starts queued events until four tasks are active or the queue is empty. A start
    // fails when the server says so, and whenever the workflow id is still running.
    method StartChildren() returns (started: bool)
      requires Valid() && phase == Flushing && pendingReports == [] && !MayRenew(p, S())
      modifies this
      ensures Valid() && phase == (if started then Flushing else Blocked)
      ensures outbox == old(outbox) && recentEventIds == old(recentEventIds)
      ensures history.taken <= history.enqueued && old(history).taken <= history.taken
      ensures |trace| >= |old(trace)| + 2 && old(trace) + [BeginStarts] <= trace && trace[|trace| - 1] == EndStarts
      ensures forall k :: |old(trace)| < k < |trace| - 1 ==> trace[k].StartChild?
      ensures !CanStart(S())
    {
      hide Traced, StartObeys, Run, Inv, AfterStart, NotedStart, TaskWorkflowId, Register, WorkflowRunning, Failure;
      started := false;
      NoStart(p, starts, W(), BeginStarts, attempts);
      TraceExtends(p, starts, trace, W(), outbox, attempts, BeginStarts);
      trace := trace + [BeginStarts];
      phase := Launching(false);
      while |active| < MAX_ACTIVE && queue != []
        invariant Valid() && phase == Launching(started)
        invariant outbox == old(outbox) && recentEventIds == old(recentEventIds)
        invariant old(history).taken <= history.taken && old(trace) + [BeginStarts] <= trace
        invariant forall k :: |old(trace)| < k < |trace| ==> trace[k].StartChild?
        decreases |queue|
      {
        ghost var s0, h0, n := S(), history, attempts;
        var s := StartNext();
        NotedStartTakes(p, s0, h0, s, Failure(starts(n)));
        started := started || s;
      }
      NoStart(p, starts, W(), EndStarts, attempts);
      TraceExtends(p, starts, trace, W(), outbox, attempts, EndStarts);
      trace := trace + [EndStarts];
      phase := if started then Flushing else Blocked;
      TracedKeepsInv(p, starts, trace, W(), outbox, attempts);
      InvGivesOrder(p, W());
    }

    method StartNext() returns (ok: bool)
      requires Valid() && phase.Launching? && CanStart(S())
      modifies this
      ensures Valid() && phase == Launching(old(phase).started || ok)
      ensures attempts == old(attempts) + 1 && outbox == old(outbox) && recentEventIds == old(recentEventIds)
      ensures ok == (starts(old(attempts)) == None
                     && !WorkflowRunning(old(S()), TaskWorkflowId(p.projectId, old(queue)[0].id)))
      ensures trace == old(trace) + [StartChild(ok, Failure(starts(old(attempts))))]
      ensures S() == AfterStart(p, old(S()), ok, Failure(starts(old(attempts))))
      ensures queue == old(queue)[1..]
      ensures history == NotedStart(p, old(S()), old(history), ok, Failure(starts(old(attempts))))
    {
      hide Traced, Run, Next, Enabled, TaskWorkflowId, AfterStart, NotedStart, WorkflowRunning;
      ghost var before := W();
      ghost var failure := Failure(starts(attempts));
      ok := StartOrFail();
      NextStart(p, before, ok, failure);
      TraceExtends(p, starts, trace, before, outbox, old(attempts), StartChild(ok, failure));
      history := NotedStart(p, before.s, history, ok, failure);
      trace := trace + [StartChild(ok, failure)];
      phase := Launching(phase.started || ok);
    }

    method StartOrFail() returns (ok: bool)
      requires queue != []
      modifies `queue, `active, `messageOwners, `threadOwners, `pendingReports, `processedEvents, `attempts
      ensures attempts == old(attempts) + 1 && queue == old(queue)[1..]
      ensures ok == (starts(old(attempts)) == None
                     && !WorkflowRunning(old(S()), TaskWorkflowId(p.projectId, old(queue)[0].id)))
      ensures S() == AfterStart(p, old(S()), ok, Failure(starts(old(attempts))))
      ensures !ok ==>
                var failure := if starts(old(attempts)).Some? then starts(old(attempts)).value
                               else "workflow execution already started";
                pendingReports == old(pendingReports) + [TaskResult(old(queue)[0], true, failure, [])]
    {
      hide TaskWorkflowId, Register, WorkflowRunning;
      var event := queue[0];
      var workflowId := TaskWorkflowId(p.projectId, event.id);
      var running := IsRunning(workflowId);
      var answer := starts(attempts);
      queue := queue[1..];
      attempts := attempts + 1;
      ok := answer == None && !running;
      if !ok {
        pendingReports := pendingReports + [FailedResult(event, Failure(answer))];
        processedEvents := processedEvents + 1;
        return;
      }
      active := active[event.id := ActiveTask(event, workflowId)];
      RegisterOwnership(event, workflowId);
    }

    method RegisterOwnership(event: Event, owner: string)
      modifies `messageOwners, `threadOwners
      ensures S() == Register(old(S()), event, owner)
    {
      hide TrimSpace, ThreadOwnerKey;
      var o := TrimSpace(owner);
      RegisterMessageOwner(TrimSpace(event.sourceId), o);
      RegisterThreadOwner(event.channelId, event.threadId, o);
      if TrimSpace(event.threadId) != "" && TrimSpace(event.channelId) == TrimSpace(event.threadId) {
        RegisterThreadOwner(event.channelId, event.channelId, o);
      }
    }

    method RegisterMessageOwner(messageId: string, owner: string)
      modifies `messageOwners
      ensures messageOwners == if messageId == "" || owner == "" then old(messageOwners)
                               else old(messageOwners)[messageId := owner]
    {
      if messageId != "" && owner != "" {
        messageOwners := messageOwners[messageId := owner];
      }
    }

    method RegisterThreadOwner(channelId: string, threadId: string, owner: string)
      modifies `threadOwners
      ensures threadOwners == if Blank(threadId) || owner == "" then old(threadOwners)
                              else old(threadOwners)[ThreadOwnerKey(channelId, threadId) := owner]
    {
      if TrimSpace(threadId) != "" && owner != "" {
        threadOwners := threadOwners[ThreadOwnerKey(channelId, threadId) := owner];
      }
    }

    // ---- a signal ------------------------------------------------------------------------

    // Whether the id was seen before; a fresh non-blank one is remembered.
    method RememberEventId(event: Event) returns (seen: bool)
      modifies `recentEventIds
      ensures seen == IsDuplicate(old(S()), event)
      ensures S() == if seen then old(S()) else Remembered(old(S()), event)
    {
      hide TrimSpace;
      var id := TrimSpace(event.id);
      if id == "" {
        return false;
      }
      for i := 0 to |recentEventIds|
        invariant id !in recentEventIds[..i]
      {
        if recentEventIds[i] == id {
          return true;
        }
      }
      assert recentEventIds[..|recentEventIds|] == recentEventIds;
      recentEventIds := TrimRecentIds(recentEventIds + [id]);
      seen := false;
    }

    method ScheduledTaskOverlaps(event: Event) returns (r: bool)
      ensures r == Overlaps(S(), event)
    {
      hide ScheduleId;
      var scheduleId := ScheduleId(event);
      if scheduleId == "" {
        return false;
      }
      for i := 0 to |queue|
        invariant forall k :: 0 <= k < i ==> ScheduleId(queue[k]) != scheduleId
      {
        if ScheduleId(queue[i]) == scheduleId {
          return true;
        }
      }
      var left := active.Keys;
      while left != {}
        invariant left <= active.Keys
        invariant forall id :: id in active && id !in left ==> ScheduleId(active[id].event) != scheduleId
        decreases |left|
      {
        var id :| id in left;
        if ScheduleId(active[id].event) == scheduleId {
          return true;
        }
        left := left - {id};
      }
      r := false;
    }

    // The task that comes first in the order of event ids.
    method FirstActive() returns (workflowId: string)
      ensures workflowId == FirstWorkflowId(active)
    {
      if active.Keys == {} {
        return "";
      }
      var first :| first in active.Keys;
      StringLeTotal(first, first);
      var left := active.Keys - {first};
      while left != {}
        invariant left <= active.Keys && IsFirst(active.Keys - left, first)
        decreases |left|
      {
        var id :| id in left;
        ghost var done := active.Keys - left;
        StringLeTotal(id, first);
        if !StringLe(first, id) {
          forall j | j in done ensures StringLe(id, j) {
            StringLeTransitive(id, first, j);
          }
          StringLeTotal(id, id);
          first := id;
        }
        left := left - {id};
        assert active.Keys - left == done + {id};
      }
      assert active.Keys - left == active.Keys;
      FirstIsUnique(active, first);
      workflowId := active[first].workflowId;
    }

    method HandleProjectEventSignal(event: Event)
      requires Valid() && phase == Blocked
      modifies this
      ensures Valid() && phase == Flushing && W() == Next(p, old(W()), Signal(event))
              && trace == old(trace) + [Signal(event)]
      ensures outbox == old(outbox) + OutOf(old(W()), Signal(event))
      ensures attempts == old(attempts)
    {
      hide Traced, StartObeys, NotedSignal, AfterSignal, OutcomeOf;
      ghost var before := W();
      NoStart(p, starts, before, Signal(event), attempts);
      TraceExtends(p, starts, trace, before, outbox, attempts, Signal(event));
      RouteEvent(event);
      history := NotedSignal(before.s, before.h, event);
      phase := Flushing;
      trace := trace + [Signal(event)];
    }

    // Remembers the event, then queues it, hands it to the task that owns what it answers,
    // or uses it to control the first active task.
    method RouteEvent(event: Event)
      modifies `queue, `recentEventIds, `messageOwners, `threadOwners, `outbox
      ensures S() == AfterSignal(old(S()), event)
      ensures outbox == old(outbox) + Sent(OutcomeOf(old(S()), event), event)
    {
      hide Remembered, Register, IsDuplicate, OwnerByReply, OwnerByThread, IsScheduledTask, Overlaps, IsResetCommand,
           IsOnboardingCommand, IsStandalone, ControlAction, FirstWorkflowId, Blank, TrimSpace;
      ghost var before := S();
      RememberedShape(before, event);
      var seen := RememberEventId(event);
      if seen {
        return;
      }
      SameDecision(before, S(), event);
      if IsScheduledTask(event) {
        var overlaps := ScheduledTaskOverlaps(event);
        if !overlaps {
          queue := queue + [event];
        }
        return;
      }
      if IsResetCommand(event.body) || IsOnboardingCommand(event.body) {
        queue := queue + [event];
        return;
      }
      var owner := OwnerByReply(messageOwners, event);
      if owner == "" {
        owner := OwnerByThread(threadOwners, event);
      }
      if owner != "" {
        RegisterOwnership(event, owner);
        if !Blank(event.body) {
          outbox := outbox + [AdditionalContext(owner, WithControl(event, "task_reply"))];
        }
        return;
      }
      if IsStandalone(event) {
        queue := queue + [event];
        return;
      }
      var target := FirstActive();
      match ControlAction(event) {
        case CancelTask =>
          if target != "" {
            outbox := outbox + [Cancel(target, event)];
          }
        case InterruptTask =>
          if target != "" {
            outbox := outbox + [Interrupt(target, event)];
          }
        case NoControl =>
          queue := queue + [event];
      }
    }

    // ---- a child's end ---------------------------------------------------------------------

    method ClearOwnership(workflowId: string)
      modifies `messageOwners, `threadOwners
      ensures messageOwners == Cleared(old(messageOwners), workflowId)
      ensures threadOwners == Cleared(old(threadOwners), workflowId)
    {
      var o := TrimSpace(workflowId);
      if o == "" {
        return;
      }
      messageOwners := DeleteOwner(messageOwners, o);
      threadOwners := DeleteOwner(threadOwners, o);
    }

    static method DeleteOwner(owners: map<string, string>, owner: string) returns (kept: map<string, string>)
      ensures kept == Without(owners, owner)
    {
      kept := owners;
      var left := owners.Keys;
      while left != {}
        invariant left <= owners.Keys
        invariant kept == map k | k in owners && (k in left || owners[k] != owner) :: owners[k]
        decreases |left|
      {
        var k :| k in left;
        if owners[k] == owner {
          kept := kept - {k};
        }
        left := left - {k};
      }
    }

    method FinishTask(id: string, result: TaskResult)
      requires Valid() && phase == Blocked && id in active
      modifies this
      ensures Valid() && phase == Flushing && W() == Next(p, old(W()), Finish(id, result))
      ensures trace == old(trace) + [Finish(id, result)]
      ensures outbox == old(outbox) && attempts == old(attempts)
    {
      hide Traced, StartObeys, AfterFinish;
      ghost var before := W();
      NoStart(p, starts, before, Finish(id, result), attempts);
      TraceExtends(p, starts, trace, before, outbox, attempts, Finish(id, result));
      EndTask(id, result);
      if result.report {
        history := history.(produced := history.produced + [result]);
      }
      phase := Flushing;
      trace := trace + [Finish(id, result)];
    }

    method EndTask(id: string, result: TaskResult)
      requires id in active
      modifies `active, `messageOwners, `threadOwners, `pendingReports, `processedEvents
      ensures S() == AfterFinish(old(S()), id, result)
    {
      hide Cleared;
      if result.report {
        pendingReports := pendingReports + [result];
      }
      ClearOwnership(active[id].workflowId);
      active := active - {id};
      processedEvents := processedEvents + 1;
    }

    // ---- the loop --------------------------------------------------------------------------------

    // Some turns of the workflow's loop. The steps they add handle the first wake-ups, in
    // order and without leaving any out; the loop stops only when its turns are used up, or
    // blocked with no wake-up left. By Valid() what has been sent is what the steps send.
    method Work(turns: nat, wakeups: seq<Wakeup>) returns (handled: nat)
      requires Valid() && phase == Flushing
      modifies this
      ensures Valid() && old(trace) <= trace && handled <= |wakeups|
      ensures var added := trace[|old(trace)|..];
              && Run(p, old(W()), added, W()) && Handles(p, old(W()), added, wakeups[..handled])
              && (TurnsIn(added) == turns || (handled == |wakeups| && phase == Blocked && TurnsIn(added) <= turns))
    {
      hide Traced, W, Progress, Took, Run, TurnsIn;
      handled := 0;
      TracedRuns(p, starts, trace, W(), outbox, attempts);
      ghost var start, first := W(), trace;
      NothingDone(p, first, start, wakeups);
      for turn := 0 to turns
        invariant Valid() && phase == Flushing && handled <= |wakeups|
        invariant Progress(p, first, start, trace, W(), wakeups[..handled], turn)
      {
        var renewed := FlushAndRenew(first, start, wakeups[..handled], turn);
        if !renewed {
          var started := LaunchChildren(first, start, wakeups[..handled], turn);
          if !started {
            handled := SkipEnded(wakeups, handled, first, start, turn + 1);
            if handled == |wakeups| {
              ProgressMeans(p, first, start, trace, W(), wakeups[..handled], turn + 1);
              return;
            }
            WakeUp(wakeups, handled, first, start, turn + 1);
            handled := handled + 1;
          }
        }
      }
      ProgressMeans(p, first, start, trace, W(), wakeups[..handled], turns);
    }

    // The start of a turn: reports are flushed, then the execution may be renewed.
    method FlushAndRenew(ghost first: seq<Step>, ghost start: World, ghost ws: seq<Wakeup>, ghost turn: nat)
          returns (renewed: bool)
      requires Valid() && phase == Flushing && Progress(p, first, start, trace, W(), ws, turn)
      modifies this
      ensures Valid() && phase == Flushing && pendingReports == [] && (!renewed ==> !MayRenew(p, S()))
      ensures Progress(p, first, start, trace, W(), ws, turn + if renewed then 1 else 0)
    {
      hide Traced, Progress, MayRenew, ReportsOf, Handles, Run, TurnsIn;
      ghost var (was, w) := (trace, W());
      FlushReports();
      OwnSteps(p, starts, first, start, was, w, ws, turn, Delivers(|old(pendingReports)|), W(), outbox, attempts);
      NoTurns(Delivers(|old(pendingReports)|));
      was, w := trace, W();
      renewed := TryContinueAsNew();
      if renewed {
        OwnSteps(p, starts, first, start, was, w, ws, turn, [Renew], W(), outbox, attempts);
        OneTurn(Renew);
      } else {
        assert was + [] == was;
      }
    }

    method LaunchChildren(ghost first: seq<Step>, ghost start: World, ghost ws: seq<Wakeup>, ghost turn: nat)
      returns (started: bool)
      requires Valid() && phase == Flushing && Progress(p, first, start, trace, W(), ws, turn)
      requires pendingReports == [] && !MayRenew(p, S())
      modifies this
      ensures Valid() && phase == (if started then Flushing else Blocked)
      ensures Progress(p, first, start, trace, W(), ws, turn + 1)
    {
      hide Traced, Progress, MayRenew, Handles, Run, TurnsIn, CanStart, S;
      ghost var (was, w) := (trace, W());
      started := StartChildren();
      ghost var more := trace[|was|..];
      assert trace == was + more && more[0] == BeginStarts;
      assert forall k :: 0 < k < |more| ==> more[k].StartChild? || more[k].EndStarts?;
      OwnSteps(p, starts, first, start, was, w, ws, turn, more, W(), outbox, attempts);
      OneTurn(BeginStarts);
      NoTurns(more[1..]);
      assert more == [BeginStarts] + more[1..];
      TurnsConcat([BeginStarts], more[1..]);
    }

    // Ends of tasks that are not active are not offered.
    method SkipEnded(wakeups: seq<Wakeup>, from: nat, ghost first: seq<Step>, ghost start: World, ghost turn: nat)
      returns (next: nat)
      requires Valid() && phase == Blocked && from <= |wakeups|
      requires Progress(p, first, start, trace, W(), wakeups[..from], turn)
      ensures from <= next <= |wakeups| && Progress(p, first, start, trace, W(), wakeups[..next], turn)
      ensures next < |wakeups| && wakeups[next].Ends? ==> wakeups[next].id in active
    {
      hide Progress, Took, Run, TurnsIn;
      next := from;
      while next < |wakeups| && wakeups[next].Ends? && wakeups[next].id !in active
        invariant from <= next <= |wakeups| && Progress(p, first, start, trace, W(), wakeups[..next], turn)
      {
        OneMore(p, first, start, trace, W(), wakeups[..next], turn, [], wakeups[next], W());
        assert wakeups[..next] + [wakeups[next]] == wakeups[..next + 1] && trace + [] == trace;
        next := next + 1;
      }
    }

    // The wake-up that the selector delivers.
    method WakeUp(wakeups: seq<Wakeup>, next: nat, ghost first: seq<Step>, ghost start: World, ghost turn: nat)
      requires Valid() && phase == Blocked && next < |wakeups|
      requires wakeups[next].Ends? ==> wakeups[next].id in active
      requires Progress(p, first, start, trace, W(), wakeups[..next], turn)
      modifies this
      ensures Valid() && phase == Flushing && Progress(p, first, start, trace, W(), wakeups[..next + 1], turn)
    {
      hide Traced, Progress, Next, Sent, OutcomeOf, Handles, Run, TurnsIn;
      ghost var (was, w) := (trace, W());
      match wakeups[next] {
        case Arrives(event) => HandleProjectEventSignal(event);
        case Ends(id, result) => FinishTask(id, result);
      }
      OneMore(p, first, start, was, w, wakeups[..next], turn, [StepOf(wakeups[next])], wakeups[next], W());
      assert wakeups[..next] + [wakeups[next]] == wakeups[..next + 1];
    }
  }

  // ---- what the methods use ---------------------------------------------------------------------

  lemma NoStart(p: Params, starts: StartOracle, w: World, a: Step, k: nat)
    ensures !a.StartChild? ==> StartObeys(p, starts, w, a, k)
  {
  }

  lemma TracedRuns(p: Params, starts: StartOracle, trace: seq<Step>, w: World, outbox: seq<Outgoing>, attempts: nat)
    requires Traced(p, starts, trace, w, outbox, attempts)
    ensures Run(p, Initial, trace, w)
  {
    hide Run, SentBy, Obeys;
  }

  lemma TracedKeepsInv(p: Params, starts: StartOracle, trace: seq<Step>, w: World, outbox: seq<Outgoing>, attempts: nat)
    requires Traced(p, starts, trace, w, outbox, attempts)
    ensures Inv(p, w)
  {
    hide Run, Inv, SentBy, Obeys;
    InitialInv(p);
    RunKeepsInv(p, Initial, trace, w);
  }

  // The steps lead from the start to w, handle these wake-ups and make up so many turns.
  ghost predicate Took(p: Params, start: World, steps: seq<Step>, w: World, ws: seq<Wakeup>, turn: nat) {
    Run(p, start, steps, w) && Handles(p, start, steps, ws) && TurnsIn(steps) == turn
  }

  // How far the loop has come since its first steps.
  ghost predicate Progress(p: Params, first: seq<Step>, start: World, trace: seq<Step>, w: World, ws: seq<Wakeup>,
        turn: nat)
  {
    first <= trace && Run(p, Initial, trace, w) && Took(p, start, trace[|first|..], w, ws, turn)
  }

  lemma NothingDone(p: Params, first: seq<Step>, start: World, wakeups: seq<Wakeup>)
    ensures Run(p, Initial, first, start) ==> Progress(p, first, start, first, start, wakeups[..0], 0)
  {
    hide Next, Enabled;
    assert first[|first|..] == [];
  }

  lemma ProgressMeans(p: Params, first: seq<Step>, start: World, trace: seq<Step>, w: World, ws: seq<Wakeup>, turn: nat)
    requires Progress(p, first, start, trace, w, ws, turn)
    ensures first <= trace && Run(p, start, trace[|first|..], w)
    ensures Handles(p, start, trace[|first|..], ws) && TurnsIn(trace[|first|..]) == turn
  {
    hide Run, Handles, TurnsIn;
  }

  lemma OneTurn(a: Step)
    ensures TurnsIn([a]) == if a.Renew? || a.BeginStarts? then 1 else 0
  {
    assert [a][..0] == [];
  }

  lemma OwnTaken(p: Params, start: World, rest: seq<Step>, w: World, ws: seq<Wakeup>, turn: nat, more: seq<Step>,
        w': World)
    requires Took(p, start, rest, w, ws, turn) && Run(p, w, more, w')
    requires forall k :: 0 <= k < |more| ==> Internal(more[k])
    ensures Took(p, start, rest + more, w', ws, turn + TurnsIn(more))
  {
    hide Run, Handles, TurnsIn;
    HandlesOwn(p, start, rest, ws, w, more, w');
    TurnsConcat(rest, more);
  }

  lemma OneTaken(p: Params, start: World, rest: seq<Step>, w: World, ws: seq<Wakeup>, turn: nat, more: seq<Step>,
        u: Wakeup, w': World)
    requires Took(p, start, rest, w, ws, turn)
    requires if more == [] then NotOffered(w, u) && w' == w
             else more == [StepOf(u)] && Enabled(p, w, more[0]) && w' == Next(p, w, more[0])
    ensures Took(p, start, rest + more, w', ws + [u], turn) && Run(p, w, more, w')
  {
    hide Run, Handles, TurnsIn, Next, Enabled, NotOffered;
    HandlesAdds(p, start, rest, ws, w, more, [u]);
    TurnsConcat(rest, more);
    NoTurns(more);
    if more == [] {
      assert rest + more == rest;
      NoSteps(p, w);
    } else {
      RunOne(p, w, more[0]);
      RunConcat(p, start, rest, w, more, w');
    }
  }

  lemma NoSteps(p: Params, w: World)
    ensures Run(p, w, [], w)
  {
  }

  lemma AfterFirst(first: seq<Step>, trace: seq<Step>, more: seq<Step>)
    requires first <= trace
    ensures first <= trace + more && (trace + more)[|first|..] == trace[|first|..] + more
  {
  }

  // Steps of the workflow's own make progress.
  lemma OwnSteps(p: Params, starts: StartOracle, first: seq<Step>, start: World, trace: seq<Step>, w: World,
        ws: seq<Wakeup>, turn: nat, more: seq<Step>, w': World, outbox: seq<Outgoing>, attempts: nat)
    requires Progress(p, first, start, trace, w, ws, turn) && Traced(p, starts, trace + more, w', outbox, attempts)
    requires forall k :: 0 <= k < |more| ==> Internal(more[k])
    ensures Progress(p, first, start, trace + more, w', ws, turn + TurnsIn(more))
  {
    hide Run, TurnsIn, Traced, Internal, Took;
    TracedRuns(p, starts, trace + more, w', outbox, attempts);
    RunRest(p, Initial, trace, w, more, w');
    AfterFirst(first, trace, more);
    OwnTaken(p, start, trace[|first|..], w, ws, turn, more, w');
  }

  // So does one wake-up, taken or not offered.
  lemma OneMore(p: Params, first: seq<Step>, start: World, trace: seq<Step>, w: World, ws: seq<Wakeup>, turn: nat,
        more: seq<Step>, u: Wakeup, w': World)
    requires Progress(p, first, start, trace, w, ws, turn)
    requires if more == [] then NotOffered(w, u) && w' == w
             else more == [StepOf(u)] && Enabled(p, w, more[0]) && w' == Next(p, w, more[0])
    ensures Progress(p, first, start, trace + more, w', ws + [u], turn)
  {
    hide Run, Next, Enabled, NotOffered, Took;
    AfterFirst(first, trace, more);
    OneTaken(p, start, trace[|first|..], w, ws, turn, more, u, w');
    RunConcat(p, Initial, trace, w, more, w');
  }

  lemma InvGivesOrder(p: Params, w: World)
    requires Inv(p, w)
    ensures w.h.taken <= w.h.enqueued
  {
    hide ActiveOk, OwnersOk, ReportsOk, RecentOk, SchedulesOk, CanStart;
  }

  lemma NextStart(p: Params, w: World, ok: bool, failure: string)
    requires w.phase.Launching? && CanStart(w.s)
    requires ok ==> !WorkflowRunning(w.s, TaskWorkflowId(p.projectId, w.s.queue[0].id))
    ensures Enabled(p, w, StartChild(ok, failure))
    ensures Next(p, w, StartChild(ok, failure))
         == World(AfterStart(p, w.s, ok, failure), NotedStart(p, w.s, w.h, ok, failure),
             Launching(w.phase.started || ok))
  {
    hide WorkflowRunning, TaskWorkflowId, AfterStart, NotedStart;
  }

  lemma NotedStartTakes(p: Params, s: State, h: History, ok: bool, failure: string)
    requires s.queue != []
    ensures NotedStart(p, s, h, ok, failure).taken == h.taken + [s.queue[0]]
  {
    hide TaskWorkflowId, TrimSpace, SourceSet;
  }

  lemma RememberedShape(s: State, e: Event)
    ensures Remembered(s, e) == s.(recent := Remembered(s, e).recent)
  {
    hide TrimRecent, TrimSpace;
  }

  // Remembering an id does not change the decision.
  lemma SameDecision(s: State, t: State, e: Event)
    requires t == s.(recent := t.recent)
    ensures Decide(t, e) == Decide(s, e) && Overlaps(t, e) == Overlaps(s, e)
  {
    hide IsScheduledTask, IsResetCommand, IsOnboardingCommand, OwnerByReply, OwnerByThread, IsStandalone,
         ControlAction, Blank, FirstWorkflowId, ScheduleId;
  }
}
