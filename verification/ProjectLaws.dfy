// What every run of the project scheduler keeps.
module ProjectLaws {
  import opened Text
  import opened Domain
  import opened Project

  // ---- the invariant ---------------------------------------------------------------

  type ActiveMap = map<string, ActiveTask>
  type Owners = map<string, string>

  // At most four tasks, each under its own event id and workflow id.
  predicate ActiveOk(p: Params, active: ActiveMap) {
    && |active| <= MAX_ACTIVE
    && (forall id :: id in active ==>
          active[id].event.id == id && active[id].workflowId == TaskWorkflowId(p.projectId, id))
    && (forall i, j :: i in active && j in active && i != j ==> active[i].workflowId != active[j].workflowId)
  }

  predicate OwnsActive(active: ActiveMap, owner: string) {
    exists id :: id in active && TrimSpace(active[id].workflowId) == owner
  }

  // Every owner is the workflow id of a task that is active now.
  predicate OwnersOk(active: ActiveMap, owners: Owners) {
    forall k :: k in owners ==> OwnsActive(active, owners[k])
  }

  // Events leave the queue in the order they entered it, and none is lost.
  predicate QueueOk(queue: seq<Event>, running: nat, processed: int, enqueued: seq<Event>, taken: seq<Event>) {
    enqueued == taken + queue && |queue| + running + processed == |enqueued|
  }

  predicate ReportsOk(pending: seq<TaskResult>, produced: seq<TaskResult>, delivered: seq<TaskResult>) {
    produced == delivered + pending
  }

  // An id comes back only after more than RECENT_LIMIT - 1 others.
  predicate FarApart(ids: seq<string>) {
    forall i, j :: 0 <= i < j < |ids| && j - i <= RECENT_LIMIT ==> ids[i] != ids[j]
  }

  predicate RecentOk(recent: seq<string>, accepted: seq<string>) {
    recent == TrimRecent(accepted) && FarApart(accepted)
  }

  predicate SameSchedule(e: Event, f: Event) {
    IsScheduledTask(e) && IsScheduledTask(f) && ScheduleId(e) != "" && ScheduleId(e) == ScheduleId(f)
  }

  predicate SchedulesOk(queue: seq<Event>, active: ActiveMap) {
    && (forall i, j :: 0 <= i < j < |queue| ==> !SameSchedule(queue[i], queue[j]))
    && (forall i, id :: 0 <= i < |queue| && id in active ==> !SameSchedule(queue[i], active[id].event))
    && (forall i, j :: i in active && j in active && i != j ==> !SameSchedule(active[i].event, active[j].event))
  }

  ghost predicate Inv(p: Params, w: World) {
    && ActiveOk(p, w.s.active)
    && OwnersOk(w.s.active, w.s.messageOwners) && OwnersOk(w.s.active, w.s.threadOwners)
    && QueueOk(w.s.queue, |w.s.active|, w.s.processed, w.h.enqueued, w.h.taken)
    && ReportsOk(w.s.pending, w.h.produced, w.h.delivered)
    && RecentOk(w.s.recent, w.h.accepted)
    && SchedulesOk(w.s.queue, w.s.active)
    && (w.phase == Blocked ==> !CanStart(w.s))
  }

  // ---- workflow ids -----------------------------------------------------------------

  lemma {:induction false} TrimLeftKeepsTail(s: string, tail: string)
    requires tail != "" && !IsSpace(tail[0])
    ensures TrimLeft(s + tail) == TrimLeft(s) + tail
  {
    if s == "" {
      assert s + tail == tail;
    } else if IsSpace(s[0]) {
      assert (s + tail)[1..] == s[1..] + tail;
      TrimLeftKeepsTail(s[1..], tail);
    }
  }

  function IdPart(eventId: string): (t: string)
    ensures t != "" && Trimmed(t)
  {
    if Blank(eventId) then "event" else TrimSpace(eventId)
  }

  lemma TrimmedWorkflowId(projectId: string, eventId: string)
    ensures TrimSpace(TaskWorkflowId(projectId, eventId)) == TrimLeft(projectId) + ":task:" + IdPart(eventId)
  {
    hide TrimLeft, IdPart;
    var tail := ":task:" + IdPart(eventId);
    TrimLeftKeepsTail(projectId, tail);
    WorkflowIdParts(projectId, eventId);
    NoTrailingSpace(TrimLeft(projectId) + tail, IdPart(eventId)[|IdPart(eventId)| - 1]);
    assert TrimLeft(projectId) + tail == TrimLeft(projectId) + ":task:" + IdPart(eventId);
  }

  lemma WorkflowIdParts(projectId: string, eventId: string)
    ensures TaskWorkflowId(projectId, eventId) == projectId + (":task:" + IdPart(eventId))
  {
  }

  lemma NoTrailingSpace(s: string, last: char)
    requires s != "" && s[|s| - 1] == last && !IsSpace(last)
    ensures TrimRight(s) == s
  {
  }

  // Trimming keeps workflow ids of one project apart, and never empties one.
  lemma TrimmedIdsApart(projectId: string, a: string, b: string)
    ensures TrimSpace(TaskWorkflowId(projectId, a)) != ""
    ensures TrimSpace(TaskWorkflowId(projectId, a)) == TrimSpace(TaskWorkflowId(projectId, b))
        ==> TaskWorkflowId(projectId, a) == TaskWorkflowId(projectId, b)
  {
    TrimmedWorkflowId(projectId, a);
    TrimmedWorkflowId(projectId, b);
    var head := TrimLeft(projectId) + ":task:";
    if head + IdPart(a) == head + IdPart(b) {
      assert (head + IdPart(a))[|head|..] == IdPart(a);
      assert (head + IdPart(b))[|head|..] == IdPart(b);
    }
  }

  lemma ActiveOwnersApart(p: Params, active: ActiveMap)
    requires ActiveOk(p, active)
    ensures forall i :: i in active ==> TrimSpace(active[i].workflowId) != ""
    ensures forall i, j :: i in active && j in active && i != j
              ==> TrimSpace(active[i].workflowId) != TrimSpace(active[j].workflowId)
  {
    hide TaskWorkflowId, TrimSpace;
    forall i, j | i in active && j in active
      ensures TrimSpace(active[i].workflowId) != ""
      ensures i != j ==> TrimSpace(active[i].workflowId) != TrimSpace(active[j].workflowId)
    {
      TrimmedIdsApart(p.projectId, i, j);
    }
  }

  // ---- signals ---------------------------------------------------------------------------

  lemma RegisteredOwners(s: State, e: Event, owner: string)
    ensures forall m :: m in Register(s, e, owner).messageOwners ==>
              Register(s, e, owner).messageOwners[m] == TrimSpace(owner)
              || (m in s.messageOwners && Register(s, e, owner).messageOwners[m] == s.messageOwners[m])
    ensures forall t :: t in Register(s, e, owner).threadOwners ==>
              Register(s, e, owner).threadOwners[t] == TrimSpace(owner)
              || (t in s.threadOwners && Register(s, e, owner).threadOwners[t] == s.threadOwners[t])
  {
    hide TrimSpace, ThreadOwnerKey, Blank;
  }

  lemma RegisterOwnersOk(s: State, active: ActiveMap, e: Event, owner: string)
    requires OwnersOk(active, s.messageOwners) && OwnersOk(active, s.threadOwners)
    requires OwnsActive(active, TrimSpace(owner))
    ensures OwnersOk(active, Register(s, e, owner).messageOwners)
    ensures OwnersOk(active, Register(s, e, owner).threadOwners)
  {
    RegisteredOwners(s, e, owner);
    hide Register, OwnsActive, TrimSpace;
  }

  lemma RoutedOwnerIsActive(s: State, e: Event)
    requires OwnersOk(s.active, s.messageOwners) && OwnersOk(s.active, s.threadOwners)
    requires Decide(s, e).Routed?
    ensures TrimSpace(Decide(s, e).workflowId) == Decide(s, e).workflowId
    ensures OwnsActive(s.active, Decide(s, e).workflowId)
  {
    hide OwnsActive, TrimSpace, ThreadOwnerKey, Blank, IsScheduledTask, Overlaps, IsResetCommand, IsOnboardingCommand;
    var o := Decide(s, e).workflowId;
    if k :| k in s.messageOwners && TrimSpace(s.messageOwners[k]) == o {
      OwnerIsTrimmed(s.active, s.messageOwners[k]);
    } else {
      EmptyTrims();
      var k :| k in s.threadOwners && TrimSpace(s.threadOwners[k]) == o;
      OwnerIsTrimmed(s.active, s.threadOwners[k]);
    }
  }

  lemma EmptyTrims()
    ensures TrimSpace("") == ""
  {
  }

  lemma OwnerIsTrimmed(active: ActiveMap, owner: string)
    requires OwnsActive(active, owner)
    ensures TrimSpace(owner) == owner
  {
    TrimSpaceOfTrimmed(owner);
  }

  lemma RememberKeepsRecent(s: State, accepted: seq<string>, e: Event)
    requires RecentOk(s.recent, accepted) && !IsDuplicate(s, e)
    ensures RecentOk(Remembered(s, e).recent, if Blank(e.id) then accepted else accepted + [TrimSpace(e.id)])
  {
    hide TrimSpace, Blank;
    if !Blank(e.id) {
      var id, n := TrimSpace(e.id), |accepted|;
      forall i | 0 <= i < n && n - i <= RECENT_LIMIT ensures accepted[i] != id {
        assert accepted[i] == if n <= RECENT_LIMIT then s.recent[i] else s.recent[i - (n - RECENT_LIMIT)];
      }
      assert TrimRecent(s.recent + [id]) == TrimRecent(accepted + [id]);
    }
  }

  lemma QueuedKeepsSchedules(s: State, e: Event)
    requires SchedulesOk(s.queue, s.active) && Decide(s, e) == Queued
    ensures SchedulesOk(s.queue + [e], s.active)
  {
    assert IsScheduledTask(e) ==> !Overlaps(s, e);
    hide Decide, ScheduleId, IsScheduledTask;
  }

  // A signal changes the remembered ids, and either the queue or the owners.
  lemma SignalShape(s: State, e: Event)
    ensures var t, o := AfterSignal(s, e), OutcomeOf(s, e);
            && t.active == s.active && t.pending == s.pending && t.processed == s.processed
            && t.queue == (if o == Queued then s.queue + [e] else s.queue)
            && t.recent == (if o == Duplicate then s.recent else Remembered(s, e).recent)
            && t.messageOwners == (if o.Routed? then Register(s, e, o.workflowId).messageOwners else s.messageOwners)
            && t.threadOwners == (if o.Routed? then Register(s, e, o.workflowId).threadOwners else s.threadOwners)
  {
    hide OutcomeOf, TrimSpace, RegisterMessage, RegisterThreads, TrimRecent, Blank;
  }

  lemma SignalNotes(s: State, h: History, e: Event)
    ensures var g, o := NotedSignal(s, h, e), OutcomeOf(s, e);
            && g.taken == h.taken && g.produced == h.produced && g.delivered == h.delivered
            && g.enqueued == (if o == Queued then h.enqueued + [e] else h.enqueued)
            && g.accepted == (if o == Duplicate || Blank(e.id) then h.accepted else h.accepted + [TrimSpace(e.id)])
  {
    hide OutcomeOf, TrimSpace, Blank, NotedKinds, Claimed, SourceSet;
  }

  lemma SignalKeepsInv(p: Params, w: World, e: Event)
    requires Inv(p, w) && Enabled(p, w, Signal(e))
    ensures Inv(p, Next(p, w, Signal(e)))
  {
    hide AfterSignal, NotedSignal, ActiveOk, OwnersOk, QueueOk, RecentOk, SchedulesOk, ReportsOk, Register, Remembered,
         Blank, TrimSpace, OutcomeOf;
    var s, h := w.s, w.h;
    SignalShape(s, e);
    SignalNotes(s, h, e);
    SignalKeepsRecent(s, h.accepted, e);
    SignalKeepsOwners(s, e);
    SignalKeepsQueue(s, h, e);
  }

  lemma SignalKeepsRecent(s: State, accepted: seq<string>, e: Event)
    requires RecentOk(s.recent, accepted)
    ensures OutcomeOf(s, e) != Duplicate ==>
              RecentOk(Remembered(s, e).recent, if Blank(e.id) then accepted else accepted + [TrimSpace(e.id)])
  {
    hide RecentOk, Remembered, Decide, TrimSpace, Blank;
    if OutcomeOf(s, e) != Duplicate {
      RememberKeepsRecent(s, accepted, e);
    }
  }

  lemma SignalKeepsOwners(s: State, e: Event)
    requires OwnersOk(s.active, s.messageOwners) && OwnersOk(s.active, s.threadOwners)
    ensures OutcomeOf(s, e).Routed? ==>
              var r := Register(s, e, OutcomeOf(s, e).workflowId);
              OwnersOk(s.active, r.messageOwners) && OwnersOk(s.active, r.threadOwners)
  {
    hide OwnersOk, Decide, Register, IsDuplicate, OwnsActive, TrimSpace;
    if OutcomeOf(s, e).Routed? {
      RoutedOwnerIsActive(s, e);
      RegisterOwnersOk(s, s.active, e, OutcomeOf(s, e).workflowId);
    }
  }

  lemma SignalKeepsQueue(s: State, h: History, e: Event)
    requires QueueOk(s.queue, |s.active|, s.processed, h.enqueued, h.taken) && SchedulesOk(s.queue, s.active)
    ensures OutcomeOf(s, e) == Queued ==>
              && QueueOk(s.queue + [e], |s.active|, s.processed, h.enqueued + [e], h.taken)
              && SchedulesOk(s.queue + [e], s.active)
  {
    hide SchedulesOk, Decide, IsDuplicate;
    if OutcomeOf(s, e) == Queued {
      QueuedKeepsSchedules(s, e);
      assert h.taken + (s.queue + [e]) == h.taken + s.queue + [e];
    }
  }

  // ---- starting and finishing --------------------------------------------------------------

  lemma StartedActive(p: Params, s: State, e: Event)
    requires ActiveOk(p, s.active) && CanStart(s)
    requires !WorkflowRunning(s, TaskWorkflowId(p.projectId, e.id))
    ensures e.id !in s.active
    ensures var grown := s.active[e.id := ActiveTask(e, TaskWorkflowId(p.projectId, e.id))];
            |grown| == |s.active| + 1 && ActiveOk(p, grown)
  {
    hide TaskWorkflowId;
    var wf := TaskWorkflowId(p.projectId, e.id);
    assert forall id :: id in s.active && id == e.id ==> s.active[id].workflowId == wf;
    GrowsByOne(s.active, e.id, ActiveTask(e, wf));
  }

  lemma GrowsByOne(active: ActiveMap, id: string, task: ActiveTask)
    requires id !in active
    ensures |active[id := task]| == |active| + 1
  {
    assert active[id := task].Keys == active.Keys + {id};
  }

  lemma ShrinksByOne(active: ActiveMap, id: string)
    requires id in active
    ensures |active - {id}| == |active| - 1
  {
    assert active.Keys == (active - {id}).Keys + {id};
  }

  lemma GrownOwnersOk(active: ActiveMap, grown: ActiveMap, owners: Owners)
    requires OwnersOk(active, owners)
    requires forall id :: id in active ==> id in grown && grown[id] == active[id]
    ensures OwnersOk(grown, owners)
  {
    forall o | OwnsActive(active, o) ensures OwnsActive(grown, o) {
      var id :| id in active && TrimSpace(active[id].workflowId) == o;
      assert TrimSpace(grown[id].workflowId) == o;
    }
    hide OwnsActive;
  }

  lemma StartKeepsSchedules(queue: seq<Event>, active: ActiveMap, task: ActiveTask)
    requires SchedulesOk(queue, active) && queue != [] && task.event == queue[0] && queue[0].id !in active
    ensures SchedulesOk(queue[1..], active[queue[0].id := task])
  {
    hide ScheduleId, IsScheduledTask;
  }

  lemma StartKeepsInv(p: Params, w: World, failure: string)
    requires Inv(p, w) && Enabled(p, w, StartChild(true, failure))
    ensures Inv(p, Next(p, w, StartChild(true, failure)))
  {
    var s, h := w.s, w.h;
    var e := s.queue[0];
    var wf := TaskWorkflowId(p.projectId, e.id);
    var task := ActiveTask(e, wf);
    var grown := s.active[e.id := task];
    hide ActiveOk, OwnersOk, QueueOk, RecentOk, SchedulesOk, ReportsOk, TaskWorkflowId, RegisterMessage,
         RegisterThreads, TrimSpace, WorkflowRunning;
    StartedActive(p, s, e);
    GrownOwnersOk(s.active, grown, s.messageOwners);
    GrownOwnersOk(s.active, grown, s.threadOwners);
    assert grown[e.id].workflowId == wf;
    assert OwnsActive(grown, TrimSpace(wf));
    hide OwnsActive;
    RegisterOwnersOk(s, grown, e, wf);
    StartKeepsSchedules(s.queue, s.active, task);
    TakenKeepsQueue(s.queue, |s.active|, s.processed, h.enqueued, h.taken);
  }

  lemma FailedStartKeepsInv(p: Params, w: World, failure: string)
    requires Inv(p, w) && Enabled(p, w, StartChild(false, failure))
    ensures Inv(p, Next(p, w, StartChild(false, failure)))
  {
    hide ActiveOk, OwnersOk, QueueOk, RecentOk, ReportsOk, SchedulesOk, TaskWorkflowId, WorkflowRunning;
    var s, h := w.s, w.h;
    TakenKeepsQueue(s.queue, |s.active|, s.processed, h.enqueued, h.taken);
    MadeKeepsReports(s.pending, h.produced, h.delivered, FailedResult(s.queue[0], failure));
    DroppedKeepsSchedules(s.queue, s.active);
  }

  lemma DroppedKeepsSchedules(queue: seq<Event>, active: ActiveMap)
    requires SchedulesOk(queue, active) && queue != []
    ensures SchedulesOk(queue[1..], active)
  {
    hide SameSchedule;
  }

  // Clearing a finished task leaves only owners of the tasks still active.
  lemma ClearedOwnersOk(p: Params, active: ActiveMap, owners: Owners, id: string)
    requires ActiveOk(p, active) && OwnersOk(active, owners) && id in active
    ensures OwnersOk(active - {id}, Cleared(owners, active[id].workflowId))
  {
    ActiveOwnersApart(p, active);
    hide ActiveOk, TrimSpace, OwnsActive;
    var o := TrimSpace(active[id].workflowId);
    forall k | k in owners && owners[k] != o ensures OwnsActive(active - {id}, owners[k]) {
      OtherOwnerStays(active, id, owners[k]);
    }
  }

  lemma OtherOwnerStays(active: ActiveMap, id: string, owner: string)
    requires OwnsActive(active, owner) && id in active && TrimSpace(active[id].workflowId) != owner
    ensures OwnsActive(active - {id}, owner)
  {
    hide TrimSpace;
    var i :| i in active && TrimSpace(active[i].workflowId) == owner;
    assert (active - {id})[i] == active[i];
  }

  lemma FewerActiveOk(p: Params, active: ActiveMap, id: string)
    requires ActiveOk(p, active) && id in active
    ensures |active - {id}| == |active| - 1 && ActiveOk(p, active - {id})
  {
    hide TaskWorkflowId;
    ShrinksByOne(active, id);
  }

  lemma FewerSchedulesOk(queue: seq<Event>, active: ActiveMap, id: string)
    requires SchedulesOk(queue, active)
    ensures SchedulesOk(queue, active - {id})
  {
    hide SameSchedule;
  }

  lemma TakenKeepsQueue(queue: seq<Event>, running: nat, processed: int, enqueued: seq<Event>, taken: seq<Event>)
    requires QueueOk(queue, running, processed, enqueued, taken) && queue != []
    ensures QueueOk(queue[1..], running + 1, processed, enqueued, taken + [queue[0]])
    ensures QueueOk(queue[1..], running, processed + 1, enqueued, taken + [queue[0]])
  {
    assert taken + queue == taken + [queue[0]] + queue[1..];
  }

  lemma EndedKeepsQueue(queue: seq<Event>, running: nat, processed: int, enqueued: seq<Event>, taken: seq<Event>)
    requires QueueOk(queue, running, processed, enqueued, taken) && running > 0
    ensures QueueOk(queue, running - 1, processed + 1, enqueued, taken)
  {
  }

  lemma MadeKeepsReports(pending: seq<TaskResult>, produced: seq<TaskResult>, delivered: seq<TaskResult>, r: TaskResult)
    requires ReportsOk(pending, produced, delivered)
    ensures ReportsOk(pending + [r], produced + [r], delivered)
  {
    assert delivered + (pending + [r]) == delivered + pending + [r];
  }

  lemma DeliveredKeepsReports(pending: seq<TaskResult>, produced: seq<TaskResult>, delivered: seq<TaskResult>)
    requires ReportsOk(pending, produced, delivered) && pending != []
    ensures ReportsOk(pending[1..], produced, delivered + [pending[0]])
  {
    assert delivered + pending == delivered + [pending[0]] + pending[1..];
  }

  lemma FinishKeepsInv(p: Params, w: World, id: string, result: TaskResult)
    requires Inv(p, w) && Enabled(p, w, Finish(id, result))
    ensures Inv(p, Next(p, w, Finish(id, result)))
  {
    hide ActiveOk, OwnersOk, QueueOk, RecentOk, ReportsOk, SchedulesOk, Cleared, CanStart;
    var s, h := w.s, w.h;
    ClearedOwnersOk(p, s.active, s.messageOwners, id);
    ClearedOwnersOk(p, s.active, s.threadOwners, id);
    FewerActiveOk(p, s.active, id);
    FewerSchedulesOk(s.queue, s.active, id);
    EndedKeepsQueue(s.queue, |s.active|, s.processed, h.enqueued, h.taken);
    MadeKeepsReports(s.pending, h.produced, h.delivered, result);
  }

  lemma OtherStepsKeepInv(p: Params, w: World, a: Step)
    requires Inv(p, w) && Enabled(p, w, a) && (a.Deliver? || a.Renew? || a.BeginStarts? || a.EndStarts?)
    ensures Inv(p, Next(p, w, a))
  {
    hide ActiveOk, OwnersOk, QueueOk, RecentOk, ReportsOk, SchedulesOk, Resumed, SnapshotOf;
    if a.Renew? {
      RenewLosesNothing(p, w);
    } else if a.Deliver? {
      DeliveredKeepsReports(w.s.pending, w.h.produced, w.h.delivered);
    }
  }

  // Continue-as-new: the maps left out of the snapshot are empty, so the resumed state is
  // the state itself.
  lemma RenewLosesNothing(p: Params, w: World)
    requires Inv(p, w) && Enabled(p, w, Renew)
    ensures w.s.active == map[] && w.s.messageOwners == map[] && w.s.threadOwners == map[] && w.s.pending == []
    ensures Resumed(SnapshotOf(w.s)) == w.s
  {
    hide TrimSpace, FarApart, SchedulesOk, ActiveOk;
    var s := w.s;
    assert s.active == map[];
    assert forall o :: !OwnsActive(s.active, o);
    assert s.messageOwners == map[] && s.threadOwners == map[];
  }

  lemma NextKeepsInv(p: Params, w: World, a: Step)
    requires Inv(p, w) && Enabled(p, w, a)
    ensures Inv(p, Next(p, w, a))
  {
    hide Inv, Next, Enabled;
    match a
    case Signal(e) => SignalKeepsInv(p, w, e);
    case StartChild(ok, failure) =>
      if ok {
        StartKeepsInv(p, w, failure);
      } else {
        FailedStartKeepsInv(p, w, failure);
      }
    case Finish(id, result) => FinishKeepsInv(p, w, id, result);
    case _ => OtherStepsKeepInv(p, w, a);
  }

  lemma InitialInv(p: Params)
    ensures Inv(p, Initial)
  {
  }

  // The invariant holds in every state of every run.
  lemma {:induction false} RunKeepsInv(p: Params, w: World, steps: seq<Step>, w': World)
    requires Inv(p, w) && Run(p, w, steps, w')
    ensures Inv(p, w')
    decreases |steps|
  {
    if steps != [] {
      NextKeepsInv(p, w, steps[0]);
      hide Inv, Next, Enabled;
      RunKeepsInv(p, Next(p, w, steps[0]), steps[1..], w');
    }
  }
}
