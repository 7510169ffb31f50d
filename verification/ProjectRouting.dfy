// Reply chains stick to their task, the dedupe window refines the full log of accepted
// ids, and the counters of the scheduler, over every run.
module ProjectRouting {
  import opened Text
  import opened Domain
  import opened Project
  import opened ProjectLaws

  // ---- runs with distinct source messages -------------------------------------------

  // The event brings a source message id not seen before in this run, or is one more
  // firing of the schedule that used it before.
  predicate FreshSource(h: History, e: Event) {
    Source(e) in h.kinds && Source(e) != "" ==> SourceKind(e).Some? && h.kinds[Source(e)] == SourceKind(e)
  }

  ghost predicate DistinctSources(p: Params, w: World, steps: seq<Step>)
    decreases |steps|
  {
    steps == [] ||
    (&& Enabled(p, w, steps[0])
     && (steps[0].Signal? && !IsDuplicate(w.s, steps[0].event) ==> FreshSource(w.h, steps[0].event))
     && DistinctSources(p, Next(p, w, steps[0]), steps[1..]))
  }

  // ---- what the message owners know ----------------------------------------------------

  type Claims = map<string, set<string>>
  type Kinds = map<string, Option<string>>

  function OwnerOf(t: ActiveTask): string {
    TrimSpace(t.workflowId)
  }

  // Every message of an active task is owned by it.
  predicate ClaimsOwned(active: ActiveMap, owners: Owners, claims: Claims) {
    forall id, m :: id in active && m in Claimed(claims, OwnerOf(active[id])) ==>
      m in owners && owners[m] == OwnerOf(active[id])
  }

  // A task claims its own source message, and only messages of this run: a message of
  // schedule kind is claimed only by a task of that schedule.
  predicate ClaimsKnown(active: ActiveMap, claims: Claims, kinds: Kinds) {
    forall id :: id in active ==>
      && SourceSet(active[id].event) <= Claimed(claims, OwnerOf(active[id]))
      && (forall m :: m in Claimed(claims, OwnerOf(active[id])) ==>
            m != "" && m in kinds && (kinds[m].Some? ==> kinds[m] == SourceKind(active[id].event)))
  }

  // Queued events have sources of this run, apart from each other and from every claim.
  predicate SourcesKnown(queue: seq<Event>, kinds: Kinds) {
    forall i :: 0 <= i < |queue| && Source(queue[i]) != "" ==>
      Source(queue[i]) in kinds && kinds[Source(queue[i])] == SourceKind(queue[i])
  }

  predicate SourcesApart(queue: seq<Event>) {
    forall i, j :: 0 <= i < j < |queue| && Source(queue[i]) != "" ==> Source(queue[i]) != Source(queue[j])
  }

  predicate SourcesUnclaimed(queue: seq<Event>, active: ActiveMap, claims: Claims) {
    forall i, id :: 0 <= i < |queue| && id in active ==> Source(queue[i]) !in Claimed(claims, OwnerOf(active[id]))
  }

  ghost predicate ChainInv(w: World) {
    && ClaimsOwned(w.s.active, w.s.messageOwners, w.h.claims)
    && ClaimsKnown(w.s.active, w.h.claims, w.h.kinds)
    && SourcesKnown(w.s.queue, w.h.kinds)
    && SourcesApart(w.s.queue)
    && SourcesUnclaimed(w.s.queue, w.s.active, w.h.claims)
  }

  // ---- queued signals ---------------------------------------------------------------------

  // A queued event's source is not claimed and not in the queue.
  lemma QueuedSourceUnclaimed(s: State, h: History, e: Event)
    requires ClaimsKnown(s.active, h.claims, h.kinds) && SourcesKnown(s.queue, h.kinds)
    requires FreshSource(h, e) && Decide(s, e) == Queued && Source(e) != ""
    ensures forall i :: 0 <= i < |s.queue| ==> Source(s.queue[i]) != Source(e)
    ensures forall id :: id in s.active ==> Source(e) !in Claimed(h.claims, OwnerOf(s.active[id]))
  {
    assert IsScheduledTask(e) ==> !Overlaps(s, e);
    hide Decide, TrimSpace, TaskWorkflowId;
    if Source(e) in h.kinds {
      forall i | 0 <= i < |s.queue| ensures Source(s.queue[i]) != Source(e) {
        assert Source(s.queue[i]) == Source(e) ==> SourceKind(s.queue[i]) == SourceKind(e);
      }
    }
  }

  // An event with no source is claimed by nobody.
  lemma BlankUnclaimed(active: ActiveMap, claims: Claims, kinds: Kinds)
    requires ClaimsKnown(active, claims, kinds)
    ensures forall id :: id in active ==> "" !in Claimed(claims, OwnerOf(active[id]))
  {
    hide OwnerOf, SourceSet, SourceKind, Claimed;
  }

  // Noting an event that is fresh, or of a source nobody uses, keeps what is known.
  lemma NotedKeepsClaims(active: ActiveMap, claims: Claims, kinds: Kinds, e: Event)
    requires ClaimsKnown(active, claims, kinds)
    requires SourceKind(e) == None
             || forall id :: id in active ==> Source(e) !in Claimed(claims, OwnerOf(active[id]))
    ensures ClaimsKnown(active, claims, NotedKinds(kinds, e))
  {
    hide OwnerOf, SourceSet, SourceKind, Claimed, Source;
  }

  lemma NotedKeepsSources(queue: seq<Event>, h: History, e: Event)
    requires SourcesKnown(queue, h.kinds) && FreshSource(h, e)
    requires SourceKind(e) == None || forall i :: 0 <= i < |queue| ==> Source(queue[i]) != Source(e)
    ensures SourcesKnown(queue, NotedKinds(h.kinds, e))
  {
    hide SourceKind, Source;
  }

  lemma QueuedKeepsSources(queue: seq<Event>, kinds: Kinds, e: Event)
    requires SourcesKnown(queue, kinds) && SourcesApart(queue)
    requires Source(e) != "" ==> Source(e) in kinds && kinds[Source(e)] == SourceKind(e)
    requires Source(e) != "" ==> forall i :: 0 <= i < |queue| ==> Source(queue[i]) != Source(e)
    ensures SourcesKnown(queue + [e], kinds) && SourcesApart(queue + [e])
  {
    hide Source, SourceKind;
  }

  lemma QueuedStaysUnclaimed(queue: seq<Event>, active: ActiveMap, claims: Claims, e: Event)
    requires SourcesUnclaimed(queue, active, claims)
    requires forall id :: id in active ==> Source(e) !in Claimed(claims, OwnerOf(active[id]))
    ensures SourcesUnclaimed(queue + [e], active, claims)
  {
    hide Source, OwnerOf, Claimed;
  }

  lemma QueuedKeepsChain(s: State, h: History, e: Event)
    requires ClaimsKnown(s.active, h.claims, h.kinds) && SourcesKnown(s.queue, h.kinds)
    requires SourcesApart(s.queue) && SourcesUnclaimed(s.queue, s.active, h.claims)
    requires FreshSource(h, e) && Decide(s, e) == Queued
    ensures ClaimsKnown(s.active, h.claims, NotedKinds(h.kinds, e))
    ensures SourcesKnown(s.queue + [e], NotedKinds(h.kinds, e)) && SourcesApart(s.queue + [e])
    ensures SourcesUnclaimed(s.queue + [e], s.active, h.claims)
  {
    BlankUnclaimed(s.active, h.claims, h.kinds);
    if Source(e) != "" {
      QueuedSourceUnclaimed(s, h, e);
      NotedKeepsSources(s.queue, h, e);
    }
    NotedKeepsClaims(s.active, h.claims, h.kinds, e);
    hide Source, SourceKind, OwnerOf, Claimed, ClaimsKnown, SourcesKnown, SourcesApart, SourcesUnclaimed, FreshSource,
         Decide;
    QueuedKeepsSources(s.queue, NotedKinds(h.kinds, e), e);
    QueuedStaysUnclaimed(s.queue, s.active, h.claims, e);
  }

  // ---- routed signals ------------------------------------------------------------------------

  lemma RoutedIsPlain(s: State, e: Event)
    requires Decide(s, e).Routed?
    ensures SourceKind(e) == None
  {
    hide OwnerByReply, OwnerByThread, TrimSpace;
  }

  lemma RegisterMessageAt(s: State, e: Event, owner: string)
    requires owner != "" && TrimSpace(owner) == owner
    ensures Register(s, e, owner).messageOwners
         == if Source(e) == "" then s.messageOwners else s.messageOwners[Source(e) := owner]
  {
  }

  // What a task claims after `owner` has claimed the sources `more` as well.
  lemma ClaimedMore(claims: Claims, owner: string, more: set<string>, o: string)
    ensures Claimed(claims[owner := Claimed(claims, owner) + more], o)
         == if o == owner then Claimed(claims, o) + more else Claimed(claims, o)
  {
  }

  lemma RoutedKeepsOwned(active: ActiveMap, owners: Owners, claims: Claims, e: Event, owner: string)
    requires ClaimsOwned(active, owners, claims)
    requires Source(e) != "" ==> forall id :: id in active ==> Source(e) !in Claimed(claims, OwnerOf(active[id]))
    ensures ClaimsOwned(active, if Source(e) == "" then owners else owners[Source(e) := owner],
                        claims[owner := Claimed(claims, owner) + SourceSet(e)])
  {
    var more := claims[owner := Claimed(claims, owner) + SourceSet(e)];
    forall id | id in active
      ensures Claimed(more, OwnerOf(active[id]))
           == if OwnerOf(active[id]) == owner then Claimed(claims, owner) + SourceSet(e)
               else Claimed(claims, OwnerOf(active[id]))
    {
      ClaimedMore(claims, owner, SourceSet(e), OwnerOf(active[id]));
    }
    hide Source, OwnerOf, Claimed;
  }

  lemma RoutedKeepsKnown(active: ActiveMap, claims: Claims, kinds: Kinds, e: Event, owner: string)
    requires ClaimsKnown(active, claims, kinds) && SourceKind(e) == None
    ensures ClaimsKnown(active, claims[owner := Claimed(claims, owner) + SourceSet(e)], NotedKinds(kinds, e))
  {
    hide Source, SourceKind, OwnerOf, Claimed, ClaimsKnown;
    NotedKeepsClaims(active, claims, kinds, e);
    MoreKnown(active, claims, NotedKinds(kinds, e), SourceSet(e), owner);
  }

  lemma MoreKnown(active: ActiveMap, claims: Claims, kinds: Kinds, more: set<string>, owner: string)
    requires ClaimsKnown(active, claims, kinds)
    requires forall m :: m in more ==> m != "" && m in kinds && kinds[m] == None
    ensures ClaimsKnown(active, claims[owner := Claimed(claims, owner) + more], kinds)
  {
    var grown := claims[owner := Claimed(claims, owner) + more];
    forall id | id in active
      ensures Claimed(grown, OwnerOf(active[id]))
           == if OwnerOf(active[id]) == owner then Claimed(claims, OwnerOf(active[id])) + more
               else Claimed(claims, OwnerOf(active[id]))
    {
      ClaimedMore(claims, owner, more, OwnerOf(active[id]));
    }
    hide OwnerOf, Claimed, SourceKind, SourceSet;
    forall id, m | id in active && m in Claimed(grown, OwnerOf(active[id]))
      ensures m != "" && m in kinds && (kinds[m].Some? ==> kinds[m] == SourceKind(active[id].event))
    {
      assert m in Claimed(claims, OwnerOf(active[id])) || m in more;
    }
    forall id | id in active ensures SourceSet(active[id].event) <= Claimed(grown, OwnerOf(active[id])) {
    }
  }

  lemma RoutedStaysUnclaimed(queue: seq<Event>, active: ActiveMap, claims: Claims, e: Event, owner: string)
    requires SourcesUnclaimed(queue, active, claims)
    requires Source(e) != "" ==> forall i :: 0 <= i < |queue| ==> Source(queue[i]) != Source(e)
    ensures SourcesUnclaimed(queue, active, claims[owner := Claimed(claims, owner) + SourceSet(e)])
  {
    var more := claims[owner := Claimed(claims, owner) + SourceSet(e)];
    forall i, id | 0 <= i < |queue| && id in active ensures Source(queue[i]) !in Claimed(more, OwnerOf(active[id])) {
      ClaimedMore(claims, owner, SourceSet(e), OwnerOf(active[id]));
      hide Source, OwnerOf, Claimed;
    }
  }

  lemma RoutedSourceApart(queue: seq<Event>, active: ActiveMap, h: History, e: Event)
    requires ClaimsKnown(active, h.claims, h.kinds) && SourcesKnown(queue, h.kinds)
    requires FreshSource(h, e) && SourceKind(e) == None && Source(e) != ""
    ensures forall i :: 0 <= i < |queue| ==> Source(queue[i]) != Source(e)
    ensures Source(e) !in h.kinds
    ensures forall id :: id in active ==> Source(e) !in Claimed(h.claims, OwnerOf(active[id]))
  {
    hide Source, SourceKind, OwnerOf, Claimed;
  }

  lemma RoutedKeepsChain(s: State, h: History, e: Event, owner: string)
    requires ClaimsOwned(s.active, s.messageOwners, h.claims) && ClaimsKnown(s.active, h.claims, h.kinds)
    requires SourcesKnown(s.queue, h.kinds) && SourcesUnclaimed(s.queue, s.active, h.claims)
    requires FreshSource(h, e) && SourceKind(e) == None
    ensures var owners := if Source(e) == "" then s.messageOwners else s.messageOwners[Source(e) := owner];
            var claims := h.claims[owner := Claimed(h.claims, owner) + SourceSet(e)];
            && ClaimsOwned(s.active, owners, claims)
            && ClaimsKnown(s.active, claims, NotedKinds(h.kinds, e))
            && SourcesKnown(s.queue, NotedKinds(h.kinds, e))
            && SourcesUnclaimed(s.queue, s.active, claims)
  {
    hide Source, SourceKind, OwnerOf, Claimed, ClaimsOwned, ClaimsKnown, SourcesKnown, SourcesUnclaimed, FreshSource,
         NotedKinds, SourceSet;
    if Source(e) != "" {
      RoutedSourceApart(s.queue, s.active, h, e);
    }
    RoutedKeepsOwned(s.active, s.messageOwners, h.claims, e, owner);
    RoutedKeepsKnown(s.active, h.claims, h.kinds, e, owner);
    NotedKeepsSources(s.queue, h, e);
    RoutedStaysUnclaimed(s.queue, s.active, h.claims, e, owner);
  }

  lemma SignalKeepsChain(p: Params, w: World, e: Event)
    requires Inv(p, w) && ChainInv(w) && Enabled(p, w, Signal(e))
    requires !IsDuplicate(w.s, e) ==> FreshSource(w.h, e)
    ensures ChainInv(Next(p, w, Signal(e)))
  {
    hide Inv, AfterSignal, NotedSignal, Decide, IsDuplicate, FreshSource, ClaimsOwned, ClaimsKnown, SourcesKnown,
         SourcesApart, SourcesUnclaimed, Register, NotedKinds, Source, SourceSet, Claimed, TrimSpace, Remembered,
         SourceKind, Blank;
    var s, h := w.s, w.h;
    var o := OutcomeOf(s, e);
    SignalShape(s, e);
    SignalClaims(s, h, e);
    if o.Routed? {
      RoutedOwner(p, w, e);
      RoutedIsPlain(s, e);
      RegisterMessageAt(s, e, o.workflowId);
      RoutedKeepsChain(s, h, e, o.workflowId);
    } else if o == Queued {
      QueuedKeepsChain(s, h, e);
    }
  }

  lemma RoutedOwner(p: Params, w: World, e: Event)
    requires Inv(p, w) && OutcomeOf(w.s, e).Routed?
    ensures var o := OutcomeOf(w.s, e).workflowId;
            OutcomeOf(w.s, e) == Decide(w.s, e) && o != "" && TrimSpace(o) == o && OwnsActive(w.s.active, o)
  {
    hide OwnsActive, OwnersOk, ActiveOk, RecentOk, SchedulesOk, TrimSpace;
    RoutedOwnerIsActive(w.s, e);
    RoutedNotBlank(w.s, e);
  }

  lemma RoutedNotBlank(s: State, e: Event)
    requires Decide(s, e).Routed?
    ensures Decide(s, e).workflowId != ""
  {
    hide OwnerByReply, OwnerByThread, TrimSpace;
  }

  lemma SignalClaims(s: State, h: History, e: Event)
    ensures var g, o := NotedSignal(s, h, e), OutcomeOf(s, e);
            && g.claims == (if o.Routed? then
                              h.claims[TrimSpace(o.workflowId) :=
                                Claimed(h.claims, TrimSpace(o.workflowId)) + SourceSet(e)]
                            else h.claims)
            && g.kinds == (if o.Routed? || o == Queued then NotedKinds(h.kinds, e) else h.kinds)
  {
    hide OutcomeOf, TrimSpace, Blank, NotedKinds, SourceSet;
  }

  // ---- starts and ends ----------------------------------------------------------------------------

  // The claims of a task that has just started, and of the others.
  lemma StartedClaims(s: State, claims: Claims, e: Event, wf: string)
    requires forall id :: id in s.active ==> OwnerOf(s.active[id]) != TrimSpace(wf)
    requires e.id !in s.active
    ensures var more := claims[TrimSpace(wf) := SourceSet(e)];
            var active := s.active[e.id := ActiveTask(e, wf)];
            && OwnerOf(active[e.id]) == TrimSpace(wf)
            && Claimed(more, TrimSpace(wf)) == SourceSet(e)
            && (forall id :: id in s.active ==>
                  (active[id] == s.active[id] && Claimed(more, OwnerOf(s.active[id]))
                      == Claimed(claims, OwnerOf(s.active[id]))))
  {
    hide TrimSpace, SourceSet;
  }

  lemma StartedOwned(s: State, claims: Claims, e: Event, wf: string)
    requires ClaimsOwned(s.active, s.messageOwners, claims) && e.id !in s.active
    requires forall id :: id in s.active ==> OwnerOf(s.active[id]) != TrimSpace(wf)
    requires Source(e) != "" ==> forall id :: id in s.active ==> Source(e) !in Claimed(claims, OwnerOf(s.active[id]))
    ensures ClaimsOwned(s.active[e.id := ActiveTask(e, wf)],
                        if Source(e) == "" then s.messageOwners else s.messageOwners[Source(e) := TrimSpace(wf)],
                        claims[TrimSpace(wf) := SourceSet(e)])
  {
    StartedClaims(s, claims, e, wf);
    hide OwnerOf, Claimed, Source, TrimSpace;
  }

  lemma StartedKnown(s: State, claims: Claims, kinds: Kinds, e: Event, wf: string)
    requires ClaimsKnown(s.active, claims, kinds) && e.id !in s.active
    requires forall id :: id in s.active ==> OwnerOf(s.active[id]) != TrimSpace(wf)
    requires Source(e) != "" ==> Source(e) in kinds && kinds[Source(e)] == SourceKind(e)
    ensures ClaimsKnown(s.active[e.id := ActiveTask(e, wf)], claims[TrimSpace(wf) := SourceSet(e)], kinds)
  {
    StartedClaims(s, claims, e, wf);
    hide OwnerOf, Claimed, Source, TrimSpace, SourceKind;
  }

  lemma StartedUnclaimed(s: State, claims: Claims, e: Event, wf: string)
    requires s.queue != [] && e == s.queue[0] && e.id !in s.active
    requires SourcesUnclaimed(s.queue, s.active, claims) && SourcesApart(s.queue)
    requires forall id :: id in s.active ==> OwnerOf(s.active[id]) != TrimSpace(wf)
    ensures SourcesUnclaimed(s.queue[1..], s.active[e.id := ActiveTask(e, wf)], claims[TrimSpace(wf) := SourceSet(e)])
  {
    StartedClaims(s, claims, e, wf);
    hide OwnerOf, Claimed, Source, TrimSpace;
    var more := claims[TrimSpace(wf) := SourceSet(e)];
    var active := s.active[e.id := ActiveTask(e, wf)];
    forall i, id | 0 <= i < |s.queue| - 1 && id in active
      ensures Source(s.queue[1..][i]) !in Claimed(more, OwnerOf(active[id]))
    {
      assert s.queue[1..][i] == s.queue[i + 1];
    }
  }

  lemma DroppedKeepsSources(queue: seq<Event>, kinds: Kinds)
    requires SourcesKnown(queue, kinds) && SourcesApart(queue) && queue != []
    ensures SourcesKnown(queue[1..], kinds) && SourcesApart(queue[1..])
    ensures Source(queue[0]) != "" ==> Source(queue[0]) in kinds && kinds[Source(queue[0])] == SourceKind(queue[0])
  {
    hide Source, SourceKind;
  }

  lemma FirstUnclaimed(s: State, claims: Claims)
    requires s.queue != [] && SourcesUnclaimed(s.queue, s.active, claims)
    ensures forall id :: id in s.active ==> Source(s.queue[0]) !in Claimed(claims, OwnerOf(s.active[id]))
    ensures SourcesUnclaimed(s.queue[1..], s.active, claims)
  {
    hide Source, OwnerOf, Claimed;
  }

  // The workflow id of a starting task owns nothing yet.
  lemma StartedOwnerIsNew(p: Params, s: State, e: Event)
    requires ActiveOk(p, s.active) && CanStart(s) && !WorkflowRunning(s, TaskWorkflowId(p.projectId, e.id))
    ensures e.id !in s.active
    ensures var o := TrimSpace(TaskWorkflowId(p.projectId, e.id));
            && o != "" && TrimSpace(o) == o
            && (forall id :: id in s.active ==> OwnerOf(s.active[id]) != o)
  {
    StartedActive(p, s, e);
    var wf := TaskWorkflowId(p.projectId, e.id);
    var grown := s.active[e.id := ActiveTask(e, wf)];
    ActiveOwnersApart(p, grown);
    TrimSpaceOfTrimmed(TrimSpace(wf));
    hide ActiveOk, TrimSpace, TaskWorkflowId, WorkflowRunning;
    assert grown[e.id].workflowId == wf;
    forall id | id in s.active ensures OwnerOf(s.active[id]) != TrimSpace(wf) {
      assert id in grown && grown[id] == s.active[id];
    }
  }

  lemma StartKeepsChain(p: Params, w: World, failure: string)
    requires Inv(p, w) && ChainInv(w) && Enabled(p, w, StartChild(true, failure))
    ensures ChainInv(Next(p, w, StartChild(true, failure)))
  {
    hide TaskWorkflowId, Register, WorkflowRunning, ActiveOk, OwnersOk, QueueOk, ReportsOk, RecentOk, SchedulesOk,
         CanStart, Source, SourceSet, Claimed, OwnerOf, TrimSpace, SourceKind, ClaimsOwned, ClaimsKnown, SourcesKnown,
         SourcesApart, SourcesUnclaimed;
    var s, h := w.s, w.h;
    StartHasQueue(p, w, failure);
    var e := s.queue[0];
    var wf := TaskWorkflowId(p.projectId, e.id);
    StartedOwnerIsNew(p, s, e);
    RegisterTrims(s, e, wf);
    RegisterMessageAt(s, e, TrimSpace(wf));
    FirstUnclaimed(s, h.claims);
    DroppedKeepsSources(s.queue, h.kinds);
    StartedOwned(s, h.claims, e, wf);
    StartedKnown(s, h.claims, h.kinds, e, wf);
    StartedUnclaimed(s, h.claims, e, wf);
    StartedShape(p, s, failure);
  }

  lemma StartHasQueue(p: Params, w: World, failure: string)
    requires Enabled(p, w, StartChild(true, failure))
    ensures w.s.queue != [] && CanStart(w.s)
  {
    hide WorkflowRunning, TaskWorkflowId;
  }

  lemma StartedShape(p: Params, s: State, failure: string)
    requires s.queue != []
    ensures var e := s.queue[0];
            var wf, t := TaskWorkflowId(p.projectId, e.id), AfterStart(p, s, true, failure);
            && t.queue == s.queue[1..] && t.active == s.active[e.id := ActiveTask(e, wf)]
            && t.messageOwners == Register(s, e, wf).messageOwners
  {
    hide TaskWorkflowId, RegisterMessage, RegisterThreads;
  }

  lemma RegisterTrims(s: State, e: Event, owner: string)
    ensures TrimSpace(TrimSpace(owner)) == TrimSpace(owner)
    ensures Register(s, e, owner).messageOwners == Register(s, e, TrimSpace(owner)).messageOwners
  {
    TrimSpaceOfTrimmed(TrimSpace(owner));
  }

  lemma FailedStartKeepsChain(p: Params, w: World, failure: string)
    requires ChainInv(w) && Enabled(p, w, StartChild(false, failure))
    ensures ChainInv(Next(p, w, StartChild(false, failure)))
  {
    hide ClaimsOwned, ClaimsKnown, SourcesKnown, SourcesApart, SourcesUnclaimed, WorkflowRunning, TaskWorkflowId,
         Source, Claimed, OwnerOf, SourceKind;
    DroppedKeepsSources(w.s.queue, w.h.kinds);
    FirstUnclaimed(w.s, w.h.claims);
  }

  lemma FinishKeepsChain(p: Params, w: World, id: string, result: TaskResult)
    requires Inv(p, w) && ChainInv(w) && Enabled(p, w, Finish(id, result))
    ensures ChainInv(Next(p, w, Finish(id, result)))
  {
    hide ActiveOk, OwnersOk, QueueOk, ReportsOk, RecentOk, SchedulesOk, CanStart, Cleared, TrimSpace, ClaimsOwned,
         ClaimsKnown, SourcesKnown, SourcesApart, SourcesUnclaimed;
    var s, h := w.s, w.h;
    ActiveOwnersApart(p, s.active);
    FinishedClaims(s.active, s.messageOwners, h.claims, id);
    FewerClaims(s.queue, s.active, h.claims, h.kinds, id);
  }

  lemma FewerClaims(queue: seq<Event>, active: ActiveMap, claims: Claims, kinds: Kinds, id: string)
    requires ClaimsKnown(active, claims, kinds) && SourcesUnclaimed(queue, active, claims)
    ensures ClaimsKnown(active - {id}, claims, kinds) && SourcesUnclaimed(queue, active - {id}, claims)
  {
    hide Source, OwnerOf, Claimed, SourceSet, SourceKind;
  }

  lemma FinishedClaims(active: ActiveMap, owners: Owners, claims: Claims, id: string)
    requires ClaimsOwned(active, owners, claims) && id in active
    requires forall i, j :: i in active && j in active && i != j
               ==> TrimSpace(active[i].workflowId) != TrimSpace(active[j].workflowId)
    ensures ClaimsOwned(active - {id}, Cleared(owners, active[id].workflowId), claims)
  {
    hide TrimSpace, Claimed;
    var rest := active - {id};
    assert forall i :: i in rest ==> i in active && i != id && rest[i] == active[i];
  }

  lemma NextKeepsChain(p: Params, w: World, a: Step)
    requires Inv(p, w) && ChainInv(w) && Enabled(p, w, a)
    requires a.Signal? && !IsDuplicate(w.s, a.event) ==> FreshSource(w.h, a.event)
    ensures ChainInv(Next(p, w, a))
  {
    hide Inv, ChainInv, Next, Enabled, FreshSource, IsDuplicate;
    match a
    case Signal(e) =>
      SignalKeepsChain(p, w, e);
    case StartChild(ok, failure) =>
      if ok {
        StartKeepsChain(p, w, failure);
      } else {
        FailedStartKeepsChain(p, w, failure);
      }
    case Finish(id, result) =>
      FinishKeepsChain(p, w, id, result);
    case _ =>
      OtherStepsKeepChain(p, w, a);
  }

  lemma OtherStepsKeepChain(p: Params, w: World, a: Step)
    requires Inv(p, w) && ChainInv(w) && Enabled(p, w, a) && (a.Deliver? || a.Renew? || a.BeginStarts? || a.EndStarts?)
    ensures ChainInv(Next(p, w, a))
  {
    if a.Renew? {
      RenewLosesNothing(p, w);
    }
    hide Inv, ClaimsOwned, ClaimsKnown, SourcesKnown, SourcesApart, SourcesUnclaimed, Resumed, SnapshotOf, MayRenew,
         CanStart;
  }

  lemma {:induction false} RunKeepsChain(p: Params, w: World, steps: seq<Step>, w': World)
    requires Inv(p, w) && ChainInv(w) && Run(p, w, steps, w') && DistinctSources(p, w, steps)
    ensures Inv(p, w') && ChainInv(w')
    decreases |steps|
  {
    if steps != [] {
      NextKeepsInv(p, w, steps[0]);
      NextKeepsChain(p, w, steps[0]);
      hide Inv, ChainInv, Next, Enabled, FreshSource, IsDuplicate;
      RunKeepsChain(p, Next(p, w, steps[0]), steps[1..], w');
    }
  }

  // Reply chains stick: in every run with distinct source messages, a fresh ordinary event
  // that answers any message of an active task goes to that task, and becomes one of its
  // messages.
  lemma RepliesStick(p: Params, steps: seq<Step>, w: World, id: string, e: Event)
    requires Run(p, Initial, steps, w) && DistinctSources(p, Initial, steps)
    requires id in w.s.active && !IsDuplicate(w.s, e)
    requires !IsScheduledTask(e) && !IsResetCommand(e.body) && !IsOnboardingCommand(e.body)
    requires ReplyTo(e) in Claimed(w.h.claims, OwnerOf(w.s.active[id]))
    ensures var owner := OwnerOf(w.s.active[id]);
            && OutcomeOf(w.s, e) == Routed(owner, !Blank(e.body))
            && Claimed(NotedSignal(w.s, w.h, e).claims, owner)
               == Claimed(w.h.claims, owner) + SourceSet(e)
  {
    hide Inv, ChainInv, Next, Enabled, Run, DistinctSources, NotedSignal, TrimSpace, IsDuplicate, SourceSet, Blank,
         Claimed, IsScheduledTask, IsResetCommand, IsOnboardingCommand, OwnerByReply, OwnerByThread, ReplyTo, OwnerOf,
         IsStandalone, ControlAction;
    InitialInv(p);
    InitialChain();
    RunKeepsChain(p, Initial, steps, w);
    var owner := OwnerOf(w.s.active[id]);
    ReplyFindsOwner(p, w, id, e);
    SignalClaims(w.s, w.h, e);
    MoreClaimed(w.h.claims, owner, SourceSet(e));
  }

  lemma MoreClaimed(claims: Claims, owner: string, more: set<string>)
    ensures Claimed(claims[owner := Claimed(claims, owner) + more], owner) == Claimed(claims, owner) + more
  {
  }

  lemma InitialChain()
    ensures ChainInv(Initial)
  {
  }

  lemma ReplyFindsOwner(p: Params, w: World, id: string, e: Event)
    requires Inv(p, w) && ChainInv(w) && id in w.s.active
    requires ReplyTo(e) in Claimed(w.h.claims, OwnerOf(w.s.active[id]))
    ensures var owner := OwnerOf(w.s.active[id]);
            OwnerByReply(w.s.messageOwners, e) == owner && owner != "" && TrimSpace(owner) == owner
  {
    hide OwnersOk, QueueOk, ReportsOk, RecentOk, SchedulesOk, CanStart, SourcesKnown, SourcesApart, SourcesUnclaimed,
         ActiveOk, ClaimsOwned, ClaimsKnown, TrimSpace, Claimed, ReplyTo;
    ActiveOwnersApart(p, w.s.active);
    TrimSpaceOfTrimmed(OwnerOf(w.s.active[id]));
    ClaimIsOwned(w.s.active, w.s.messageOwners, w.h.claims, w.h.kinds, id, ReplyTo(e));
  }

  lemma ClaimIsOwned(active: ActiveMap, owners: Owners, claims: Claims, kinds: Kinds, id: string, m: string)
    requires ClaimsOwned(active, owners, claims) && ClaimsKnown(active, claims, kinds)
    requires id in active && m in Claimed(claims, OwnerOf(active[id]))
    ensures m != "" && m in owners && owners[m] == OwnerOf(active[id])
  {
    hide Claimed, OwnerOf, SourceSet, SourceKind;
  }

  // The messages of a task are its own source and the sources of all events routed to it.
  lemma TaskClaimsItsSource(p: Params, steps: seq<Step>, w: World, id: string)
    requires Run(p, Initial, steps, w) && DistinctSources(p, Initial, steps) && id in w.s.active
    ensures SourceSet(w.s.active[id].event) <= Claimed(w.h.claims, OwnerOf(w.s.active[id]))
  {
    InitialInv(p);
    RunKeepsChain(p, Initial, steps, w);
  }

  // ---- threads -----------------------------------------------------------------------------------------

  // After an event has been registered for a task, an event of the same channel and thread
  // is routed to that task.
  lemma ThreadSticks(s: State, e: Event, owner: string, f: Event)
    requires owner != "" && TrimSpace(owner) == owner && !Blank(e.threadId)
    requires TrimSpace(f.threadId) == TrimSpace(e.threadId) && TrimSpace(f.channelId) == TrimSpace(e.channelId)
    ensures OwnerByThread(Register(s, e, owner).threadOwners, f) == owner
  {
    TrimSpaceOfTrimmed(TrimSpace(e.threadId));
    TrimSpaceOfTrimmed(TrimSpace(e.channelId));
    hide TrimSpace;
  }

  lemma {:induction false} CutAtNul(a: string, b: string, c: string, d: string)
    requires '\0' !in a && '\0' !in c && a + "\0" + b == c + "\0" + d
    ensures a == c && b == d
  {
    var s, t := a + "\0" + b, c + "\0" + d;
    assert s[0] == t[0];
    if a != "" && c != "" {
      assert s[1..] == a[1..] + "\0" + b && t[1..] == c[1..] + "\0" + d;
      CutAtNul(a[1..], b, c[1..], d);
      assert a == [a[0]] + a[1..] && c == [c[0]] + c[1..];
      assert a[0] == s[0] && c[0] == t[0];
    } else if a == "" && c == "" {
      assert s[1..] == b && t[1..] == d;
    }
  }

  // Threads of different channels, and different threads of one channel, never share a key
  // when channel ids are free of the separator.
  lemma ThreadKeysApart(channelA: string, threadA: string, channelB: string, threadB: string)
    requires !Blank(threadA) && !Blank(threadB) && !Blank(channelA) && !Blank(channelB)
    requires '\0' !in TrimSpace(channelA) && '\0' !in TrimSpace(channelB)
    ensures ThreadOwnerKey(channelA, threadA) == ThreadOwnerKey(channelB, threadB)
       <==> TrimSpace(channelA) == TrimSpace(channelB) && TrimSpace(threadA) == TrimSpace(threadB)
  {
    hide TrimSpace;
    if ThreadOwnerKey(channelA, threadA) == ThreadOwnerKey(channelB, threadB) {
      CutAtNul(TrimSpace(channelA), TrimSpace(threadA), TrimSpace(channelB), TrimSpace(threadB));
    }
  }

  // ---- owners, counters, reports ---------------------------------------------------------------------

  // No dangling owner: every message owner and thread owner is the workflow id of a task
  // that is active, and a run that continues as new has no owner at all to carry over.
  lemma NoDanglingOwner(p: Params, steps: seq<Step>, w: World)
    requires Run(p, Initial, steps, w)
    ensures forall m :: m in w.s.messageOwners ==> OwnsActive(w.s.active, w.s.messageOwners[m])
    ensures forall t :: t in w.s.threadOwners ==> OwnsActive(w.s.active, w.s.threadOwners[t])
    ensures Enabled(p, w, Renew) ==>
              w.s.messageOwners == map[] && w.s.threadOwners == map[] && Resumed(SnapshotOf(w.s)) == w.s
  {
    hide Run, Enabled, ActiveOk, QueueOk, ReportsOk, RecentOk, SchedulesOk, OwnsActive, Resumed, SnapshotOf, CanStart;
    InitialInv(p);
    RunKeepsInv(p, Initial, steps, w);
    if Enabled(p, w, Renew) {
      RenewLosesNothing(p, w);
    }
  }

  // A routed or controlling signal always targets a task that is active now.
  lemma SignalsTargetActiveTasks(p: Params, steps: seq<Step>, w: World, e: Event)
    requires Run(p, Initial, steps, w)
    ensures match OutcomeOf(w.s, e)
            case Routed(owner, _) => OwnsActive(w.s.active, owner)
            case Controlled(wf, _) => wf == "" <==> w.s.active == map[]
            case _ => true
    ensures OutcomeOf(w.s, e).Controlled? && w.s.active != map[] ==>
              exists id :: id in w.s.active && w.s.active[id].workflowId == OutcomeOf(w.s, e).workflowId
  {
    InitialInv(p);
    RunKeepsInv(p, Initial, steps, w);
    if OutcomeOf(w.s, e).Routed? {
      RoutedOwner(p, w, e);
    } else if OutcomeOf(w.s, e).Controlled? {
      ControlledTarget(p, w.s, e);
    }
  }

  lemma ControlledTarget(p: Params, s: State, e: Event)
    requires ActiveOk(p, s.active) && OutcomeOf(s, e).Controlled?
    ensures OutcomeOf(s, e).workflowId == "" <==> s.active == map[]
    ensures s.active != map[] ==> exists id :: id in s.active && s.active[id].workflowId == OutcomeOf(s, e).workflowId
  {
    hide OwnerByReply, OwnerByThread, TrimSpace, IsResetCommand, IsOnboardingCommand, Overlaps, ControlAction;
    if s.active != map[] {
      assert s.active.Keys != {};
      FirstExists(s.active.Keys);
      var k :| IsFirst(s.active.Keys, k);
      FirstIsUnique(s.active, k);
      assert |s.active[k].workflowId| >= 6;
    }
  }

  // Scheduler accounting over a whole run.
  lemma SchedulerConserves(p: Params, steps: seq<Step>, w: World)
    requires Run(p, Initial, steps, w)
    ensures |w.s.queue| + |w.s.active| + w.s.processed == |w.h.enqueued|
    ensures |w.s.active| <= 4
    ensures w.h.enqueued == w.h.taken + w.s.queue
    ensures w.h.produced == w.h.delivered + w.s.pending
    ensures w.phase == Blocked ==> w.s.queue == [] || |w.s.active| == 4
    ensures Enabled(p, w, Renew) ==> w.h.produced == w.h.delivered && Resumed(SnapshotOf(w.s)) == w.s
  {
    InitialInv(p);
    RunKeepsInv(p, Initial, steps, w);
    if Enabled(p, w, Renew) {
      RenewLosesNothing(p, w);
      assert w.h.delivered + [] == w.h.delivered;
    }
    hide RecentOk, SchedulesOk, OwnersOk;
  }

  lemma SchedulesNeverOverlap(p: Params, steps: seq<Step>, w: World)
    requires Run(p, Initial, steps, w)
    ensures SchedulesOk(w.s.queue, w.s.active)
  {
    InitialInv(p);
    RunKeepsInv(p, Initial, steps, w);
  }

  // ---- the dedupe window ---------------------------------------------------------------------------------

  // The last thousand of the accepted ids.
  function Newest(ids: seq<string>): seq<string> {
    if |ids| > 1000 then ids[|ids| - 1000..] else ids
  }

  // The window is the end of the full log: no id twice in it, an id comes back only after
  // a thousand others, and an id of the last thousand accepted ones changes nothing.
  lemma WindowRefinesLog(p: Params, steps: seq<Step>, w: World, e: Event)
    requires Run(p, Initial, steps, w)
    ensures w.s.recent == Newest(w.h.accepted)
    ensures forall i, j :: 0 <= i < j < |w.s.recent| ==> w.s.recent[i] != w.s.recent[j]
    ensures forall i, j :: 0 <= i < j < |w.h.accepted| && w.h.accepted[i] == w.h.accepted[j] ==>
              j - i - 1 >= 1000
    ensures !Blank(e.id) && TrimSpace(e.id) in Newest(w.h.accepted)
       ==> AfterSignal(w.s, e) == w.s && NotedSignal(w.s, w.h, e) == w.h
  {
    hide Inv, TrimSpace, Blank, Decide, Next, Enabled, Run, RecentOk, Remembered, Register, NotedKinds, SourceSet;
    InitialInv(p);
    RunKeepsInv(p, Initial, steps, w);
    InvGivesRecent(p, w);
    RecentIsDistinct(w.s.recent, w.h.accepted);
  }

  lemma InvGivesRecent(p: Params, w: World)
    requires Inv(p, w)
    ensures RecentOk(w.s.recent, w.h.accepted)
  {
    hide RecentOk, ActiveOk, OwnersOk, QueueOk, ReportsOk, SchedulesOk, CanStart;
  }

  lemma RecentIsDistinct(recent: seq<string>, a: seq<string>)
    requires RecentOk(recent, a)
    ensures recent == TrimRecent(a)
    ensures forall i, j :: 0 <= i < j < |recent| ==> recent[i] != recent[j]
    ensures forall i, j :: 0 <= i < j < |a| && a[i] == a[j] ==> j - i - 1 >= RECENT_LIMIT
  {
    var start := if |a| <= RECENT_LIMIT then 0 else |a| - RECENT_LIMIT;
    forall i, j | 0 <= i < j < |recent| ensures recent[i] != recent[j] {
      assert recent[i] == a[start + i] && recent[j] == a[start + j];
    }
  }
}
