/** When the pump's walk over the queues comes to an end. The walk is over a live map: it
    also visits entries that are added on the way, and after the map is cleared it goes on
    with whatever is put in next. */
module PumpWalk {
  import opened Collections
  import opened Protocol
  import opened JobCore
  import opened JobInvariants
  import opened JobSteps
  import opened JobPump
  import opened JobEvents
  import opened QueueBounds
  import opened Guarantees
  import Scheduler

  // ---- the walk, without any bound ----

  datatype Place = Place(c: Ctx, k: nat) {
    predicate Over() { k >= |c.job.queues.keys| }
  }

  function Onward(p: Place): Place {
    if p.Over() then p
    else
      var d := VisitQueue(p.c, p.k);
      if Cleared(p.c, d) then Place(d, 0) else Place(d, p.k + 1)
  }

  function Walk(p: Place, visits: nat): Place
    decreases visits
  {
    if visits == 0 then p else Walk(Onward(p), visits - 1)
  }

  /** Where the bounded walk ends, the unbounded one ends too, in the same state. */
  lemma {:induction false} BoundNeverBites(start: Ctx, c: Ctx, k: nat, visits: nat, rebuilt: bool) returns (m: nat)
    requires Sound(start) && Within(start, c) && k + visits == Visits(start)
    requires DrainEnds(c, k, visits, rebuilt)
    ensures Walk(Place(c, k), m).Over() && Walk(Place(c, k), m).c == DrainAll(c, k, visits, rebuilt)
    decreases if rebuilt then 0 else 1, visits
  {
    hide VisitQueue, Cleared, Within, Sound;
    QueueCount(start, c);
    if k >= |c.job.queues.keys| {
      m := 0;
    } else {
      var d := VisitQueue(c, k);
      WithinSound(start, c);
      VisitWithin(c, k);
      if !Cleared(c, d) {
        WithinTrans(start, c, d);
        m := BoundNeverBites(start, d, k + 1, visits - 1, rebuilt);
      } else {
        WithinSound(c, d);
        WithinSelf(d);
        m := BoundNeverBites(d, d, 0, Visits(d), true);
      }
      m := m + 1;
    }
  }

  // ---- the condition ----

  /** A send to n is about to fail and the pipeline would be rebuilt. */
  ghost predicate RebuildsAt(c: Ctx, n: NodeId) {
    && QueueOf(c.job.queues, n) != []
    && n in c.nodes.items && c.nodes.items[n].Free() && !c.nodes.items[n].socketOpen
    && Replan(c).Some?
  }

  ghost predicate Rebuilds(c: Ctx) {
    c.job.pipeline.Some? && exists n :: RebuildsAt(c, n)
  }

  /** And the head of the rebuilt pipeline has a free slot but no open socket either. */
  ghost predicate Spins(c: Ctx) {
    && Rebuilds(c)
    && var h := Replan(c).value.headNodeId;
       h in c.nodes.items && c.nodes.items[h].Free() && !c.nodes.items[h].socketOpen
  }

  // ---- one visit of a pipeline job ----

  ghost predicate NoneWaits(job: Job) {
    forall t | 0 <= t < |job.tasks| :: !job.tasks[t].Waiting()
  }

  lemma InvConserved(c: Ctx, reach: set<NodeId>)
    requires Inv(c, reach, {})
    ensures Conserved(c.job, {}) && PipelineOk(c.job)
  {
  }

  lemma NoQueues(c: Ctx, reach: set<NodeId>, n: NodeId)
    requires Inv(c, reach, {}) && NoneWaits(c.job)
    ensures QueueOf(c.job.queues, n) == []
  {
    hide Inv, Gather;
    InvConserved(c, reach);
    var q := QueueOf(c.job.queues, n);
    if q != [] {
      QueuedIs(c.job, n, 0);
    }
  }

  /** What is queued is a waiting task. */
  lemma QueuedIs(job: Job, n: NodeId, i: nat)
    requires Conserved(job, {}) && i < |QueueOf(job.queues, n)|
    ensures var t := QueueOf(job.queues, n)[i]; t < |job.tasks| && job.tasks[t].Waiting() && QueuedAt(job, t, n, i)
  {
    hide Gather;
    var q, t := QueueOf(job.queues, n), QueueOf(job.queues, n)[i];
    QueuedMember(job.queues.keys, job.queues, n);
    var mq: multiset<TaskId> := multiset(q);
    assert t in q && mq[t] >= 1;
    assert mq[t] <= Queued(job.queues)[t];
  }

  /** A pipeline job has its one task in at most one queue. */
  lemma SoleQueue(c: Ctx, n: NodeId, reach: set<NodeId>)
    requires Inv(c, reach, {}) && c.job.pipeline.Some? && QueueOf(c.job.queues, n) != []
    ensures |c.job.tasks| == 1 && QueueOf(c.job.queues, n) == [0] && c.job.request.kind == Chat
    ensures forall m :: m != n ==> QueueOf(c.job.queues, m) == []
    ensures c.job.tasks[0].Waiting() && c.job.tasks[0].nodeId.None? && c.job.tasks[0].attempts < c.cfg.maxTaskAttempts
  {
    hide Inv, Conserved;
    InvConserved(c, reach);
    var q := QueueOf(c.job.queues, n);
    QueuedIs(c.job, n, 0);
    InvTask(c, 0, reach, {});
    if |q| > 1 {
      QueuedIs(c.job, n, 1);
      SamePlace(c.job, 0, n, 0, n, 1);
    }
    forall m | m != n
      ensures QueueOf(c.job.queues, m) == []
    {
      if QueueOf(c.job.queues, m) != [] {
        QueuedIs(c.job, m, 0);
        SamePlace(c.job, 0, n, 0, m, 0);
      }
    }
  }

  /** A visit that finds nothing to send changes nothing. */
  lemma VisitNothing(c: Ctx, k: nat)
    requires k < |c.job.queues.keys|
    requires var n := c.job.queues.keys[k];
             QueueOf(c.job.queues, n) == [] || n !in c.nodes.items || !c.nodes.items[n].Free()
    ensures VisitQueue(c, k) == c
  {
    hide Dispatch;
  }

  /** The send that a visit to n tries, for the one task of a pipeline job. */
  ghost function Tried(c: Ctx, n: NodeId): Ctx {
    Dispatch(c.(job := c.job.(queues := c.job.queues.Set(n, []))), 0, n)
  }

  lemma VisitSends(c: Ctx, k: nat, reach: set<NodeId>)
    requires Inv(c, reach, {}) && c.cfg.maxTaskAttempts >= 1 && c.job.pipeline.Some? && k < |c.job.queues.keys|
    requires var n := c.job.queues.keys[k];
             QueueOf(c.job.queues, n) != [] && n in c.nodes.items && c.nodes.items[n].Free()
    ensures VisitQueue(c, k) == Tried(c, c.job.queues.keys[k])
  {
    hide Inv, Dispatch;
    var n := c.job.queues.keys[k];
    SoleQueue(c, n, reach);
    var q := QueueOf(c.job.queues, n);
    assert q[1..] == [];
    var d := Tried(c, n);
    assert Shift(c, n) == c.(job := c.job.(queues := c.job.queues.Set(n, [])));
    TriedOutcome(c, n, reach);
    var slots := FreeSlots(c.nodes.items[n]);
    assert Drain(c, n, slots) == if Cleared(c, d) then d else Drain(d, n, slots - 1);
  }

  /** Sent, given up, or the pipeline rebuilt around another head. */
  lemma TriedOutcome(c: Ctx, n: NodeId, reach: set<NodeId>)
    requires Inv(c, reach, {}) && c.cfg.maxTaskAttempts >= 1 && c.job.pipeline.Some?
    requires QueueOf(c.job.queues, n) != [] && n in c.nodes.items && c.nodes.items[n].Free()
    ensures var d := Tried(c, n);
            && d.job.pipeline.Some? && d.cfg == c.cfg && d.job.request == c.job.request
            && (!RebuildsAt(c, n) ==> !Cleared(c, d) && NoneWaits(d.job) && QueueOf(d.job.queues, n) == [])
            && (RebuildsAt(c, n) ==>
                  && Cleared(c, d) && d.nodes == c.nodes
                  && d.job.queues == EmptyMap().Set(Replan(c).value.headNodeId, [0]))
  {
    hide Inv, MaybeFinish, Replan;
    SoleQueue(c, n, reach);
    var b := c.(job := c.job.(queues := c.job.queues.Set(n, [])));
    if !c.nodes.items[n].socketOpen {
      assert Tried(c, n) == JobCore.Requeue(b, 0);
      RequeueSole(b);
      SamePlan(c, b);
      ChatGivesUp(b);
    }
  }

  lemma RequeueSole(b: Ctx)
    requires |b.job.tasks| == 1 && b.job.pipeline.Some?
    requires b.job.tasks[0].nodeId.None? && b.job.tasks[0].attempts < b.cfg.maxTaskAttempts
    ensures Requeue(b, 0)
         == if Replan(b).None? then MaybeFinish(Release(b, 0, Failed)) else Reform(b, 0, Replan(b).value)
  {
    hide MaybeFinish, Replan, Reform;
    SamePlan(b, Release(b, 0, b.job.tasks[0].status));
  }

  lemma SamePlan(c: Ctx, d: Ctx)
    requires d.nodes == c.nodes && d.cfg == c.cfg && d.job.request == c.job.request
    ensures Replan(d) == Replan(c)
  {
  }

  /** The one task of a chat given up: the job fails. */
  lemma ChatGivesUp(b: Ctx)
    requires |b.job.tasks| == 1 && b.job.request.kind == Chat
    ensures var d := MaybeFinish(Release(b, 0, Failed));
            && d.job.pipeline == b.job.pipeline && d.job.queues == b.job.queues && d.job.deferred == b.job.deferred
            && d.cfg == b.cfg && d.job.request == b.job.request
            && d.job.tasks == b.job.tasks[0 := d.job.tasks[0]] && d.job.tasks[0].status == Failed
  {
    hide Dispatch, FinalOutput, ReducePrompt, Scheduler.PickReduceNode, Scheduler.Views;
  }

  lemma VisitPlain(c: Ctx, k: nat, reach: set<NodeId>)
    requires Inv(c, reach, {}) && c.cfg.maxTaskAttempts >= 1 && c.job.pipeline.Some? && k < |c.job.queues.keys|
    requires !RebuildsAt(c, c.job.queues.keys[k])
    ensures var d := VisitQueue(c, k); !Cleared(c, d) && d.job.pipeline.Some? && (d == c || NoneWaits(d.job))
  {
    hide Inv, Tried, VisitQueue, RebuildsAt, NoneWaits;
    var n := c.job.queues.keys[k];
    if QueueOf(c.job.queues, n) != [] && n in c.nodes.items && c.nodes.items[n].Free() {
      VisitSends(c, k, reach);
      TriedOutcome(c, n, reach);
    } else {
      VisitNothing(c, k);
    }
  }

  lemma VisitRebuilds(c: Ctx, k: nat, reach: set<NodeId>)
    requires Inv(c, reach, {}) && c.cfg.maxTaskAttempts >= 1 && c.job.pipeline.Some? && k < |c.job.queues.keys|
    requires RebuildsAt(c, c.job.queues.keys[k])
    ensures var d, h := VisitQueue(c, k), Replan(c).value.headNodeId;
            && Cleared(c, d) && d.job.pipeline.Some? && d.nodes == c.nodes
            && d.job.queues.keys == [h] && QueueOf(d.job.queues, h) == [0]
            && (forall m :: m != h ==> QueueOf(d.job.queues, m) == [])
            && Replan(d) == Replan(c)
  {
    hide Inv, Tried, VisitQueue, Replan;
    VisitSends(c, k, reach);
    TriedOutcome(c, c.job.queues.keys[k], reach);
    SamePlan(c, VisitQueue(c, k));
    assert [] + [Replan(c).value.headNodeId] == [Replan(c).value.headNodeId];
  }

  lemma NothingRebuilds(c: Ctx, reach: set<NodeId>)
    requires Inv(c, reach, {}) && NoneWaits(c.job)
    ensures !Rebuilds(c)
  {
    hide Inv, NoneWaits;
    forall n
      ensures !RebuildsAt(c, n)
    {
      NoQueues(c, reach, n);
    }
  }

  lemma {:induction false} PipelineEnds(c: Ctx, k: nat, visits: nat, rebuilt: bool, reach: set<NodeId>)
    requires Inv(c, reach, {}) && c.cfg.maxTaskAttempts >= 1 && c.job.pipeline.Some?
    requires !Spins(c) && (rebuilt ==> !Rebuilds(c))
    ensures DrainEnds(c, k, visits, rebuilt)
    decreases if rebuilt then 0 else 1, visits
  {
    hide Inv, Follows, VisitQueue, Cleared, Replan, NoneWaits;
    if visits > 0 && k < |c.job.queues.keys| {
      var n, d := c.job.queues.keys[k], VisitQueue(c, k);
      VisitOk(c, k, reach);
      FollowsCfg(c, d);
      if RebuildsAt(c, n) {
        VisitRebuilds(c, k, reach);
        assert !Rebuilds(d);
        PipelineEnds(d, 0, Visits(d), true, reach);
      } else {
        VisitPlain(c, k, reach);
        if d != c { NothingRebuilds(d, reach); }
        PipelineEnds(d, k + 1, visits - 1, rebuilt, reach);
      }
    }
  }

  // ---- a job without a pipeline ----

  lemma {:induction false} DispatchKeepsNone(c: Ctx, t: TaskId, n: NodeId)
    requires c.job.pipeline.None?
    ensures Dispatch(c, t, n).job.pipeline.None?
    decreases ReduceBudget(c.job), 2
  {
    hide MaybeFinish, RequeueTarget;
    if t < |c.job.tasks| {
      FinishKeepsNone(Release(c, t, Failed));
    }
  }

  lemma {:induction false} FinishKeepsNone(c: Ctx)
    requires c.job.pipeline.None?
    ensures MaybeFinish(c).job.pipeline.None?
    decreases ReduceBudget(c.job), 0
  {
    hide Dispatch, MapOutputs, FinalOutput, WantsReduce, ReducePrompt, FindReduce, Scheduler.PickReduceNode,
         Scheduler.Views;
    var reducer := Scheduler.PickReduceNode(c.cfg, Scheduler.Views(c.nodes), c.job.request.model);
    if reducer.Some? && !c.job.reduceDispatched {
      DispatchKeepsNone(StartReduce(c), |c.job.tasks|, reducer.value.nodeId);
    }
  }

  lemma {:induction false} DrainKeepsNone(c: Ctx, n: NodeId, slots: int)
    requires c.job.pipeline.None?
    ensures Drain(c, n, slots).job.pipeline.None?
    decreases slots
  {
    hide Dispatch;
    if slots > 0 && QueueOf(c.job.queues, n) != [] {
      DispatchKeepsNone(Shift(c, n), QueueOf(c.job.queues, n)[0], n);
      DrainKeepsNone(Dispatch(Shift(c, n), QueueOf(c.job.queues, n)[0], n), n, slots - 1);
    }
  }

  lemma {:induction false} PlainEnds(c: Ctx, k: nat, visits: nat)
    requires c.job.pipeline.None?
    ensures DrainEnds(c, k, visits, false)
    decreases visits
  {
    hide Drain;
    if visits > 0 && k < |c.job.queues.keys| {
      var n := c.job.queues.keys[k];
      if n in c.nodes.items { DrainKeepsNone(c, n, FreeSlots(c.nodes.items[n])); }
      PlainEnds(VisitQueue(c, k), k + 1, visits - 1);
    }
  }

  // ---- the walk that never ends ----

  lemma {:induction false} WalkGoesOn(c: Ctx, k: nat, p: nat, visits: nat, reach: set<NodeId>)
    requires Inv(c, reach, {}) && c.cfg.maxTaskAttempts >= 1 && Spins(c)
    requires k <= p < |c.job.queues.keys| && RebuildsAt(c, c.job.queues.keys[p])
    ensures !Walk(Place(c, k), visits).Over()
    decreases visits
  {
    hide Inv, Follows, VisitQueue, Replan, Cleared;
    if visits > 0 {
      var d := VisitQueue(c, k);
      if k < p {
        QueuesValid(c, reach);
        SoleQueue(c, c.job.queues.keys[p], reach);
        VisitNothing(c, k);
        assert !Cleared(c, c) by { NotCleared(c); }
        WalkGoesOn(c, k + 1, p, visits - 1, reach);
      } else {
        VisitRebuilds(c, k, reach);
        VisitOk(c, k, reach);
        FollowsCfg(c, d);
        assert RebuildsAt(d, Replan(c).value.headNodeId);
        WalkGoesOn(d, 0, 0, visits - 1, reach);
      }
    }
  }

  lemma NotCleared(c: Ctx)
    ensures !Cleared(c, c)
  {
  }

  lemma SpinsForever(c: Ctx, visits: nat, reach: set<NodeId>)
    requires Inv(c, reach, {}) && c.cfg.maxTaskAttempts >= 1 && Spins(c)
    ensures !Walk(Place(c, 0), visits).Over()
  {
    hide Inv, Replan;
    var n :| RebuildsAt(c, n);
    QueuesValid(c, reach);
    assert n in c.job.queues.keys;
    var p :| 0 <= p < |c.job.queues.keys| && c.job.queues.keys[p] == n;
    WalkGoesOn(c, 0, p, visits, reach);
  }

  lemma InvSound(c: Ctx, reach: set<NodeId>)
    requires Inv(c, reach, {})
    ensures Sound(c)
  {
  }

  /** The walk of a pump ends, in the state that `DrainAll` says, unless it has to rebuild
      a pipeline and the head of the rebuilt one has a free slot but no open socket: then it
      never does. A job without a pipeline, or with a head that can be reached, is safe. */
  lemma WalkEndsExactly(c: Ctx, reach: set<NodeId>)
    requires Inv(c, reach, {}) && c.cfg.maxTaskAttempts >= 1
    ensures (exists m :: Walk(Place(c, 0), m).Over()) <==> !Spins(c)
    ensures DrainEnds(c, 0, Visits(c), false) <==> !Spins(c)
    ensures !Spins(c) ==>
              exists m :: Walk(Place(c, 0), m).Over() && Walk(Place(c, 0), m).c == DrainAll(c, 0, Visits(c), false)
  {
    hide Inv, Walk, DrainAll, DrainEnds, Spins;
    InvSound(c, reach);
    WithinSelf(c);
    if DrainEnds(c, 0, Visits(c), false) {
      var m := BoundNeverBites(c, c, 0, Visits(c), false);
    }
    if Spins(c) {
      forall m
        ensures !Walk(Place(c, 0), m).Over()
      {
        SpinsForever(c, m, reach);
      }
    } else if c.job.pipeline.Some? {
      PipelineEnds(c, 0, Visits(c), false, reach);
    } else {
      PlainEnds(c, 0, Visits(c));
    }
  }
}
