/** Queues only ever get names of connected nodes added, so the pump's walk over a map that
    grows while it is walked comes to an end. */
module QueueBounds {
  import opened Collections
  import opened Protocol
  import opened JobCore
  import opened JobInvariants
  import opened JobSteps
  import opened Submission
  import opened SubmissionProofs
  import Clusters
  import Scheduler

  ghost predicate Sound(c: Ctx) {
    c.job.queues.Valid() && c.nodes.Valid()
  }

  /** No queue is new but those of connected nodes. */
  ghost predicate Within(c: Ctx, d: Ctx) {
    && Sound(d)
    && d.nodes.keys == c.nodes.keys && d.nodes.items.Keys == c.nodes.items.Keys
    && (forall n :: n in d.job.queues.keys ==> n in c.job.queues.keys || n in c.nodes.keys)
  }

  lemma WithinTrans(a: Ctx, b: Ctx, c: Ctx)
    requires Within(a, b) && Within(b, c)
    ensures Within(a, c)
  {
  }

  lemma WithinSelf(c: Ctx)
    requires Sound(c)
    ensures Within(c, c)
  {
  }

  lemma {:induction false} DispatchWithin(c: Ctx, t: TaskId, n: NodeId)
    requires Sound(c)
    ensures Within(c, Dispatch(c, t, n))
    decreases ReduceBudget(c.job), 2
  {
    hide Requeue;
    if t < |c.job.tasks| && !(n in c.nodes.items && c.nodes.items[n].socketOpen) {
      RequeueWithin(c, t);
    }
  }

  lemma {:induction false} RequeueWithin(c: Ctx, t: TaskId)
    requires Sound(c) && t < |c.job.tasks|
    ensures Within(c, Requeue(c, t))
    decreases ReduceBudget(c.job), 1
  {
    hide MaybeFinish, Replan, RequeueTarget;
    var freed := Release(c, t, c.job.tasks[t].status);
    assert freed.nodes.items.Keys == c.nodes.items.Keys;
    ReplanHead(freed);
    var failed := Release(c, t, Failed);
    MaybeFinishWithin(failed);
  }

  lemma {:induction false} MaybeFinishWithin(c: Ctx)
    requires Sound(c)
    ensures Within(c, MaybeFinish(c))
    decreases ReduceBudget(c.job), 0
  {
    hide Dispatch, MapOutputs, FinalOutput, WantsReduce, ReducePrompt, FindReduce, Scheduler.PickReduceNode,
         Scheduler.Views;
    if !c.job.reduceDispatched {
      var reducer := Scheduler.PickReduceNode(c.cfg, Scheduler.Views(c.nodes), c.job.request.model);
      if reducer.Some? { DispatchWithin(StartReduce(c), |c.job.tasks|, reducer.value.nodeId); }
    }
  }

  lemma {:induction false} DrainWithin(c: Ctx, n: NodeId, slots: int)
    requires Sound(c)
    ensures Within(c, Drain(c, n, slots))
    decreases slots
  {
    hide Dispatch;
    if slots > 0 && QueueOf(c.job.queues, n) != [] {
      var d := Dispatch(Shift(c, n), QueueOf(c.job.queues, n)[0], n);
      DispatchWithin(Shift(c, n), QueueOf(c.job.queues, n)[0], n);
      if !Cleared(c, d) {
        DrainWithin(d, n, slots - 1);
        WithinTrans(c, d, Drain(c, n, slots));
      }
    }
  }

  lemma VisitWithin(c: Ctx, k: nat)
    requires Sound(c) && k < |c.job.queues.keys|
    ensures Within(c, VisitQueue(c, k))
  {
    hide Drain, Within;
    var n := c.job.queues.keys[k];
    WithinSelf(c);
    if n in c.nodes.items { DrainWithin(c, n, FreeSlots(c.nodes.items[n])); }
  }

  lemma {:induction false} DrainAllWithin(c: Ctx, k: nat, visits: nat, rebuilt: bool)
    requires Sound(c)
    ensures Within(c, DrainAll(c, k, visits, rebuilt))
    decreases if rebuilt then 0 else 1, visits
  {
    hide VisitQueue, Cleared, Within;
    if visits == 0 || k >= |c.job.queues.keys| {
      WithinSelf(c);
    } else {
      var d := VisitQueue(c, k);
      VisitWithin(c, k);
      WithinSound(c, d);
      if !Cleared(c, d) {
        DrainAllWithin(d, k + 1, visits - 1, rebuilt);
        WithinTrans(c, d, DrainAll(c, k, visits, rebuilt));
      } else if !rebuilt {
        DrainAllWithin(d, 0, Visits(d), true);
        WithinTrans(c, d, DrainAll(c, k, visits, rebuilt));
      }
    }
  }

  lemma WithinSound(c: Ctx, d: Ctx)
    requires Within(c, d)
    ensures Sound(d)
  {
  }

  lemma {:induction false} StealWithin(c: Ctx, rounds: nat)
    requires Sound(c)
    ensures Within(c, Steal(c, rounds))
    decreases rounds
  {
    hide Dispatch, FirstIdle, Donor, Within;
    if rounds > 0 && CanSteal(c) {
      var donor := Donor(c.job.queues).value;
      var q := QueueOf(c.job.queues, donor);
      var d := Pop(c, donor);
      PopWithin(c, donor);
      DispatchWithin(d, q[|q| - 1], FirstIdle(c, 0).value);
      WithinTrans(c, d, StealOnce(c));
      WithinSound(c, StealOnce(c));
      StealWithin(StealOnce(c), rounds - 1);
      WithinTrans(c, StealOnce(c), Steal(c, rounds));
    } else {
      WithinSelf(c);
    }
  }

  lemma PopWithin(c: Ctx, n: NodeId)
    requires Sound(c) && QueueOf(c.job.queues, n) != []
    ensures Within(c, Pop(c, n)) && Sound(Pop(c, n))
  {
  }

  lemma PumpWithin(c: Ctx)
    requires Sound(c)
    ensures Within(c, Pump(c))
  {
    hide DrainAll, Steal, MaybeFinish, Within;
    if c.job.Active() {
      var d := DrainAll(c, 0, Visits(c), false);
      var e := Steal(d, STEAL_ROUNDS);
      DrainAllWithin(c, 0, Visits(c), false);
      WithinSound(c, d);
      StealWithin(d, STEAL_ROUNDS);
      WithinSound(d, e);
      MaybeFinishWithin(e);
      WithinTrans(c, d, e);
      WithinTrans(c, e, Pump(c));
    } else {
      WithinSelf(c);
    }
  }

  /** There are never more queues than there were plus one a connected node. */
  lemma QueueCount(c: Ctx, d: Ctx)
    requires Sound(c) && Within(c, d)
    ensures |d.job.queues.keys| <= Visits(c)
  {
    QueuesFit(d.job.queues, c.job.queues, c.nodes);
  }

  // ---- the other events ----

  lemma {:induction false} RequeueEachWithin(c: Ctx, ids: seq<TaskId>)
    requires Sound(c)
    ensures Within(c, RequeueEach(c, ids))
    decreases |ids|
  {
    hide Requeue, Within;
    if ids == [] {
      WithinSelf(c);
    } else if ids[0] < |c.job.tasks| {
      var d := Requeue(c, ids[0]);
      RequeueWithin(c, ids[0]);
      WithinSound(c, d);
      RequeueEachWithin(d, ids[1..]);
      WithinTrans(c, d, RequeueEach(c, ids));
    } else {
      RequeueEachWithin(c, ids[1..]);
    }
  }

  lemma {:induction false} RequeueHeldWithin(c: Ctx, n: NodeId, t: nat)
    requires Sound(c)
    ensures Within(c, RequeueHeld(c, n, t))
    decreases ReduceBudget(c.job), |c.job.tasks| - t
  {
    hide Requeue, Within;
    if t >= |c.job.tasks| {
      WithinSelf(c);
    } else if c.job.tasks[t].On(n) {
      var d := Requeue(c, t);
      RequeueWithin(c, t);
      WithinSound(c, d);
      RequeueHeldWithin(d, n, t + 1);
      WithinTrans(c, d, RequeueHeld(c, n, t));
    } else {
      RequeueHeldWithin(c, n, t + 1);
    }
  }

  lemma MoveQueueWithin(c: Ctx, n: NodeId)
    requires Sound(c)
    ensures Within(c, MoveQueue(c, n))
  {
    hide RequeueEach;
    var q := QueueOf(c.job.queues, n);
    var d := c.(job := c.job.(queues := c.job.queues.Delete(n)));
    RequeueEachWithin(d, q);
  }

  lemma {:induction false} SweepFromWithin(c: Ctx, t: nat)
    requires Sound(c)
    ensures Within(c, SweepFrom(c, t))
    decreases ReduceBudget(c.job), |c.job.tasks| - t
  {
    hide Requeue, Within;
    if t >= |c.job.tasks| {
      WithinSelf(c);
    } else if Expired(c, c.job.tasks[t]) {
      var d := Requeue(c, t);
      RequeueWithin(c, t);
      WithinSound(c, d);
      SweepFromWithin(d, t + 1);
      WithinTrans(c, d, SweepFrom(c, t));
    } else {
      SweepFromWithin(c, t + 1);
    }
  }

  lemma PlannedSound(c: Ctx, cursor: nat)
    requires c.job == NewJob(c.job.serial, c.job.request) && c.nodes.Valid()
    ensures Sound(Submission.Planned(c, cursor))
  {
    hide Decide, BuildTasks, Clusters.ClusterOk;
    var d := Decide(c.cfg, c.job.request, c.nodes, cursor);
    DecideOk(c.cfg, c.job.request, c.nodes, cursor);
    if d.cluster.nodeIds != [] { BuildTasksOk(c.job, d.analysis.strategy, d.cluster); }
  }
}
