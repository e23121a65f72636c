/** A scheduled pump is never lost: only running it takes it off the count. */
module Scheduled {
  import opened Collections
  import opened Protocol
  import opened JobCore
  import opened Coordinator
  import opened Safety
  import Scheduler

  ghost predicate Keeps(c: Ctx, d: Ctx) {
    d.job.deferred >= c.job.deferred
  }

  lemma {:induction false} DispatchKeeps(c: Ctx, t: TaskId, n: NodeId)
    ensures Keeps(c, Dispatch(c, t, n))
    decreases ReduceBudget(c.job), 2
  {
    hide Requeue;
    if t < |c.job.tasks| { RequeueKeeps(c, t); }
  }

  lemma {:induction false} RequeueKeeps(c: Ctx, t: TaskId)
    requires t < |c.job.tasks|
    ensures Keeps(c, Requeue(c, t))
    decreases ReduceBudget(c.job), 1
  {
    hide MaybeFinish, RequeueTarget, Replan;
    FinishKeeps(Release(c, t, Failed));
  }

  lemma {:induction false} FinishKeeps(c: Ctx)
    ensures Keeps(c, MaybeFinish(c))
    decreases ReduceBudget(c.job), 0
  {
    hide Dispatch, MapOutputs, FinalOutput, WantsReduce, ReducePrompt, FindReduce, Scheduler.PickReduceNode,
         Scheduler.Views;
    if !c.job.reduceDispatched {
      var reducer := Scheduler.PickReduceNode(c.cfg, Scheduler.Views(c.nodes), c.job.request.model);
      if reducer.Some? { DispatchKeeps(StartReduce(c), |c.job.tasks|, reducer.value.nodeId); }
    }
  }

  lemma {:induction false} DrainKeeps(c: Ctx, n: NodeId, slots: int)
    ensures Keeps(c, Drain(c, n, slots))
    decreases slots
  {
    hide Dispatch;
    if slots > 0 && QueueOf(c.job.queues, n) != [] {
      var d := Dispatch(Shift(c, n), QueueOf(c.job.queues, n)[0], n);
      DispatchKeeps(Shift(c, n), QueueOf(c.job.queues, n)[0], n);
      DrainKeeps(d, n, slots - 1);
    }
  }

  lemma VisitKeeps(c: Ctx, k: nat)
    requires k < |c.job.queues.keys|
    ensures Keeps(c, VisitQueue(c, k))
  {
    hide Drain;
    var n := c.job.queues.keys[k];
    if n in c.nodes.items { DrainKeeps(c, n, FreeSlots(c.nodes.items[n])); }
  }

  lemma {:induction false} DrainAllKeeps(c: Ctx, k: nat, visits: nat, rebuilt: bool)
    ensures Keeps(c, DrainAll(c, k, visits, rebuilt))
    decreases if rebuilt then 0 else 1, visits
  {
    hide VisitQueue;
    if visits > 0 && k < |c.job.queues.keys| {
      var d := VisitQueue(c, k);
      VisitKeeps(c, k);
      if !Cleared(c, d) {
        DrainAllKeeps(d, k + 1, visits - 1, rebuilt);
      } else if !rebuilt {
        DrainAllKeeps(d, 0, Visits(d), true);
      }
    }
  }

  lemma {:induction false} StealKeeps(c: Ctx, rounds: nat)
    ensures Keeps(c, Steal(c, rounds))
    decreases rounds
  {
    hide Dispatch, FirstIdle, Donor;
    if rounds > 0 && CanSteal(c) {
      var donor := Donor(c.job.queues).value;
      var q := QueueOf(c.job.queues, donor);
      DispatchKeeps(Pop(c, donor), q[|q| - 1], FirstIdle(c, 0).value);
      StealKeeps(StealOnce(c), rounds - 1);
    }
  }

  lemma PumpKeeps(c: Ctx)
    ensures Keeps(c, Pump(c))
  {
    hide DrainAll, Steal, MaybeFinish;
    var d := DrainAll(c, 0, Visits(c), false);
    DrainAllKeeps(c, 0, Visits(c), false);
    StealKeeps(d, STEAL_ROUNDS);
    FinishKeeps(Steal(d, STEAL_ROUNDS));
  }

  lemma {:induction false} SweepKeeps(c: Ctx, t: nat)
    ensures Keeps(c, SweepFrom(c, t))
    decreases ReduceBudget(c.job), |c.job.tasks| - t
  {
    hide Requeue;
    if t < |c.job.tasks| {
      if Expired(c, c.job.tasks[t]) {
        RequeueKeeps(c, t);
        SweepKeeps(Requeue(c, t), t + 1);
      } else {
        SweepKeeps(c, t + 1);
      }
    }
  }

  lemma {:induction false} CancelKeeps(c: Ctx, t: nat)
    ensures Keeps(c, CancelFrom(c, t))
    decreases |c.job.tasks| - t
  {
    if t < |c.job.tasks| {
      var task := c.job.tasks[t];
      var nodes := if task.InFlight() then FreeSlot(c.nodes, task.nodeId) else c.nodes;
      var job := if task.status != Completed then WithTask(c.job, t, task.(status := Cancelled)) else c.job;
      CancelKeeps(c.(job := job, nodes := nodes), t + 1);
    }
  }

  /** Any event about a job, short of running one of its pumps, leaves those still due. */
  lemma OutcomeKeeps(c: Ctx, e: Event)
    requires AboutOneJob(e) && !e.PumpDue?
    ensures Keeps(c, Outcome(c, e))
  {
    hide Requeue, Pump, CancelFrom;
    match e
    case TaskAccepted(_, _) =>
    case TaskToken(_, _, _, _) =>
    case TaskRejected(_, t, _) => if t < |c.job.tasks| { RequeueKeeps(c, t); }
    case TaskCompleted(_, t, sender, output, metrics) =>
      if t < |c.job.tasks| { PumpKeeps(Record(c, t, sender, output, metrics)); }
    case TaskFailure(_, t, sender) =>
      if t < |c.job.tasks| { RequeueKeeps(c.(nodes := NoteFailure(c.nodes, sender)), t); }
    case CancelRequested(_) => CancelKeeps(c.(job := c.job.(status := JobCancelled)), 0);
  }
}
