/** Answers, node loss, timeouts and cancellation keep the invariant of a job. */
module JobEvents {
  import opened Collections
  import opened Protocol
  import opened JobCore
  import opened JobInvariants
  import opened JobSteps
  import opened JobPump
  import opened Choices
  import Scheduler

  /** A worker's answer is due: the task is on the sender and in flight. */
  predicate AnswerDue(job: Job, t: TaskId, sender: NodeId) {
    t < |job.tasks| && job.tasks[t].On(sender)
  }

  lemma DoneOk(c: Ctx, t: TaskId, sender: NodeId, output: string, metrics: TaskMetrics, reach: set<NodeId>)
    requires Inv(c, reach, {}) && c.cfg.maxTaskAttempts >= 1 && AnswerDue(c.job, t, sender)
    ensures var d := Done(c, t, sender, output, metrics);
            && Inv(d, reach, {}) && Follows(c, d)
            && Measure(c.cfg.maxTaskAttempts, d.job) < Measure(c.cfg.maxTaskAttempts, c.job)
  {
    hide Inv, Follows, Record, Pump, Measure;
    var d := Record(c, t, sender, output, metrics);
    var e := Pump(d);
    RecordOk(c, t, sender, output, metrics, reach);
    FollowsCfg(c, d);
    PumpOk(d, reach);
    FollowsTrans(c, d, e);
    MeasureFalls(d, e);
  }

  lemma DeclinedOk(c: Ctx, t: TaskId, sender: NodeId, reach: set<NodeId>)
    requires Inv(c, reach, {}) && c.cfg.maxTaskAttempts >= 1 && AnswerDue(c.job, t, sender)
    ensures var d := Declined(c, t);
            && Inv(d, reach, {}) && Follows(c, d)
            && Measure(c.cfg.maxTaskAttempts, d.job) < Measure(c.cfg.maxTaskAttempts, c.job)
  {
    hide Inv, Follows, Requeue, Measure;
    RequeueOk(c, t, reach, {});
    assert {} - {t} == {};
  }

  /** Metrics are not slots. */
  lemma NoteFailureOk(c: Ctx, sender: NodeId, reach: set<NodeId>)
    requires Inv(c, reach, {})
    ensures var d := c.(nodes := NoteFailure(c.nodes, sender)); Inv(d, reach, {}) && Follows(c, d)
  {
    hide JobOk, Load, TimesSent;
  }

  lemma TaskFailedOk(c: Ctx, t: TaskId, sender: NodeId, reach: set<NodeId>)
    requires Inv(c, reach, {}) && c.cfg.maxTaskAttempts >= 1 && AnswerDue(c.job, t, sender)
    ensures var d := TaskFailed(c, t, sender);
            && Inv(d, reach, {}) && Follows(c, d)
            && Measure(c.cfg.maxTaskAttempts, d.job) < Measure(c.cfg.maxTaskAttempts, c.job)
  {
    hide Inv, Follows, Requeue, Measure, NoteFailure;
    var noted := c.(nodes := NoteFailure(c.nodes, sender));
    NoteFailureOk(c, sender, reach);
    DeclinedOk(noted, t, sender, reach);
    FollowsTrans(c, noted, TaskFailed(c, t, sender));
  }

  // ---- sweeping ----

  lemma {:induction false} SweepFromOk(c: Ctx, t: nat, reach: set<NodeId>)
    requires Inv(c, reach, {}) && c.cfg.maxTaskAttempts >= 1
    ensures Inv(SweepFrom(c, t), reach, {}) && Follows(c, SweepFrom(c, t))
    decreases ReduceBudget(c.job), |c.job.tasks| - t
  {
    hide Inv, Follows, Requeue;
    if t >= |c.job.tasks| {
      InvStatus(c, reach, {});
    } else if Expired(c, c.job.tasks[t]) {
      var d := Requeue(c, t);
      RequeueOk(c, t, reach, {});
      assert {} - {t} == {};
      FollowsCfg(c, d);
      SweepFromOk(d, t + 1, reach);
      FollowsTrans(c, d, SweepFrom(c, t));
    } else {
      SweepFromOk(c, t + 1, reach);
    }
  }

  lemma SweepOk(c: Ctx, reach: set<NodeId>)
    requires Inv(c, reach, {}) && c.cfg.maxTaskAttempts >= 1
    ensures Inv(Sweep(c), reach, {}) && Follows(c, Sweep(c))
  {
    hide Inv, Follows, SweepFrom;
    InvStatus(c, reach, {});
    SweepFromOk(c, 0, reach);
  }

  lemma DeferredPumpOk(c: Ctx, reach: set<NodeId>)
    requires Inv(c, reach, {}) && c.cfg.maxTaskAttempts >= 1
    ensures Inv(DeferredPump(c), reach, {}) && Follows(c, DeferredPump(c))
  {
    hide Inv, Follows, Pump;
    InvStatus(c, reach, {});
    if c.job.deferred > 0 {
      var d := c.(job := c.job.(deferred := c.job.deferred - 1));
      DeferredOk(c, c.job.deferred - 1, reach);
      PumpOk(d, reach);
      FollowsTrans(c, d, Pump(d));
    }
  }

  lemma DeferredOk(c: Ctx, deferred: nat, reach: set<NodeId>)
    requires Inv(c, reach, {})
    ensures var d := c.(job := c.job.(deferred := deferred)); Inv(d, reach, {}) && Follows(c, d)
  {
    hide TasksOk, MapOutputs, FinalOutput, Queued, TimesSent;
    var d := c.(job := c.job.(deferred := deferred));
    TasksFrame(c.cfg.maxTaskAttempts, c.job, d.job, reach);
  }

  // ---- losing a node ----

  lemma {:induction false} RequeueEachOk(c: Ctx, ids: seq<TaskId>, reach: set<NodeId>, loose: set<TaskId>)
    requires Inv(c, reach, loose) && c.cfg.maxTaskAttempts >= 1
    requires Distinct(ids) && forall t :: t in ids <==> t in loose
    ensures Inv(RequeueEach(c, ids), reach, {}) && Follows(c, RequeueEach(c, ids))
    decreases |ids|
  {
    hide Inv, Follows, Requeue;
    if ids == [] {
      InvStatus(c, reach, loose);
      assert forall t | t in loose :: t in ids;
      assert loose == {};
    } else {
      var t := ids[0];
      LooseValid(c, t, reach, loose);
      var d := Requeue(c, t);
      RequeueOk(c, t, reach, loose);
      FollowsCfg(c, d);
      assert ids == [t] + ids[1..];
      RequeueEachOk(d, ids[1..], reach, loose - {t});
      FollowsTrans(c, d, RequeueEach(c, ids));
    }
  }

  lemma LooseValid(c: Ctx, t: TaskId, reach: set<NodeId>, loose: set<TaskId>)
    requires Inv(c, reach, loose) && t in loose
    ensures t < |c.job.tasks|
  {
  }

  lemma {:induction false} CountsOnce<T(!new)>(q: seq<T>)
    requires forall t :: multiset(q)[t] <= 1
    ensures Distinct(q)
  {
    if q != [] {
      var rest := q[1..];
      assert q == [q[0]] + rest;
      forall t
        ensures multiset(rest)[t] + (if t == q[0] then 1 else 0) <= 1
      {
        assert multiset(q)[t] == multiset{q[0]}[t] + multiset(rest)[t];
      }
      CountsOnce(rest);
      assert q[0] !in multiset(rest);
      assert q[0] !in rest;
    }
  }

  /** Each id is queued at most once, so no queue repeats one. */
  lemma QueueDistinct(job: Job, n: NodeId)
    requires Conserved(job, {}) && n in job.queues.items
    ensures Distinct(QueueOf(job.queues, n))
  {
    var q := QueueOf(job.queues, n);
    QueuedMember(job.queues.keys, job.queues, n);
    var mq: multiset<TaskId> := multiset(q);
    forall t: TaskId
      ensures mq[t] <= 1
    {
      assert mq[t] <= Queued(job.queues)[t];
    }
    CountsOnce(q);
  }

  ghost function Elems(q: seq<TaskId>): (r: set<TaskId>)
    ensures forall t :: t in r <==> t in q
  {
    set t | t in q
  }

  lemma {:induction false} DistinctCount(q: seq<TaskId>, t: TaskId)
    requires Distinct(q)
    ensures multiset(q)[t] == if t in q then 1 else 0
  {
    if q != [] {
      var front, last := q[..|q| - 1], q[|q| - 1];
      assert q == front + [last];
      DistinctCount(front, t);
    }
  }

  /** Deleting a queue makes exactly its ids loose. */
  lemma DeleteConserved(job: Job, n: NodeId)
    requires Conserved(job, {})
    ensures Conserved(job.(queues := job.queues.Delete(n)), Elems(QueueOf(job.queues, n)))
    ensures Distinct(QueueOf(job.queues, n))
  {
    hide Queued, QueueOf;
    var job' := job.(queues := job.queues.Delete(n));
    DeleteCounts(job, n);
    forall t: TaskId
      ensures Queued(job'.queues)[t] ==
        (if t < |job.tasks| && job.tasks[t].Waiting() && t !in Elems(QueueOf(job.queues, n)) then 1 else 0)
    {
      assert Queued(job.queues)[t] == Queued(job'.queues)[t] + (if t in QueueOf(job.queues, n) then 1 else 0);
    }
    forall t | t in Elems(QueueOf(job.queues, n))
      ensures t < |job.tasks| && job.tasks[t].Waiting()
    {
      assert Queued(job.queues)[t] == Queued(job'.queues)[t] + 1;
    }
  }

  lemma DeleteCounts(job: Job, n: NodeId)
    requires Conserved(job, {})
    ensures Distinct(QueueOf(job.queues, n))
    ensures forall t: TaskId :: Queued(job.queues)[t]
              == Queued(job.queues.Delete(n))[t] + (if t in QueueOf(job.queues, n) then 1 else 0)
  {
    var q := QueueOf(job.queues, n);
    QueuedDelete(job.queues, n);
    if n in job.queues.items { QueueDistinct(job, n); }
    var mq: multiset<TaskId> := multiset(q);
    forall t: TaskId
      ensures Queued(job.queues)[t] == Queued(job.queues.Delete(n))[t] + (if t in q then 1 else 0)
    {
      DistinctCount(q, t);
      assert (Queued(job.queues.Delete(n)) + mq)[t] == Queued(job.queues)[t];
    }
  }

  ghost function Unqueued(c: Ctx, n: NodeId): Ctx {
    c.(job := c.job.(queues := c.job.queues.Delete(n)))
  }

  lemma DeleteOk(c: Ctx, n: NodeId, reach: set<NodeId>)
    requires Inv(c, reach, {})
    ensures Inv(Unqueued(c, n), reach, Elems(QueueOf(c.job.queues, n))) && Follows(c, Unqueued(c, n))
    ensures Distinct(QueueOf(c.job.queues, n))
  {
    hide Conserved, QueueOf, TasksOk, TimesSent, MapOutputs, FinalOutput, Elems;
    var d := Unqueued(c, n);
    QueuesValid(c, reach);
    DeleteConserved(c.job, n);
    TasksFrame(c.cfg.maxTaskAttempts, c.job, d.job, reach);
  }

  /** All loose tasks join the tail of one queue. */
  lemma AppendConserved(job: Job, n: NodeId, q: seq<TaskId>)
    requires Conserved(job, Elems(q)) && Distinct(q)
    ensures Conserved(job.(queues := job.queues.Set(n, QueueOf(job.queues, n) + q)), {})
  {
    var own := QueueOf(job.queues, n);
    var job' := job.(queues := job.queues.Set(n, own + q));
    QueuedSet(job.queues, n, own + q);
    var mOwn: multiset<TaskId> := multiset(own);
    var mq: multiset<TaskId> := multiset(q);
    assert multiset(own + q) == mOwn + mq;
    hide Queued, QueueOf;
    forall t: TaskId
      ensures Queued(job'.queues)[t] == Queued(job.queues)[t] + (if t in q then 1 else 0)
    {
      DistinctCount(q, t);
      assert (Queued(job'.queues) + mOwn)[t] == (Queued(job.queues) + (mOwn + mq))[t];
    }
  }

  lemma AppendOk(c: Ctx, n: NodeId, q: seq<TaskId>, reach: set<NodeId>)
    requires Inv(c, reach, Elems(q)) && Distinct(q) && n in c.job.queues.items
    ensures var d := WithQueue(c, n, QueueOf(c.job.queues, n) + q);
            Inv(d, reach, {}) && Follows(c, d)
  {
    var d := WithQueue(c, n, QueueOf(c.job.queues, n) + q);
    hide Conserved, QueueOf, TasksOk, TimesSent, MapOutputs, FinalOutput, Elems;
    AppendConserved(c.job, n, q);
    TasksFrame(c.cfg.maxTaskAttempts, c.job, d.job, reach);
  }

  lemma MoveQueueOk(c: Ctx, n: NodeId, reach: set<NodeId>)
    requires Inv(c, reach, {}) && c.cfg.maxTaskAttempts >= 1
    ensures Inv(MoveQueue(c, n), reach, {}) && Follows(c, MoveQueue(c, n))
  {
    hide Inv, Follows, RequeueEach;
    var q := QueueOf(c.job.queues, n);
    var d := Unqueued(c, n);
    DeleteOk(c, n, reach);
    QueuesValid(c, reach);
    if q == [] {
      assert Elems(q) == {};
    } else if d.job.queues.keys != [] {
      AppendOk(d, d.job.queues.keys[0], q, reach);
      FollowsTrans(c, d, MoveQueue(c, n));
    } else {
      FollowsCfg(c, d);
      RequeueEachOk(d, q, reach, Elems(q));
      FollowsTrans(c, d, MoveQueue(c, n));
    }
  }

  lemma QueuesValid(c: Ctx, reach: set<NodeId>)
    requires Inv(c, reach, {})
    ensures c.job.queues.Valid()
  {
  }

  lemma {:induction false} RequeueHeldOk(c: Ctx, n: NodeId, t: nat, reach: set<NodeId>)
    requires Inv(c, reach, {}) && c.cfg.maxTaskAttempts >= 1
    ensures Inv(RequeueHeld(c, n, t), reach, {}) && Follows(c, RequeueHeld(c, n, t))
    decreases ReduceBudget(c.job), |c.job.tasks| - t
  {
    hide Inv, Follows, Requeue;
    if t >= |c.job.tasks| {
      InvStatus(c, reach, {});
    } else if c.job.tasks[t].On(n) {
      var d := Requeue(c, t);
      RequeueOk(c, t, reach, {});
      assert {} - {t} == {};
      FollowsCfg(c, d);
      RequeueHeldOk(d, n, t + 1, reach);
      FollowsTrans(c, d, RequeueHeld(c, n, t));
    } else {
      RequeueHeldOk(c, n, t + 1, reach);
    }
  }

  /** No queue is n's, and no task from position k on is on n... */
  ghost predicate Gone(job: Job, n: NodeId, k: nat) {
    && n !in job.queues.items
    && forall u | 0 <= u < |job.tasks| && job.tasks[u].On(n) :: u >= k
  }

  lemma {:induction false} DispatchAvoids(c: Ctx, t: TaskId, m: NodeId, n: NodeId, k: nat)
    requires n !in c.nodes.items && Gone(c.job, n, k)
    ensures Gone(Dispatch(c, t, m).job, n, k)
    decreases ReduceBudget(c.job), 2
  {
    hide MaybeFinish, Requeue;
    if t < |c.job.tasks| && !(m in c.nodes.items && c.nodes.items[m].socketOpen) {
      RequeueAvoids(c, t, n, k);
    }
  }

  lemma GiveUpAvoids(c: Ctx, t: TaskId, n: NodeId, k: nat)
    requires n !in c.nodes.items && Gone(c.job, n, k) && t < |c.job.tasks|
    ensures Gone(MaybeFinish(Release(c, t, Failed)).job, n, if k == t then t + 1 else k)
    decreases ReduceBudget(c.job), 0, 1
  {
    hide MaybeFinish;
    MaybeFinishAvoids(Release(c, t, Failed), n, if k == t then t + 1 else k);
  }

  lemma {:induction false} RequeueAvoids(c: Ctx, t: TaskId, n: NodeId, k: nat)
    requires n !in c.nodes.items && Gone(c.job, n, k) && t < |c.job.tasks|
    ensures Gone(Requeue(c, t).job, n, if k == t then t + 1 else k)
    ensures Gone(Requeue(c, t).job, n, k)
    decreases ReduceBudget(c.job), 1
  {
    hide MaybeFinish, Replan, RequeueTarget;
    var freed := Release(c, t, c.job.tasks[t].status);
    assert freed.nodes.items.Keys == c.nodes.items.Keys;
    GiveUpAvoids(c, t, n, k);
    ReplanHead(freed);
  }

  lemma {:induction false} MaybeFinishAvoids(c: Ctx, n: NodeId, k: nat)
    requires n !in c.nodes.items && Gone(c.job, n, k)
    ensures Gone(MaybeFinish(c).job, n, k)
    decreases ReduceBudget(c.job), 0, 0
  {
    hide Dispatch, MapOutputs, FinalOutput, WantsReduce, ReducePrompt, FindReduce, Scheduler.PickReduceNode,
         Scheduler.Views;
    if !c.job.reduceDispatched {
      var reducer := Scheduler.PickReduceNode(c.cfg, Scheduler.Views(c.nodes), c.job.request.model);
      if reducer.Some? {
        DispatchAvoids(StartReduce(c), |c.job.tasks|, reducer.value.nodeId, n, k);
      }
    }
  }

  lemma {:induction false} RequeueEachAvoids(c: Ctx, ids: seq<TaskId>, n: NodeId)
    requires n !in c.nodes.items && Gone(c.job, n, 0)
    ensures Gone(RequeueEach(c, ids).job, n, 0) && RequeueEach(c, ids).nodes.items.Keys == c.nodes.items.Keys
    decreases |ids|
  {
    hide Requeue;
    if ids != [] {
      if ids[0] < |c.job.tasks| {
        RequeueAvoids(c, ids[0], n, 0);
        RequeueKeys(c, ids[0]);
        RequeueEachAvoids(Requeue(c, ids[0]), ids[1..], n);
      } else {
        RequeueEachAvoids(c, ids[1..], n);
      }
    }
  }

  lemma {:induction false} RequeueKeys(c: Ctx, t: TaskId)
    requires t < |c.job.tasks|
    ensures Requeue(c, t).nodes.items.Keys == c.nodes.items.Keys
    decreases ReduceBudget(c.job), 1
  {
    hide MaybeFinish;
    MaybeFinishKeys(Release(c, t, Failed));
  }

  lemma {:induction false} MaybeFinishKeys(c: Ctx)
    ensures MaybeFinish(c).nodes.items.Keys == c.nodes.items.Keys
    decreases ReduceBudget(c.job), 0
  {
    hide Requeue, MapOutputs, FinalOutput, WantsReduce, ReducePrompt, FindReduce, Scheduler.PickReduceNode,
         Scheduler.Views;
    if !c.job.reduceDispatched {
      RequeueKeys(StartReduce(c), |c.job.tasks|);
    }
  }

  lemma {:induction false} RequeueHeldAvoids(c: Ctx, n: NodeId, t: nat)
    requires n !in c.nodes.items && Gone(c.job, n, t)
    ensures var d := RequeueHeld(c, n, t).job; Gone(d, n, |d.tasks|)
    decreases ReduceBudget(c.job), |c.job.tasks| - t
  {
    hide Requeue;
    if t < |c.job.tasks| {
      if c.job.tasks[t].On(n) {
        RequeueAvoids(c, t, n, t);
        RequeueKeys(c, t);
        RequeueHeldAvoids(Requeue(c, t), n, t + 1);
      } else {
        RequeueHeldAvoids(c, n, t + 1);
      }
    }
  }

  lemma MoveQueueAvoids(c: Ctx, n: NodeId)
    requires c.job.queues.Valid() && n !in c.nodes.items
    ensures Gone(MoveQueue(c, n).job, n, 0) && MoveQueue(c, n).nodes.items.Keys == c.nodes.items.Keys
  {
    hide RequeueEach;
    RequeueEachAvoids(Unqueued(c, n), QueueOf(c.job.queues, n), n);
  }

  lemma ShrinkReach(c: Ctx, n: NodeId, reach: set<NodeId>)
    requires Inv(c, reach, {}) && n !in c.nodes.items
    requires c.job.Active() ==> Gone(c.job, n, |c.job.tasks|)
    ensures Inv(c, reach - {n}, {})
  {
    hide Queued, MapOutputs, FinalOutput, TimesSent, Load;
    forall i | 0 <= i < |c.job.tasks|
      ensures TaskOk(c.cfg.maxTaskAttempts, c.job, i, reach - {n})
    {
      assert TaskOk(c.cfg.maxTaskAttempts, c.job, i, reach);
    }
  }

  /** The state after a loss, just before the pump. */
  ghost function Settled(c: Ctx, n: NodeId): Ctx {
    RequeueHeld(MoveQueue(c, n), n, 0)
  }

  lemma SettledOk(c: Ctx, n: NodeId, reach: set<NodeId>)
    requires Inv(c, reach, {}) && c.cfg.maxTaskAttempts >= 1 && n !in c.nodes.items
    ensures Inv(Settled(c, n), reach - {n}, {}) && Follows(c, Settled(c, n))
  {
    hide Inv, Follows, MoveQueue, RequeueHeld, Gone;
    var d := MoveQueue(c, n);
    MoveQueueOk(c, n, reach);
    FollowsCfg(c, d);
    RequeueHeldOk(d, n, 0, reach);
    FollowsCfg(d, Settled(c, n));
    QueuesValid(c, reach);
    MoveQueueAvoids(c, n);
    RequeueHeldAvoids(d, n, 0);
    ShrinkReach(Settled(c, n), n, reach);
    FollowsTrans(c, d, Settled(c, n));
  }

  /** Losing a node: every task it held or had queued is still accounted for. */
  lemma NodeLostOk(c: Ctx, n: NodeId, reach: set<NodeId>)
    requires Inv(c, reach, {}) && c.cfg.maxTaskAttempts >= 1 && n !in c.nodes.items
    ensures Inv(NodeLost(c, n), reach - {n}, {}) && Follows(c, NodeLost(c, n))
  {
    hide Inv, Follows, MoveQueue, RequeueHeld, Pump, Gone;
    InvStatus(c, reach, {});
    if c.job.Active() {
      var e := Settled(c, n);
      SettledOk(c, n, reach);
      FollowsCfg(c, e);
      PumpOk(e, reach - {n});
      FollowsTrans(c, e, NodeLost(c, n));
    } else {
      ShrinkReach(c, n, reach);
    }
  }

  // ---- cancelling ----

  ghost function Cancelled1(task: Task): Task {
    if task.status != Completed then task.(status := Cancelled) else task
  }

  ghost predicate Placed(job: Job) {
    forall u | 0 <= u < |job.tasks| && job.tasks[u].InFlight() :: job.tasks[u].nodeId.Some?
  }

  ghost function CancelOne(c: Ctx, t: TaskId): Ctx
    requires t < |c.job.tasks|
  {
    var task := c.job.tasks[t];
    c.(job := WithTask(c.job, t, Cancelled1(task)),
       nodes := if task.InFlight() then FreeSlot(c.nodes, task.nodeId) else c.nodes)
  }

  lemma CancelOneOk(c: Ctx, t: TaskId)
    requires t < |c.job.tasks| && Covered(c) && Placed(c.job)
    ensures Covered(CancelOne(c, t)) && SlotsFollow(c, CancelOne(c, t)) && Placed(CancelOne(c, t).job)
  {
    var d := CancelOne(c, t);
    forall n | n in c.nodes.items
      ensures d.nodes.items[n].activeTasks + Load(c.job, n) == c.nodes.items[n].activeTasks + Load(d.job, n)
    {
      LoadSet(c.job, t, d.job.tasks[t], n);
    }
  }

  lemma {:induction false} CancelFromOk(c: Ctx, t: nat)
    requires Covered(c) && Placed(c.job)
    ensures var d := CancelFrom(c, t);
            && Covered(d) && SlotsFollow(c, d)
            && d == c.(job := c.job.(tasks := d.job.tasks), nodes := d.nodes)
            && |d.job.tasks| == |c.job.tasks|
            && (forall u | 0 <= u < |c.job.tasks| ::
                  d.job.tasks[u] == if u < t then c.job.tasks[u] else Cancelled1(c.job.tasks[u]))
    decreases |c.job.tasks| - t
  {
    hide Covered, SlotsFollow, Placed;
    if t < |c.job.tasks| {
      var d := CancelOne(c, t);
      CancelOneOk(c, t);
      assert WithTask(c.job, t, c.job.tasks[t]).tasks == c.job.tasks;
      assert CancelFrom(c, t) == CancelFrom(d, t + 1);
      CancelFromOk(d, t + 1);
      SlotsTrans(c, d, CancelFrom(c, t));
    } else {
      SlotsRefl(c);
    }
  }

  lemma SlotsTrans(a: Ctx, b: Ctx, c: Ctx)
    requires SlotsFollow(a, b) && SlotsFollow(b, c)
    ensures SlotsFollow(a, c)
  {
  }

  lemma SlotsRefl(a: Ctx)
    ensures SlotsFollow(a, a)
  {
  }

  lemma {:induction false} SumPointwise(a: seq<Task>, b: seq<Task>, w: Task -> nat)
    requires |a| == |b| && forall u | 0 <= u < |a| :: w(b[u]) <= w(a[u])
    ensures Sum(b, w) <= Sum(a, w)
    ensures (forall u | 0 <= u < |a| :: w(b[u]) == w(a[u])) ==> Sum(b, w) == Sum(a, w)
  {
    if a != [] {
      SumPointwise(a[1..], b[1..], w);
    }
  }

  ghost function Closing(c: Ctx): Ctx {
    c.(job := c.job.(status := JobCancelled))
  }

  lemma InvPlaced(c: Ctx, reach: set<NodeId>)
    requires Inv(c, reach, {})
    ensures Placed(Closing(c).job) && Covered(Closing(c))
    ensures Conserved(c.job, {}) && TasksOk(c.cfg.maxTaskAttempts, c.job, reach)
    ensures ReduceOk(c.job) && PipelineOk(c.job) && TokensOk(c.job) && LogOk(c) && c.nodes.items.Keys <= reach
  {
    forall u | 0 <= u < |c.job.tasks| && c.job.tasks[u].InFlight()
      ensures c.job.tasks[u].nodeId.Some?
    {
      assert TaskOk(c.cfg.maxTaskAttempts, c.job, u, reach);
    }
  }

  lemma CancelledTasks(max: int, a: Job, b: Job, reach: set<NodeId>)
    requires TasksOk(max, a, reach) && b.status == JobCancelled && b.reduceDispatched == a.reduceDispatched
    requires |b.tasks| == |a.tasks| && forall u | 0 <= u < |a.tasks| :: b.tasks[u] == Cancelled1(a.tasks[u])
    ensures TasksOk(max, b, reach)
    ensures MapOutputs(b.tasks) == MapOutputs(a.tasks) && Sum(b.tasks, TokensOf) == Sum(a.tasks, TokensOf)
  {
    forall i | 0 <= i < |b.tasks|
      ensures TaskOk(max, b, i, reach)
    {
      assert TaskOk(max, a, i, reach);
    }
    MapOutputsFrame(a.tasks, b.tasks);
    SumPointwise(a.tasks, b.tasks, TokensOf);
  }

  lemma EmptyQueued()
    ensures Queued(EmptyMap()) == multiset{}
  {
  }

  /** All that cancelling changes in the job's own record. */
  lemma CancelShape(c: Ctx)
    requires Covered(Closing(c)) && Placed(Closing(c).job)
    requires c.job.status != JobCompleted && c.job.status != JobFailed
    ensures var b := Cancel(c).job;
            && b == c.job.(status := JobCancelled, queues := EmptyMap(), tasks := b.tasks)
            && |b.tasks| == |c.job.tasks|
            && forall u | 0 <= u < |c.job.tasks| :: b.tasks[u] == Cancelled1(c.job.tasks[u])
  {
    hide CancelFrom, Covered, Placed, SlotsFollow;
    CancelFromOk(Closing(c), 0);
  }

  lemma CancelReduceOk(a: Job, b: Job)
    requires ReduceOk(a) && PipelineOk(a) && b.status == JobCancelled
    requires b == a.(status := b.status, queues := b.queues, tasks := b.tasks)
    requires MapOutputs(b.tasks) == MapOutputs(a.tasks) && |b.tasks| == |a.tasks|
    requires forall u | 0 <= u < |a.tasks| :: b.tasks[u].messages == a.tasks[u].messages
    ensures ReduceOk(b) && PipelineOk(b)
  {
    hide MapOutputs, Numbered, Join;
  }

  /** Nothing waits or is in flight, so the empty queues hold what they should. */
  lemma CancelledRest(a: Job, b: Job)
    requires TokensOk(a) && b.totalTokens == a.totalTokens && Sum(b.tasks, TokensOf) == Sum(a.tasks, TokensOf)
    requires b.status == JobCancelled && b.queues == EmptyMap()
    requires |b.tasks| == |a.tasks| && forall u | 0 <= u < |a.tasks| :: b.tasks[u] == Cancelled1(a.tasks[u])
    ensures Conserved(b, {}) && TerminalOk(b) && TokensOk(b)
  {
    hide Queued, FinalOutput, TokensOf;
    EmptyQueued();
  }

  lemma CancelTasksOk(c: Ctx, reach: set<NodeId>)
    requires Inv(c, reach, {}) && c.job.status != JobCompleted && c.job.status != JobFailed
    ensures JobOk(c.cfg.maxTaskAttempts, Cancel(c).job, reach, {})
  {
    hide Inv, Conserved, Covered, Placed, MapOutputs, LogOk, TasksOk, Cancel, ReduceOk, PipelineOk, TerminalOk, TokensOk,
         TokensOf;
    InvPlaced(c, reach);
    CancelShape(c);
    CancelledTasks(c.cfg.maxTaskAttempts, c.job, Cancel(c).job, reach);
    CancelReduceOk(c.job, Cancel(c).job);
    CancelledRest(c.job, Cancel(c).job);
  }

  lemma CancelOk(c: Ctx, reach: set<NodeId>)
    requires Inv(c, reach, {})
    ensures Inv(Cancel(c), reach, {}) && Follows(c, Cancel(c))
    ensures Cancel(c).job.Terminal()
  {
    hide Inv, Follows, CancelFrom;
    if c.job.status == JobCompleted || c.job.status == JobFailed {
      InvStatus(c, reach, {});
    } else {
      CancelRestOk(c, reach);
    }
  }

  lemma CancelSlots(c: Ctx)
    requires Covered(Closing(c)) && Placed(Closing(c).job)
    requires c.job.status != JobCompleted && c.job.status != JobFailed
    ensures Covered(Cancel(c)) && SlotsFollow(c, Cancel(c))
  {
    hide CancelFrom;
    CancelFromOk(Closing(c), 0);
  }

  lemma CancelLog(c: Ctx)
    requires LogOk(c) && Covered(Closing(c)) && Placed(Closing(c).job)
    requires c.job.status != JobCompleted && c.job.status != JobFailed
    ensures LogOk(Cancel(c)) && LogFollows(c, Cancel(c))
  {
    hide CancelFrom, Covered, Placed, SlotsFollow, TimesSent;
    CancelFromOk(Closing(c), 0);
  }

  lemma CancelMeasure(c: Ctx)
    requires Covered(Closing(c)) && Placed(Closing(c).job)
    requires c.job.status != JobCompleted && c.job.status != JobFailed
    ensures JobFollows(c.cfg.maxTaskAttempts, c.job, Cancel(c).job)
    ensures Cancel(c).cfg == c.cfg && Cancel(c).now == c.now && Cancel(c).completedCount == c.completedCount
    ensures Cancel(c).job.Terminal() && Cancel(c).job.status != JobCompleted
  {
    hide CancelFrom, Covered, Placed, SlotsFollow;
    CancelFromOk(Closing(c), 0);
    SumPointwise(c.job.tasks, Cancel(c).job.tasks, Weight(c.cfg.maxTaskAttempts));
  }

  lemma CancelRestOk(c: Ctx, reach: set<NodeId>)
    requires Inv(c, reach, {}) && c.job.status != JobCompleted && c.job.status != JobFailed
    ensures Inv(Cancel(c), reach, {}) && Follows(c, Cancel(c)) && Cancel(c).job.Terminal()
  {
    hide JobOk, Cancel, TasksOk, ReduceOk, LogOk, Covered, JobFollows, LogFollows;
    CancelTasksOk(c, reach);
    InvPlaced(c, reach);
    CancelSlots(c);
    CancelLog(c);
    CancelMeasure(c);
  }
}
