/** Progress of one job while sends succeed: what a pump leaves behind, when a job can get
    stuck, and why every answered run ends. */
module JobLiveness {
  import opened Collections
  import opened Protocol
  import opened JobCore
  import opened JobInvariants
  import opened JobSteps
  import opened JobPump
  import opened JobEvents
  import opened Choices
  import opened Submission
  import opened SubmissionProofs
  import opened Safety
  import Scheduler

  /** Every send to a connected node succeeds. */
  ghost predicate AllOpen(c: Ctx) {
    forall n :: n in c.nodes.items ==> c.nodes.items[n].socketOpen
  }

  // ---- work conservation ----

  /** n is connected, and idle or below the number its governor reported. */
  ghost predicate HasRoom(c: Ctx, n: NodeId) {
    && n in c.nodes.items
    && (c.nodes.items[n].activeTasks == 0 || c.nodes.items[n].activeTasks < c.nodes.items[n].governor.maxConcurrentTasks)
  }

  /** A node with room has nothing left in its own queue. */
  ghost predicate Served(c: Ctx, n: NodeId) {
    HasRoom(c, n) ==> QueueOf(c.job.queues, n) == []
  }

  ghost predicate Drained(c: Ctx) {
    forall n :: Served(c, n)
  }

  ghost predicate IdsValid(job: Job) {
    forall n, i :: n in job.queues.items && 0 <= i < |job.queues.items[n]| ==> job.queues.items[n][i] < |job.tasks|
  }

  lemma IdsAreValid(c: Ctx, reach: set<NodeId>)
    requires Inv(c, reach, {})
    ensures IdsValid(c.job) && c.job.queues.Valid()
  {
    hide TasksOk, Reachable, ReduceOk, PipelineOk, TerminalOk, TokensOk, LogOk, Covered, Queued;
    forall n, i | n in c.job.queues.items && 0 <= i < |c.job.queues.items[n]|
      ensures c.job.queues.items[n][i] < |c.job.tasks|
    {
      QueueWithin(c.job.queues, n);
      var q: multiset<TaskId> := multiset(QueueOf(c.job.queues, n));
      var t: TaskId := c.job.queues.items[n][i];
      assert t in QueueOf(c.job.queues, n);
      assert q[t] >= 1;
    }
  }

  lemma QueueWithin(queues: Queues, n: NodeId)
    requires queues.Valid() && n in queues.items
    ensures multiset(QueueOf(queues, n)) <= Queued(queues)
  {
    QueuedMember(queues.keys, queues, n);
  }

  /** Only n's queue and n's slots change. */
  ghost predicate OnlyAt(c: Ctx, d: Ctx, n: NodeId) {
    && d.job.queues.keys == c.job.queues.keys
    && d.nodes.items.Keys == c.nodes.items.Keys
    && |d.job.tasks| == |c.job.tasks|
    && (forall m :: m != n ==> QueueOf(d.job.queues, m) == QueueOf(c.job.queues, m))
    && (forall m :: m != n && m in c.nodes.items ==> d.nodes.items[m] == c.nodes.items[m])
  }

  lemma OpenDispatch(c: Ctx, t: TaskId, n: NodeId)
    requires t < |c.job.tasks| && n in c.nodes.items && c.nodes.items[n].socketOpen
    ensures Dispatch(c, t, n) == Assign(c, t, n)
  {
  }

  lemma {:induction false} DrainServes(c: Ctx, n: NodeId, slots: int)
    requires AllOpen(c) && IdsValid(c.job) && c.job.queues.Valid()
    requires n in c.nodes.items && slots == FreeSlots(c.nodes.items[n])
    ensures var d := Drain(c, n, slots);
            Served(d, n) && OnlyAt(c, d, n) && AllOpen(d) && IdsValid(d.job) && d.job.queues.Valid()
            && d.job.deferred == c.job.deferred
    decreases slots
  {
    hide Dispatch;
    if slots > 0 && QueueOf(c.job.queues, n) != [] {
      OpenDispatch(Shift(c, n), QueueOf(c.job.queues, n)[0], n);
      DrainServes(Assign(Shift(c, n), QueueOf(c.job.queues, n)[0], n), n, slots - 1);
    }
  }

  lemma {:induction false} DrainAllServes(c: Ctx, k: nat, visits: nat)
    requires AllOpen(c) && IdsValid(c.job) && c.job.queues.Valid()
    requires k <= |c.job.queues.keys| && visits >= |c.job.queues.keys| - k
    requires forall i | 0 <= i < k :: Served(c, c.job.queues.keys[i])
    ensures var d := DrainAll(c, k, visits, false);
            Drained(d) && AllOpen(d) && IdsValid(d.job) && d.job.queues.Valid() && d.job.deferred == c.job.deferred
    decreases visits
  {
    hide Drain, IdsValid;
    var keys := c.job.queues.keys;
    if k < |keys| {
      var n := keys[k];
      if n in c.nodes.items {
        var d := Drain(c, n, FreeSlots(c.nodes.items[n]));
        DrainServes(c, n, FreeSlots(c.nodes.items[n]));
        forall i | 0 <= i < k + 1
          ensures Served(d, keys[i])
        {
          if i < k { assert keys[i] != n && Served(c, keys[i]); }
        }
        DrainAllServes(d, k + 1, visits - 1);
      } else {
        DrainAllServes(c, k + 1, visits - 1);
      }
    }
  }

  /** One steal takes one task out of the queues and keeps every free node served. */
  lemma StealServes(c: Ctx)
    requires AllOpen(c) && IdsValid(c.job) && c.job.queues.Valid() && Drained(c) && CanSteal(c)
    ensures var d := StealOnce(c);
            && AllOpen(d) && IdsValid(d.job) && d.job.queues.Valid() && Drained(d)
            && |Queued(d.job.queues)| == |Queued(c.job.queues)| - 1
  {
    hide Requeue, FirstIdle, Donor, Queued;
    var donor, thief := Donor(c.job.queues).value, FirstIdle(c, 0).value;
    var q := QueueOf(c.job.queues, donor);
    assert Served(c, donor) && Served(c, thief);
    assert q == q[..|q| - 1] + [q[|q| - 1]];
    TakeCounts(c.job.queues, donor, q[|q| - 1], q[..|q| - 1]);
    var d := StealOnce(c);
    assert d == Assign(Pop(c, donor), q[|q| - 1], thief);
    forall n
      ensures Served(d, n)
    {
      assert Served(c, n);
    }
  }

  /** Stealing stops when there is nothing to steal or nobody to steal for, or after
      exactly `rounds` steals. */
  lemma {:induction false} StealAllServes(c: Ctx, rounds: nat)
    requires AllOpen(c) && IdsValid(c.job) && c.job.queues.Valid() && Drained(c)
    ensures var d := Steal(c, rounds);
            && AllOpen(d) && Drained(d) && d.job.queues.Valid()
            && (!CanSteal(d) || |Queued(d.job.queues)| + rounds == |Queued(c.job.queues)|)
    decreases rounds
  {
    hide StealOnce, CanSteal, AllOpen, IdsValid, Drained, Queued;
    if rounds > 0 && CanSteal(c) {
      StealServes(c);
      StealAllServes(StealOnce(c), rounds - 1);
    }
  }

  /** With a node of the cluster that has room and nothing queued, no queue holds two tasks. */
  ghost predicate Balanced(c: Ctx) {
    (exists n :: n in c.job.queues.keys && QueueOf(c.job.queues, n) == [] && HasRoom(c, n)) ==>
      forall m :: |QueueOf(c.job.queues, m)| <= 1
  }

  lemma NothingToSteal(c: Ctx)
    requires !CanSteal(c) && c.job.queues.Valid()
    ensures Balanced(c)
  {
  }

  /** Finishing only ever fills a slot: nothing is queued or unqueued. */
  lemma FinishKeepsQueues(c: Ctx)
    requires AllOpen(c)
    ensures var d := MaybeFinish(c);
            && d.job.queues == c.job.queues && d.job.deferred == c.job.deferred
            && d.nodes.items.Keys == c.nodes.items.Keys
            && AllOpen(d)
            && forall n :: n in c.nodes.items ==>
                 d.nodes.items[n].activeTasks >= c.nodes.items[n].activeTasks
                 && d.nodes.items[n].governor == c.nodes.items[n].governor
  {
    hide Requeue, MapOutputs, FinalOutput, WantsReduce, ReducePrompt, FindReduce, Scheduler.PickReduceNode,
         Scheduler.Views;
    var reducer := Scheduler.PickReduceNode(c.cfg, Scheduler.Views(c.nodes), c.job.request.model);
    if reducer.Some? { assert reducer.value.nodeId in c.nodes.items; }
  }

  lemma SameWork(e: Ctx, r: Ctx)
    requires Drained(e) && r.job.queues == e.job.queues && r.nodes.items.Keys == e.nodes.items.Keys
    requires forall n :: n in e.nodes.items ==>
               r.nodes.items[n].activeTasks >= e.nodes.items[n].activeTasks
               && r.nodes.items[n].governor == e.nodes.items[n].governor
    ensures Drained(r) && (Balanced(e) ==> Balanced(r))
  {
    forall n
      ensures Served(r, n) && (HasRoom(r, n) ==> HasRoom(e, n))
    {
      assert Served(e, n);
    }
  }

  /** After a pump every node with room has an empty queue, and if the cluster has such a
      node no queue holds two tasks, unless the guard of the stealing loop stopped it after
      exactly that many steals. */
  lemma WorkConserved(c: Ctx, reach: set<NodeId>)
    requires Inv(c, reach, {}) && c.job.Active() && AllOpen(c)
    ensures var d, r := DrainAll(c, 0, Visits(c), false), Pump(c);
            && Drained(r)
            && (Balanced(r) || |Queued(r.job.queues)| + 200 == |Queued(d.job.queues)|)
  {
    hide Inv, AllOpen, IdsValid, Drained, Balanced, DrainAll, Steal, MaybeFinish, CanSteal, Queued;
    IdsAreValid(c, reach);
    var d := DrainAll(c, 0, Visits(c), false);
    var e := Steal(d, STEAL_ROUNDS);
    DrainAllServes(c, 0, Visits(c));
    StealAllServes(d, STEAL_ROUNDS);
    FinishKeepsQueues(e);
    if !CanSteal(e) { NothingToSteal(e); }
    SameWork(e, Pump(c));
  }

  // ---- a pump leaves a running job live ----

  ghost predicate Flying(job: Job) {
    exists t :: 0 <= t < |job.tasks| && job.tasks[t].InFlight()
  }

  /** Finished, or somebody still owes an answer. */
  ghost predicate Live(job: Job) {
    job.Terminal() || Flying(job)
  }

  /** The nodes serve this job only, and count its tasks truly. */
  ghost predicate Exact(c: Ctx) {
    forall n :: n in c.nodes.items ==> c.nodes.items[n].activeTasks == Load(c.job, n)
  }

  ghost predicate Alone(c: Ctx) {
    AllOpen(c) && Exact(c) && Inv(c, c.nodes.items.Keys, {}) && c.cfg.maxTaskAttempts >= 1
  }

  lemma FollowsAlone(c: Ctx, d: Ctx)
    requires Follows(c, d) && AllOpen(c) && Exact(c)
    ensures AllOpen(d) && Exact(d) && d.cfg == c.cfg && d.nodes.items.Keys == c.nodes.items.Keys
  {
    hide JobFollows, LogFollows, Load;
  }

  /** Finishing leaves the tasks alone, or adds one that is in flight. */
  lemma FinishTasks(c: Ctx)
    requires AllOpen(c)
    ensures var before, after := c.job.tasks, MaybeFinish(c).job.tasks;
            after == before || exists x: Task :: x.InFlight() && after == before + [x]
  {
    hide Requeue, MapOutputs, FinalOutput, WantsReduce, ReducePrompt, FindReduce, Scheduler.PickReduceNode,
         Scheduler.Views;
    var reducer := Scheduler.PickReduceNode(c.cfg, Scheduler.Views(c.nodes), c.job.request.model);
    if reducer.Some? && !c.job.reduceDispatched {
      var n := reducer.value.nodeId;
      assert n in c.nodes.items;
      var d := StartReduce(c);
      var e := Assign(d, |c.job.tasks|, n);
      assert Dispatch(d, |c.job.tasks|, n) == e;
      assert e.job.tasks == c.job.tasks + [e.job.tasks[|c.job.tasks|]];
    }
  }

  lemma FinishKeepsFlying(c: Ctx)
    requires AllOpen(c) && Flying(c.job)
    ensures Flying(MaybeFinish(c).job)
  {
    hide MaybeFinish;
    FinishTasks(c);
    var t :| 0 <= t < |c.job.tasks| && c.job.tasks[t].InFlight();
    assert MaybeFinish(c).job.tasks[t] == c.job.tasks[t];
  }

  /** With every task finished, finishing ends the job or sends its reduce. */
  lemma FinishSettles(c: Ctx)
    requires AllOpen(c) && forall t | 0 <= t < |c.job.tasks| :: c.job.tasks[t].Finished()
    ensures Live(MaybeFinish(c).job)
  {
    hide Dispatch, MapOutputs, FinalOutput, WantsReduce, ReducePrompt, Scheduler.PickReduceNode, Scheduler.Views;
    FinishTasks(c);
    var before, after := c.job.tasks, MaybeFinish(c).job.tasks;
    if after != before {
      assert after[|before|].InFlight();
    }
  }

  lemma {:induction false} NothingQueued(keys: seq<NodeId>, queues: Queues)
    requires forall n | n in keys :: QueueOf(queues, n) == []
    ensures Gather(keys, queues) == multiset{}
  {
    if keys != [] {
      NothingQueued(keys[1..], queues);
    }
  }

  /** Served nodes, true counts and nothing in flight: every task is finished. */
  lemma IdleMeansFinished(c: Ctx)
    requires Alone(c) && c.job.Active() && Drained(c) && !Flying(c.job)
    ensures forall t | 0 <= t < |c.job.tasks| :: c.job.tasks[t].Finished()
  {
    hide ReduceOk, PipelineOk, TerminalOk, TokensOk, LogOk, Gather;
    forall n | n in c.job.queues.keys
      ensures QueueOf(c.job.queues, n) == []
    {
      ZeroSum(c.job.tasks, HoldsSlot(n));
      assert Served(c, n);
    }
    NothingQueued(c.job.queues.keys, c.job.queues);
    forall t | 0 <= t < |c.job.tasks|
      ensures c.job.tasks[t].Finished()
    {
      assert TaskOk(c.cfg.maxTaskAttempts, c.job, t, c.nodes.items.Keys);
      assert Queued(c.job.queues)[t] == 0;
      assert !c.job.tasks[t].InFlight();
    }
  }

  /** A pump leaves the job finished or with a task in flight. */
  lemma PumpLive(c: Ctx)
    requires Alone(c) && c.job.Active()
    ensures Live(Pump(c).job)
  {
    hide Inv, Follows, AllOpen, Exact, Drained, IdsValid, DrainAll, Steal, MaybeFinish, Flying, Live, CanSteal, Queued;
    var ids := c.nodes.items.Keys;
    var d := DrainAll(c, 0, Visits(c), false);
    var e := Steal(d, STEAL_ROUNDS);
    IdsAreValid(c, ids);
    DrainAllServes(c, 0, Visits(c));
    StealAllServes(d, STEAL_ROUNDS);
    DrainAllOk(c, 0, Visits(c), false, ids);
    FollowsAlone(c, d);
    StealOk(d, STEAL_ROUNDS, ids);
    FollowsAlone(d, e);
    InvStatus(e, ids, {});
    if Flying(e.job) {
      FinishKeepsFlying(e);
      FlyingLive(Pump(c).job);
    } else if e.job.Active() {
      IdleMeansFinished(e);
      FinishSettles(e);
    } else {
      TerminalLive(e);
    }
  }

  lemma FlyingLive(job: Job)
    requires Flying(job)
    ensures Live(job)
  {
  }

  lemma TerminalLive(c: Ctx)
    requires c.job.Terminal()
    ensures Live(MaybeFinish(c).job)
  {
  }

  lemma SettledPumpLive(c: Ctx)
    requires Alone(c)
    ensures c.job.Active() ==> Live(Pump(c).job)
    ensures c.job.Terminal() ==> Live(Pump(c).job)
  {
    hide Inv, AllOpen, Exact;
    if c.job.Active() { PumpLive(c); }
  }

  /** The scheduled pumps never undo it. */
  lemma DeferredPumpLive(c: Ctx)
    requires Alone(c) && Live(c.job)
    ensures Live(DeferredPump(c).job)
  {
    hide Inv, AllOpen, Exact, Pump, Flying;
    if c.job.deferred > 0 {
      var d := c.(job := c.job.(deferred := c.job.deferred - 1));
      DeferredAlone(c, c.job.deferred - 1);
      InvStatus(c, c.nodes.items.Keys, {});
      SettledPumpLive(d);
    }
  }

  lemma DeferredAlone(c: Ctx, deferred: nat)
    requires Alone(c)
    ensures Alone(c.(job := c.job.(deferred := deferred)))
  {
    hide Inv, Follows;
    var d := c.(job := c.job.(deferred := deferred));
    DeferredOk(c, deferred, c.nodes.items.Keys);
    FollowsAlone(c, d);
  }

  /** A completed task always leaves the job live. */
  lemma DoneLive(c: Ctx, t: TaskId, sender: NodeId, output: string, metrics: TaskMetrics)
    requires Alone(c) && AnswerDue(c.job, t, sender)
    ensures Live(Done(c, t, sender, output, metrics).job)
  {
    hide Inv, Follows, AllOpen, Exact, Pump, Measure;
    var d := Record(c, t, sender, output, metrics);
    RecordStatus(c, t, c.nodes.items.Keys);
    RecordOk(c, t, sender, output, metrics, c.nodes.items.Keys);
    FollowsAlone(c, d);
    PumpLive(d);
  }

  /** So does losing a node, whatever it held. */
  lemma NodeLostLive(c: Ctx, n: NodeId, reach: set<NodeId>)
    requires AllOpen(c) && Exact(c) && c.cfg.maxTaskAttempts >= 1
    requires n !in c.nodes.items && Inv(c, c.nodes.items.Keys + {n}, {})
    ensures Live(NodeLost(c, n).job)
  {
    hide Inv, Follows, AllOpen, Exact, Pump, MoveQueue, RequeueHeld, Flying;
    var ids := c.nodes.items.Keys;
    InvStatus(c, ids + {n}, {});
    if c.job.Active() {
      var e := Settled(c, n);
      SettledOk(c, n, ids + {n});
      assert ids + {n} - {n} == ids;
      FollowsAlone(c, e);
      InvStatus(e, ids, {});
      SettledPumpLive(e);
    }
  }

  // ---- the one way to get stuck ----

  /** Nobody connected could take a task, even after waiting and downloading the model. */
  ghost predicate NoMachine(c: Ctx) {
    forall n :: n in c.nodes.items ==> !Scheduler.Eligible(c.cfg, c.nodes.items[n], c.job.request.model, true, true)
  }

  /** No attempt is left, or no machine. */
  ghost predicate GivesUp(c: Ctx, t: TaskId)
    requires t < |c.job.tasks|
  {
    c.job.tasks[t].attempts >= c.cfg.maxTaskAttempts || NoMachine(c)
  }

  ghost predicate OthersWait(job: Job, t: TaskId) {
    exists u :: 0 <= u < |job.tasks| && u != t && job.tasks[u].Waiting()
  }

  ghost predicate OthersFly(job: Job, t: TaskId) {
    exists u :: 0 <= u < |job.tasks| && u != t && job.tasks[u].InFlight()
  }

  lemma NoTarget(c: Ctx, nodes: Nodes, tried: set<NodeId>)
    requires nodes.Valid() && nodes.items.Keys == c.nodes.items.Keys
    requires forall n :: n in nodes.items ==>
      nodes.items[n] == c.nodes.items[n].(activeTasks := nodes.items[n].activeTasks)
    ensures RequeueTarget(c.cfg, nodes, c.job.request.model, tried).None? <==> NoMachine(c)
  {
    hide RequeueTarget, Scheduler.Views;
    var views, model := Scheduler.Views(nodes), c.job.request.model;
    if RequeueTarget(c.cfg, nodes, model, tried).None? {
      forall n | n in c.nodes.items
        ensures !Scheduler.Eligible(c.cfg, c.nodes.items[n], model, true, true)
      {
        Scheduler.ViewOf(nodes, n);
        assert !Scheduler.Eligible(c.cfg, nodes.items[n], model, true, true);
      }
    }
  }

  lemma SingleTaskAlone(c: Ctx, t: TaskId)
    requires Alone(c) && c.job.pipeline.Some? && t < |c.job.tasks|
    ensures !OthersWait(c.job, t)
  {
    hide Conserved, TasksOk, Reachable, ReduceOk, TerminalOk, TokensOk, LogOk, Covered;
  }

  /** Everything else is finished, as long as nothing else waits or is in flight. */
  lemma OthersFinished(c: Ctx, t: TaskId)
    requires Alone(c) && c.job.Active() && t < |c.job.tasks|
    requires !OthersWait(c.job, t) && !OthersFly(c.job, t)
    ensures forall u | 0 <= u < |c.job.tasks| && u != t :: c.job.tasks[u].Finished()
  {
    hide Conserved, Reachable, ReduceOk, PipelineOk, TerminalOk, TokensOk, LogOk, Covered;
    forall u | 0 <= u < |c.job.tasks| && u != t
      ensures c.job.tasks[u].Finished()
    {
      assert TaskOk(c.cfg.maxTaskAttempts, c.job, u, c.nodes.items.Keys);
      assert !c.job.tasks[u].Waiting() && !c.job.tasks[u].InFlight();
    }
  }

  /** What waits beside a task in flight is a map task. */
  lemma WaitingMaps(c: Ctx, t: TaskId, u: TaskId)
    requires Alone(c) && t < |c.job.tasks| && u < |c.job.tasks| && u != t
    requires c.job.tasks[t].InFlight() && c.job.tasks[u].Waiting()
    ensures c.job.tasks[u].phase != ReducePhase && c.job.Active()
  {
    hide Conserved, Reachable, PipelineOk, TokensOk, LogOk, Covered, MapOutputs;
    assert TaskOk(c.cfg.maxTaskAttempts, c.job, t, c.nodes.items.Keys);
    assert TaskOk(c.cfg.maxTaskAttempts, c.job, u, c.nodes.items.Keys);
  }

  ghost function GivenUp(c: Ctx, t: TaskId): Ctx
    requires t < |c.job.tasks|
  {
    MaybeFinish(Release(c, t, Failed))
  }

  /** Giving a task up leaves the job live exactly when no other task is left waiting with
      none in flight. */
  lemma GivenUpLive(c: Ctx, t: TaskId)
    requires Alone(c) && t < |c.job.tasks| && c.job.tasks[t].InFlight()
    ensures GivenUp(c, t).job.deferred == c.job.deferred
    ensures Live(GivenUp(c, t).job) <==> OthersFly(c.job, t) || !OthersWait(c.job, t)
  {
    hide Inv, Exact, MaybeFinish, Live;
    var d := Release(c, t, Failed);
    FinishKeepsQueues(d);
    RecordStatus(c, t, c.nodes.items.Keys);
    if OthersFly(c.job, t) {
      var u :| 0 <= u < |c.job.tasks| && u != t && c.job.tasks[u].InFlight();
      assert d.job.tasks[u].InFlight();
      FinishKeepsFlying(d);
      FlyingLive(GivenUp(c, t).job);
    } else if OthersWait(c.job, t) {
      var u :| 0 <= u < |c.job.tasks| && u != t && c.job.tasks[u].Waiting();
      WaitingMaps(c, t, u);
      assert d.job.tasks[u] == c.job.tasks[u];
      Pending(d, u);
      NotLive(d.job);
    } else {
      OthersFinished(c, t);
      FinishSettles(d);
    }
  }

  lemma Pending(d: Ctx, u: TaskId)
    requires u < |d.job.tasks| && d.job.tasks[u].Waiting() && d.job.tasks[u].phase != ReducePhase
    ensures MaybeFinish(d) == d
  {
    assert MapsPending(d.job.tasks);
  }

  lemma NotLive(job: Job)
    requires job.Active() && forall t | 0 <= t < |job.tasks| :: !job.tasks[t].InFlight()
    ensures !Live(job)
  {
  }

  /** A requeued task has a pump scheduled for it. */
  lemma RequeuedLive(c: Ctx, r: Ctx)
    requires Alone(r) && r.job.Active() && r.job.deferred > 0
    ensures Live(DeferredPump(r).job)
  {
    hide Inv, AllOpen, Exact, Pump, Live;
    DeferredAlone(r, r.job.deferred - 1);
    PumpLive(r.(job := r.job.(deferred := r.job.deferred - 1)));
  }

  lemma RequeueAlone(c: Ctx, t: TaskId)
    requires Alone(c) && t < |c.job.tasks| && c.job.tasks[t].InFlight()
    ensures Alone(Requeue(c, t))
  {
    hide Inv, Follows, AllOpen, Exact, Requeue;
    RequeueOk(c, t, c.nodes.items.Keys, {});
    assert {} - {t} == {};
    FollowsAlone(c, Requeue(c, t));
  }

  /** The two outcomes of a requeue: given up, or waiting again with a pump scheduled. */
  lemma RequeueOutcome(c: Ctx, t: TaskId)
    requires Alone(c) && t < |c.job.tasks| && c.job.tasks[t].InFlight()
    ensures c.job.pipeline.None? && !GivesUp(c, t) ==> Requeue(c, t).job.deferred == c.job.deferred + 1
                                                       && Requeue(c, t).job.status == c.job.status
    ensures c.job.pipeline.None? && GivesUp(c, t) ==> Requeue(c, t) == GivenUp(c, t)
    ensures c.job.pipeline.Some? ==> Requeue(c, t) == GivenUp(c, t)
                                     || (Requeue(c, t).job.deferred == c.job.deferred + 1
                                         && Requeue(c, t).job.status == c.job.status)
  {
    hide MaybeFinish, RequeueTarget, Replan, NoMachine, Inv, AllOpen, Exact;
    var freed := Release(c, t, c.job.tasks[t].status);
    NodesValid(c);
    NoTarget(c, freed.nodes, c.job.tasks[t].triedNodes);
  }

  lemma NodesValid(c: Ctx)
    requires Alone(c)
    ensures c.nodes.Valid()
  {
  }

  /** A rejected or failed task leaves the job stuck, unfinished with nobody working on it,
      exactly when it is given up while other tasks wait and none is in flight: giving up
      checks for the end of the job but never pumps. */
  lemma DeclinedLiveExactly(c: Ctx, t: TaskId, sender: NodeId)
    requires Alone(c) && AnswerDue(c.job, t, sender) && c.job.deferred == 0
    ensures Live(DeferredPump(Declined(c, t)).job) <==>
              !(GivesUp(c, t) && OthersWait(c.job, t) && !OthersFly(c.job, t))
  {
    hide Inv, AllOpen, Exact, Requeue, MaybeFinish, GivesUp, OthersWait, OthersFly, Live, Pump;
    var r := Requeue(c, t);
    RecordStatus(c, t, c.nodes.items.Keys);
    RequeueAlone(c, t);
    RequeueOutcome(c, t);
    GivenUpLive(c, t);
    if c.job.pipeline.Some? { SingleTaskAlone(c, t); }
    if r.job.deferred == 1 && r.job.status == c.job.status {
      RequeuedLive(c, r);
    }
  }

  /** The same for a task that failed on its worker. */
  lemma TaskFailedLiveExactly(c: Ctx, t: TaskId, sender: NodeId)
    requires Alone(c) && AnswerDue(c.job, t, sender) && c.job.deferred == 0
    ensures Live(DeferredPump(JobCore.TaskFailed(c, t, sender)).job) <==>
              !(GivesUp(c, t) && OthersWait(c.job, t) && !OthersFly(c.job, t))
  {
    hide Inv, Follows, AllOpen, Exact, Requeue, OthersWait, OthersFly, Live, DeferredPump;
    var noted := c.(nodes := NoteFailure(c.nodes, sender));
    NoteFailureOk(c, sender, c.nodes.items.Keys);
    FollowsAlone(c, noted);
    DeclinedLiveExactly(noted, t, sender);
    assert GivesUp(noted, t) <==> GivesUp(c, t);
  }

  /** A job submitted to idle machines starts live, or fails at once. */
  lemma StartLive(c: Ctx, cursor: nat)
    requires c.job == NewJob(c.job.serial, c.job.request) && c.cfg.maxTaskAttempts >= 1
    requires c.nodes.Valid() && AllOpen(c)
    requires forall n :: n in c.nodes.items ==> c.nodes.items[n].activeTasks == 0
    requires forall t: TaskId :: TimesSent(c.log, c.job.serial, t) == 0
    requires forall i | 0 <= i < |c.log| :: c.log[i].Permitted()
    ensures Live(Start(c, cursor).job)
  {
    hide Inv, Pump, Submission.Planned, Load, TimesSent, Live;
    var p := Submission.Planned(c, cursor);
    PlannedOk(c, cursor, c.nodes.items.Keys);
    PlannedShape(c, cursor, 0);
    forall n | n in c.nodes.items
      ensures p.nodes.items[n].activeTasks == Load(p.job, n)
    {
      PlannedShape(c, cursor, n);
    }
    InvStatus(p, p.nodes.items.Keys, {});
    SettledPumpLive(p);
  }

  /** Unfinished, nobody working on it, and a task waiting behind an idle machine that is
      eligible for it. */
  ghost predicate Stranded(c: Ctx, t: TaskId, n: NodeId) {
    && c.job.Active() && !Flying(c.job)
    && t < |c.job.tasks| && c.job.tasks[t].Waiting() && QueueOf(c.job.queues, n) == [t]
    && HasRoom(c, n)
    && Scheduler.Eligible(c.cfg, c.nodes.items[n], c.job.request.model, false, false)
  }
}
