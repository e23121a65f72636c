/** The Job Manager as the object it is: jobs and node slots updated in place, each method
    proved to do exactly what the functions of `JobCore` and `Coordinator` say. */
module Manager {
  import opened Collections
  import opened Protocol
  import opened JobCore
  import opened Registry
  import opened Submission
  import opened Coordinator
  import opened QueueBounds
  import Scheduler
  import Analyzer
  import Pipeline
  import PipelineProofs
  import Allocation
  import Forming
  import JobLiveness

  class ManagedJob {
    const serial: nat
    const request: JobRequest
    var status: JobStatus
    var pipeline: Option<Pipeline.PipelinePlan>
    var tasks: seq<Task>
    var queues: Queues
    var output: string
    var totalTokens: nat
    var reduceDispatched: bool
    var deferred: nat

    ghost function Value(): Job
      reads this
    {
      Job(serial, request, status, pipeline, tasks, queues, output, totalTokens, reduceDispatched, deferred)
    }

    constructor (serial: nat, request: JobRequest)
      ensures Value() == NewJob(serial, request)
    {
      this.serial, this.request := serial, request;
      status, pipeline, tasks, queues := JobPlanning, None, [], EmptyMap();
      output, totalTokens, reduceDispatched, deferred := "", 0, false, 0;
    }

    method SetTask(t: TaskId, task: Task)
      requires t < |tasks|
      modifies this`tasks
      ensures tasks == old(tasks)[t := task]
    {
      tasks := tasks[t := task];
    }
  }

  /** Releasing a task a second time only changes its status. */
  lemma ReleaseTwice(c: Ctx, t: TaskId)
    requires t < |c.job.tasks|
    ensures var d := Release(c, t, c.job.tasks[t].status);
            && d == c.(job := d.job, nodes := d.nodes)
            && d.job == c.job.(tasks := d.job.tasks) && |d.job.tasks| == |c.job.tasks|
            && d.job.tasks[t].attempts == c.job.tasks[t].attempts
            && d.job.tasks[t].triedNodes == c.job.tasks[t].triedNodes
            && Release(d, t, Failed) == Release(c, t, Failed)
            && (forall n :: JobCore.Reassign(d, t, n) == JobCore.Reassign(c, t, n))
            && (forall plan :: JobCore.Reform(d, t, plan) == JobCore.Reform(c, t, plan))
  {
  }

  lemma CancelStep(c: Ctx, t: TaskId)
    requires t < |c.job.tasks|
    ensures var task := c.job.tasks[t];
            var nodes := if task.InFlight() then FreeSlot(c.nodes, task.nodeId) else c.nodes;
            var job := if task.status != Completed then WithTask(c.job, t, task.(status := Cancelled)) else c.job;
            CancelFrom(c, t) == CancelFrom(c.(job := job, nodes := nodes), t + 1)
  {
  }

  lemma {:induction false} CancelFromSound(c: Ctx, t: nat)
    requires Sound(c)
    ensures Sound(CancelFrom(c, t))
    decreases |c.job.tasks| - t
  {
    if t < |c.job.tasks| {
      var task := c.job.tasks[t];
      var nodes := if task.InFlight() then FreeSlot(c.nodes, task.nodeId) else c.nodes;
      var job := if task.status != Completed then WithTask(c.job, t, task.(status := Cancelled)) else c.job;
      CancelFromSound(c.(job := job, nodes := nodes), t + 1);
    }
  }

  lemma CancelSound(c: Ctx)
    requires Sound(c)
    ensures Sound(JobCore.Cancel(c))
  {
    hide CancelFrom;
    CancelFromSound(c.(job := c.job.(status := JobCancelled)), 0);
  }

  /** Submitting spelled out as the update of one job. */
  lemma SubmitShape(s: Coordinator.State, j: JobId, request: JobRequest)
    ensures var job := NewJob(s.nextSerial, request);
            Step(s, Event.Submit(j, request))
              == Put(s, j, Start(CtxOf(s, job), s.cursor)).(
                   cursor := NextCursor(s.cfg, request, s.nodes, s.cursor), nextSerial := s.nextSerial + 1,
                   retired := if j in s.jobs.items then s.retired + [s.jobs.items[j]] else s.retired)
  {
    hide Start, NextCursor;
  }

  /** Single events spelled out. */
  lemma StepShapes(s: Coordinator.State, j: JobId, t: TaskId, n: NodeId, token: string)
    ensures Step(s, PumpDue(j)) == if j in s.jobs.items then Put(s, j, DeferredPump(CtxOf(s, s.jobs.items[j]))) else s
    ensures Step(s, TaskToken(j, t, n, token)) ==
            if j in s.jobs.items && t < |s.jobs.items[j].tasks| then
              Put(s, j, Token(CtxOf(s, s.jobs.items[j]), t, token)).(tokenCount := s.tokenCount + 1)
            else s
    ensures Step(s, NodeDropped(n)) == LoseFrom(s.(nodes := s.nodes.Delete(n)), 0, n)
  {
    hide DeferredPump, Token, LoseFrom;
  }

  class JobManager {
    const cfg: Config
    const registry: DeviceRegistry
    var now: int
    var jobs: OrderedMap<JobId, ManagedJob>
    var roundRobinCursor: nat
    var completedCount: nat
    var tokenCount: nat
    var nextSerial: nat
    ghost var log: seq<Assignment>
    ghost var retired: seq<Job>

    constructor (cfg: Config, registry: DeviceRegistry, now: int)
      ensures this.cfg == cfg && this.registry == registry && this.now == now
      ensures jobs == EmptyMap() && log == [] && retired == []
      ensures roundRobinCursor == 0 && completedCount == 0 && tokenCount == 0 && nextSerial == 0
    {
      this.cfg, this.registry, this.now := cfg, registry, now;
      jobs := EmptyMap();
      roundRobinCursor, completedCount, tokenCount, nextSerial := 0, 0, 0, 0;
      log, retired := [], [];
    }

    /** What the manager sees while it works on one job. */
    ghost function At(job: ManagedJob): Ctx
      reads this, registry, job
    {
      Ctx(cfg, now, job.Value(), registry.nodes, log, completedCount)
    }

    // ---- the re-entrant core ----

    method Dispatch(job: ManagedJob, t: TaskId, n: NodeId)
      modifies this`log, this`completedCount, registry, job
      ensures At(job) == JobCore.Dispatch(old(At(job)), t, n)
      decreases if job.reduceDispatched then 0 else 1, 2
    {
      hide JobCore.Requeue;
      if t >= |job.tasks| { return; }
      if n !in registry.nodes.items {
        Requeue(job, t);
        return;
      }
      var node := registry.nodes.items[n];
      if !node.socketOpen {
        Requeue(job, t);
        return;
      }
      var task := job.tasks[t];
      job.SetTask(t, task.(status := Assigned, nodeId := Some(n), attempts := task.attempts + 1,
                           assignedAtMs := Some(now), triedNodes := task.triedNodes + {n}));
      registry.TakeSlot(n);
      log := log + [Assignment(job.serial, t, n, node.activeTasks, node.governor.maxConcurrentTasks, now)];
    }

    /** The task's slot is handed back and it is on no node. */
    method Unassign(job: ManagedJob, t: TaskId)
      requires t < |job.tasks|
      modifies registry, job
      ensures At(job) == Release(old(At(job)), t, old(job.tasks[t].status))
      ensures job.tasks[t].nodeId.None? && job.tasks[t].assignedAtMs.None?
    {
      var task := job.tasks[t];
      if task.nodeId.Some? { registry.ReturnSlot(task.nodeId.value); }
      job.SetTask(t, task.(nodeId := None, assignedAtMs := None));
    }

    method GiveUp(job: ManagedJob, t: TaskId)
      requires t < |job.tasks| && job.tasks[t].nodeId.None? && job.tasks[t].assignedAtMs.None?
      modifies this`log, this`completedCount, registry, job
      ensures At(job) == JobCore.MaybeFinish(Release(old(At(job)), t, Failed))
      decreases if job.reduceDispatched then 0 else 1, 1, 0
    {
      hide JobCore.MaybeFinish;
      job.SetTask(t, job.tasks[t].(status := Failed));
      MaybeFinish(job);
    }

    /** A pipeline is rebuilt whole. */
    method Reform(job: ManagedJob, t: TaskId, plan: Pipeline.PipelinePlan)
      requires t < |job.tasks| && job.tasks[t].nodeId.None? && job.tasks[t].assignedAtMs.None?
      modifies job
      ensures At(job) == JobCore.Reform(old(At(job)), t, plan)
    {
      job.pipeline := Some(plan);
      job.SetTask(t, job.tasks[t].(status := Reassigned));
      job.queues := EmptyMap<NodeId, seq<TaskId>>();
      job.queues := job.queues.Set(plan.headNodeId, [t]);
      job.deferred := job.deferred + 1;
    }

    method Reassign(job: ManagedJob, t: TaskId, n: NodeId)
      requires t < |job.tasks| && job.tasks[t].nodeId.None? && job.tasks[t].assignedAtMs.None?
      modifies job
      ensures At(job) == JobCore.Reassign(old(At(job)), t, n)
    {
      job.SetTask(t, job.tasks[t].(status := Reassigned));
      var queue := QueueOf(job.queues, n);
      job.queues := job.queues.Set(n, [t] + queue);
      job.deferred := job.deferred + 1;
    }

    method Requeue(job: ManagedJob, t: TaskId)
      requires t < |job.tasks|
      modifies this`log, this`completedCount, registry, job
      ensures At(job) == JobCore.Requeue(old(At(job)), t)
      decreases if job.reduceDispatched then 0 else 1, 1, 1
    {
      hide JobCore.MaybeFinish, JobCore.Reassign, JobCore.Reform, Release, Scheduler.Views, RequeueTarget,
           Pipeline.PlanPipeline;
      ghost var before := At(job);
      Unassign(job, t);
      ReleaseTwice(before, t);
      if job.tasks[t].attempts >= cfg.maxTaskAttempts {
        GiveUp(job, t);
        return;
      }
      if job.pipeline.Some? {
        var views := registry.ToViews();
        var plan := PipelineProofs.FormPipeline(views, job.request.model, None, cfg.maxPipelineMembers);
        if plan.None? {
          GiveUp(job, t);
        } else {
          Reform(job, t, plan.value);
        }
        return;
      }
      var target := RequeueTarget(cfg, registry.nodes, job.request.model, job.tasks[t].triedNodes);
      if target.None? {
        GiveUp(job, t);
      } else {
        Reassign(job, t, target.value);
      }
    }

    method MaybeFinish(job: ManagedJob)
      modifies this`log, this`completedCount, registry, job
      ensures At(job) == JobCore.MaybeFinish(old(At(job)))
      decreases if job.reduceDispatched then 0 else 1, 0
    {
      hide JobCore.Dispatch, MapOutputs, FinalOutput, WantsReduce, StartReduce, CompleteJob, Scheduler.Views;
      if job.status == JobCompleted || job.status == JobFailed || job.status == JobCancelled { return; }
      if MapsPending(job.tasks) { return; }
      if MapOutputs(job.tasks) == [] {
        job.status := JobFailed;
        return;
      }
      if WantsReduceNow(job) && !job.reduceDispatched {
        var views := registry.ToViews();
        var reducer := Scheduler.PickReduceNode(cfg, views, job.request.model);
        if reducer.Some? {
          CreateReduce(job);
          Dispatch(job, |job.tasks| - 1, reducer.value.nodeId);
          return;
        }
      }
      var reduce := FindReduce(job.tasks);
      if reduce.Some? && !job.tasks[reduce.value].Finished() { return; }
      Complete(job);
    }

    method CreateReduce(job: ManagedJob)
      modifies job
      ensures At(job) == StartReduce(old(At(job)))
      ensures |job.tasks| == |old(job.tasks)| + 1 && job.reduceDispatched
    {
      job.reduceDispatched := true;
      job.status := JobReducing;
      job.tasks := job.tasks + [NewTask(|job.tasks|, ReducePhase, ReducePrompt(job.request, job.tasks))];
    }

    method Complete(job: ManagedJob)
      modifies this`completedCount, job
      ensures At(job) == CompleteJob(old(At(job)))
    {
      job.status := JobCompleted;
      job.output := FinalOutput(job.tasks);
      completedCount := completedCount + 1;
    }

    predicate WantsReduceNow(job: ManagedJob)
      reads job
      ensures WantsReduceNow(job) == WantsReduce(job.Value())
    {
      job.request.kind == Batch && Trim(job.request.reduceInstruction) != "" && |MapOutputs(job.tasks)| > 1
    }

    // ---- pumping ----

    /** One queue, as far as its node has slots. */
    method DrainQueue(job: ManagedJob, n: NodeId)
      requires n in registry.nodes.items
      modifies this`log, this`completedCount, registry, job
      ensures At(job) == Drain(old(At(job)), n, FreeSlots(old(registry.nodes.items[n])))
    {
      hide JobCore.Dispatch;
      var node := registry.nodes.items[n];
      var slots := node.Limit() - node.activeTasks;
      ghost var before := At(job);
      var i := 0;
      while i < slots && QueueOf(job.queues, n) != []
        invariant Drain(At(job), n, slots - i) == Drain(before, n, slots)
        invariant i <= slots || i == 0
        decreases slots - i
      {
        var queue, pumps := QueueOf(job.queues, n), job.deferred;
        job.queues := job.queues.Set(n, queue[1..]);
        Dispatch(job, queue[0], n);
        if job.pipeline.Some? && job.deferred > pumps { break; }
        i := i + 1;
      }
    }

    /** Every queue in turn, including those added on the way. When a pipeline is rebuilt
        the map is cleared and the walk goes on with its new entry. `ends` is false when
        that happens again: the source would go on like that for ever. */
    method DrainQueues(job: ManagedJob) returns (ends: bool)
      requires Sound(At(job))
      modifies this`log, this`completedCount, registry, job
      ensures At(job) == DrainAll(old(At(job)), 0, Visits(old(At(job))), false)
      ensures ends == DrainEnds(old(At(job)), 0, Visits(old(At(job))), false)
    {
      hide Drain, Within;
      ghost var start, before := At(job), At(job);
      ghost var left := Visits(before);
      WithinSelf(before);
      var k, rebuilt := 0, false;
      while k < |job.queues.keys|
        invariant Sound(before) && Within(before, At(job)) && k + left == Visits(before)
        invariant DrainAll(At(job), k, left, rebuilt) == DrainAll(start, 0, Visits(start), false)
        invariant DrainEnds(At(job), k, left, rebuilt) == DrainEnds(start, 0, Visits(start), false)
        decreases if rebuilt then 0 else 1, left
      {
        ghost var c := At(job);
        QueueCount(before, c);
        WithinSound(before, c);
        VisitWithin(c, k);
        WithinTrans(before, c, VisitQueue(c, k));
        var n, pumps := job.queues.keys[k], job.deferred;
        if n in registry.nodes.items { DrainQueue(job, n); }
        if job.pipeline.Some? && job.deferred > pumps {
          if rebuilt { return false; }
          rebuilt, k := true, 0;
          before, left := At(job), Visits(At(job));
          WithinSound(c, before);
          WithinSelf(before);
        } else {
          k := k + 1;
          left := left - 1;
        }
      }
      return true;
    }

    /** Nodes of the job's cluster with an empty queue and a free slot. */
    method IdleClusterNodes(job: ManagedJob) returns (idle: seq<NodeId>)
      ensures forall n ::
                n in idle <==> n in job.queues.keys && QueueOf(job.queues, n) == [] && JobLiveness.HasRoom(At(job), n)
      ensures FirstIdle(At(job), 0) == if idle == [] then None else Some(idle[0])
    {
      idle := [];
      for k := 0 to |job.queues.keys|
        invariant forall n :: n in idle <==> n in job.queues.keys[..k] && IdleAt(At(job), n)
        invariant FirstIdle(At(job), 0) == if idle == [] then FirstIdle(At(job), k) else Some(idle[0])
      {
        var n := job.queues.keys[k];
        if QueueOf(job.queues, n) == [] && n in registry.nodes.items {
          var node := registry.nodes.items[n];
          if node.activeTasks < node.Limit() { idle := idle + [n]; }
        }
      }
    }

    method StealWork(job: ManagedJob)
      modifies this`log, this`completedCount, registry, job
      ensures At(job) == Steal(old(At(job)), STEAL_ROUNDS)
    {
      hide JobCore.Dispatch, FirstIdle, Donor;
      ghost var before := At(job);
      var guard := 0;
      while guard < STEAL_ROUNDS
        invariant guard <= STEAL_ROUNDS
        invariant Steal(At(job), STEAL_ROUNDS - guard) == Steal(before, STEAL_ROUNDS)
        decreases STEAL_ROUNDS - guard
      {
        guard := guard + 1;
        var idle := IdleClusterNodes(job);
        if idle == [] { break; }
        var donor := Donor(job.queues);
        if donor.None? { break; }
        var queue := QueueOf(job.queues, donor.value);
        job.queues := job.queues.Set(donor.value, queue[..|queue| - 1]);
        Dispatch(job, queue[|queue| - 1], idle[0]);
      }
    }

    method Pump(job: ManagedJob)
      requires Sound(At(job))
      modifies this`log, this`completedCount, registry, job
      ensures At(job) == JobCore.Pump(old(At(job)))
    {
      hide DrainAll, Steal, JobCore.MaybeFinish;
      if job.status != JobRunning && job.status != JobReducing { return; }
      var ends := DrainQueues(job);
      StealWork(job);
      MaybeFinish(job);
    }

    // ---- one job's share of an event ----

    /** A node is gone: its queue moves on, and what it was running is requeued. */
    method LoseIn(job: ManagedJob, n: NodeId)
      requires Sound(At(job))
      modifies this`log, this`completedCount, registry, job
      ensures At(job) == NodeLost(old(At(job)), n) && Sound(At(job))
    {
      hide JobCore.Pump, RequeueHeld, MoveQueue, Within;
      if job.status != JobRunning && job.status != JobReducing { return; }
      ghost var before := At(job);
      MoveQueueOf(job, n);
      MoveQueueWithin(before, n);
      ghost var moved := At(job);
      WithinSound(before, moved);
      RequeueHeldBy(job, n);
      RequeueHeldWithin(moved, n, 0);
      ghost var held := At(job);
      WithinSound(moved, held);
      PumpWithin(held);
      Pump(job);
      WithinSound(held, At(job));
    }

    method MoveQueueOf(job: ManagedJob, n: NodeId)
      modifies this`log, this`completedCount, registry, job
      ensures At(job) == MoveQueue(old(At(job)), n)
    {
      hide JobCore.Requeue;
      var queue := QueueOf(job.queues, n);
      job.queues := job.queues.Delete(n);
      if queue == [] { return; }
      if job.queues.keys != [] {
        var fallback := job.queues.keys[0];
        job.queues := job.queues.Set(fallback, QueueOf(job.queues, fallback) + queue);
        return;
      }
      ghost var before := At(job);
      for i := 0 to |queue|
        invariant RequeueEach(At(job), queue[i..]) == RequeueEach(before, queue)
      {
        assert queue[i..][1..] == queue[i + 1..];
        if queue[i] < |job.tasks| { Requeue(job, queue[i]); }
      }
    }

    method RequeueHeldBy(job: ManagedJob, n: NodeId)
      modifies this`log, this`completedCount, registry, job
      ensures At(job) == RequeueHeld(old(At(job)), n, 0)
    {
      hide JobCore.Requeue;
      ghost var before := At(job);
      var t := 0;
      while t < |job.tasks|
        invariant RequeueHeld(At(job), n, t) == RequeueHeld(before, n, 0)
        decreases ReduceBudget(job.Value()), |job.tasks| - t
      {
        if job.tasks[t].On(n) { Requeue(job, t); }
        t := t + 1;
      }
    }

    method SweepIn(job: ManagedJob)
      requires Sound(At(job))
      modifies this`log, this`completedCount, registry, job
      ensures At(job) == Sweep(old(At(job))) && Sound(At(job))
    {
      hide JobCore.Requeue, Within;
      if job.status != JobRunning && job.status != JobReducing { return; }
      ghost var before := At(job);
      SweepFromWithin(before, 0);
      WithinSound(before, SweepFrom(before, 0));
      var t := 0;
      while t < |job.tasks|
        invariant SweepFrom(At(job), t) == SweepFrom(before, 0)
        invariant now == before.now
        decreases ReduceBudget(job.Value()), |job.tasks| - t
      {
        var task := job.tasks[t];
        if task.InFlight() && task.assignedAtMs.Some? && now - task.assignedAtMs.value > cfg.taskTimeoutMs {
          Requeue(job, t);
        }
        t := t + 1;
      }
    }

    method CancelIn(job: ManagedJob)
      requires Sound(At(job))
      modifies registry, job
      ensures At(job) == JobCore.Cancel(old(At(job))) && Sound(At(job))
    {
      ghost var start := At(job);
      if job.status == JobCompleted || job.status == JobFailed { return; }
      job.status := JobCancelled;
      ghost var before := At(job);
      var t := 0;
      while t < |job.tasks|
        invariant CancelFrom(At(job), t) == CancelFrom(before, 0)
        invariant t <= |job.tasks|
        decreases |job.tasks| - t
      {
        CancelTask(job, t);
        t := t + 1;
      }
      job.queues := EmptyMap();
      CancelSound(start);
    }

    method CancelTask(job: ManagedJob, t: TaskId)
      requires t < |job.tasks|
      modifies registry, job
      ensures |job.tasks| == |old(job.tasks)|
      ensures CancelFrom(At(job), t + 1) == CancelFrom(old(At(job)), t)
    {
      hide CancelFrom;
      ghost var before := At(job);
      var task := job.tasks[t];
      if task.InFlight() && task.nodeId.Some? { registry.ReturnSlot(task.nodeId.value); }
      if task.status != Completed { job.SetTask(t, task.(status := Cancelled)); }
      CancelStep(before, t);
    }

    method RecordIn(job: ManagedJob, t: TaskId, sender: NodeId, output: string, metrics: TaskMetrics)
      requires t < |job.tasks|
      modifies registry, job
      ensures At(job) == Record(old(At(job)), t, sender, output, metrics)
    {
      registry.ReturnSlot(sender);
      if metrics.tokensPerSecond > 0.0 { registry.RecordTaskResult(sender, metrics); }
      var task := job.tasks[t];
      job.SetTask(t, task.(status := Completed, output := if output != "" then output else task.output,
                           metrics := Some(metrics)));
      job.totalTokens := job.totalTokens + metrics.tokens;
    }

    method CompleteIn(job: ManagedJob, t: TaskId, sender: NodeId, output: string, metrics: TaskMetrics)
      requires Sound(At(job))
      modifies this`log, this`completedCount, registry, job
      ensures At(job) == Done(old(At(job)), t, sender, output, metrics) && Sound(At(job))
    {
      hide JobCore.Pump, Within;
      if t >= |job.tasks| { return; }
      RecordIn(job, t, sender, output, metrics);
      ghost var c := At(job);
      PumpWithin(c);
      Pump(job);
      WithinSound(c, At(job));
    }

    method PumpDeferredIn(job: ManagedJob)
      requires Sound(At(job))
      modifies this`log, this`completedCount, registry, job
      ensures At(job) == DeferredPump(old(At(job))) && Sound(At(job))
    {
      hide JobCore.Pump, Within;
      if job.deferred == 0 { return; }
      job.deferred := job.deferred - 1;
      ghost var c := At(job);
      PumpWithin(c);
      Pump(job);
      WithinSound(c, At(job));
    }

    method AcceptIn(job: ManagedJob, t: TaskId)
      requires Sound(At(job))
      modifies job
      ensures At(job) == Accepted(old(At(job)), t) && Sound(At(job))
    {
      if t >= |job.tasks| { return; }
      job.SetTask(t, job.tasks[t].(status := Running));
    }

    method DeclineIn(job: ManagedJob, t: TaskId)
      requires Sound(At(job))
      modifies this`log, this`completedCount, registry, job
      ensures At(job) == Declined(old(At(job)), t) && Sound(At(job))
    {
      hide JobCore.Requeue, Within;
      if t >= |job.tasks| { return; }
      ghost var before := At(job);
      Requeue(job, t);
      RequeueWithin(before, t);
      WithinSound(before, At(job));
    }

    method StreamIn(job: ManagedJob, t: TaskId, token: string)
      requires Sound(At(job)) && t < |job.tasks|
      modifies job
      ensures At(job) == Token(old(At(job)), t, token) && Sound(At(job))
    {
      job.SetTask(t, job.tasks[t].(output := job.tasks[t].output + token));
    }

    method FailIn(job: ManagedJob, t: TaskId, sender: NodeId)
      requires Sound(At(job))
      modifies this`log, this`completedCount, registry, job
      ensures At(job) == JobCore.TaskFailed(old(At(job)), t, sender) && Sound(At(job))
    {
      hide Declined;
      if t < |job.tasks| { registry.RecordTaskFailure(sender); }
      DeclineIn(job, t);
    }

    // ---- all jobs together ----

    ghost function Values(): map<JobId, Job>
      reads this, jobs.items.Values
    {
      map j | j in jobs.items :: jobs.items[j].Value()
    }

    ghost function State(): Coordinator.State
      reads this, registry, jobs.items.Values
    {
      Coordinator.State(cfg, now, OrderedMap(jobs.keys, Values()), registry.nodes, log, completedCount, tokenCount,
                        roundRobinCursor, nextSerial, retired)
    }

    /** Every job is an object of its own. */
    ghost predicate Valid()
      reads this, registry, jobs.items.Values
    {
      && jobs.Valid() && registry.nodes.Valid()
      && (forall j, k :: j in jobs.items && k in jobs.items && j != k ==> jobs.items[j] != jobs.items[k])
      && (forall j :: j in jobs.items ==> jobs.items[j].queues.Valid())
    }

    /** Nothing but job j, the nodes, the log and the count of completed jobs has changed. */
    twostate predicate OnlyJob(j: JobId)
      reads this, registry, jobs.items.Values
    {
      && j in jobs.items && jobs == old(jobs) && jobs.items[j] == old(jobs.items[j])
      && now == old(now) && tokenCount == old(tokenCount) && retired == old(retired)
      && roundRobinCursor == old(roundRobinCursor) && nextSerial == old(nextSerial)
      && (forall k :: k in jobs.items && k != j ==> jobs.items[k].Value() == old(jobs.items[k].Value()))
    }

    twostate lemma JobMoved(j: JobId)
      requires old(Valid()) && OnlyJob(j) && Sound(At(jobs.items[j]))
      ensures Valid() && State() == Put(old(State()), j, At(jobs.items[j]))
    {
      assert Values() == old(Values())[j := jobs.items[j].Value()];
      forall k | k in jobs.items
        ensures jobs.items[k].queues.Valid()
      {
        if k != j { assert jobs.items[k].Value() == old(jobs.items[k].Value()); }
      }
    }

    lemma StateAt(j: JobId)
      ensures j in State().jobs.items <==> j in jobs.items
      ensures j in jobs.items ==> CtxOf(State(), State().jobs.items[j]) == At(jobs.items[j])
      ensures j in jobs.items ==> State().jobs.items[j] == jobs.items[j].Value()
      ensures j in jobs.items && Valid() ==> Sound(At(jobs.items[j]))
      ensures j in jobs.items && Valid() ==> forall k :: k in jobs.items && k != j ==> jobs.items[k] != jobs.items[j]
    {
    }

    method OnTaskAccepted(j: JobId, t: TaskId)
      requires Valid()
      modifies jobs.items.Values
      ensures Valid() && State() == Step(old(State()), TaskAccepted(j, t))
    {
      hide State, Values, Sound, Valid;
      StateAt(j);
      if j !in jobs.items { return; }
      var job := jobs.items[j];
      AcceptIn(job, t);
      JobMoved(j);
    }

    /** The worker declined; who it was does not matter. */
    method OnTaskRejected(j: JobId, t: TaskId, sender: NodeId)
      requires Valid()
      modifies this`log, this`completedCount, registry, jobs.items.Values
      ensures Valid() && State() == Step(old(State()), TaskRejected(j, t, sender))
    {
      hide State, Values, Sound, Valid, Declined;
      StateAt(j);
      if j !in jobs.items { return; }
      var job := jobs.items[j];
      DeclineIn(job, t);
      JobMoved(j);
    }

    method OnToken(j: JobId, t: TaskId, sender: NodeId, token: string)
      requires Valid()
      modifies this`tokenCount, jobs.items.Values
      ensures Valid() && State() == Step(old(State()), TaskToken(j, t, sender, token))
    {
      hide State, Sound, Valid, Token, Step, CtxOf;
      StateAt(j);
      StepShapes(State(), j, t, sender, token);
      if j !in jobs.items || t >= |jobs.items[j].tasks| { return; }
      var job := jobs.items[j];
      StreamIn(job, t, token);
      JobMoved(j);
      CountToken();
    }

    method CountToken()
      modifies this`tokenCount
      ensures State() == old(State()).(tokenCount := old(State()).tokenCount + 1)
      ensures Valid() == old(Valid())
    {
      tokenCount := tokenCount + 1;
    }

    method OnTaskCompleted(j: JobId, t: TaskId, sender: NodeId, output: string, metrics: TaskMetrics)
      requires Valid()
      modifies this`log, this`completedCount, registry, jobs.items.Values
      ensures Valid() && State() == Step(old(State()), TaskCompleted(j, t, sender, output, metrics))
    {
      hide State, Values, Sound, Valid, Done;
      StateAt(j);
      if j !in jobs.items { return; }
      var job := jobs.items[j];
      CompleteIn(job, t, sender, output, metrics);
      JobMoved(j);
    }

    method OnTaskFailed(j: JobId, t: TaskId, sender: NodeId)
      requires Valid()
      modifies this`log, this`completedCount, registry, jobs.items.Values
      ensures Valid() && State() == Step(old(State()), Event.TaskFailure(j, t, sender))
    {
      hide State, Values, Sound, Valid, JobCore.TaskFailed;
      StateAt(j);
      if j !in jobs.items { return; }
      var job := jobs.items[j];
      FailIn(job, t, sender);
      JobMoved(j);
    }

    method Cancel(j: JobId)
      requires Valid()
      modifies registry, jobs.items.Values
      ensures Valid() && State() == Step(old(State()), CancelRequested(j))
    {
      hide State, Values, Sound, Valid, JobCore.Cancel;
      StateAt(j);
      if j !in jobs.items { return; }
      var job := jobs.items[j];
      CancelIn(job);
      JobMoved(j);
    }

    /** A pump that an earlier requeue put on the microtask queue. */
    method RunDeferred(j: JobId)
      requires Valid()
      modifies this`log, this`completedCount, registry, jobs.items.Values
      ensures Valid() && State() == Step(old(State()), PumpDue(j))
    {
      hide State, Values, Sound, Valid, DeferredPump, Step, Put, CtxOf;
      StateAt(j);
      StepShapes(State(), j, 0, 0, "");
      if j !in jobs.items { return; }
      var job := jobs.items[j];
      PumpDeferredIn(job);
      JobMoved(j);
    }

    // ---- events about every job ----

    method LoseFor(j: JobId, n: NodeId)
      requires Valid() && j in jobs.items
      modifies this`log, this`completedCount, registry, jobs.items.Values
      ensures Valid() && State() == Put(old(State()), j, NodeLost(CtxOf(old(State()), old(State()).jobs.items[j]), n))
    {
      hide State, Values, Sound, Valid, NodeLost;
      StateAt(j);
      var job := jobs.items[j];
      LoseIn(job, n);
      JobMoved(j);
    }

    method OnNodeLost(n: NodeId)
      requires Valid()
      modifies this`log, this`completedCount, registry, jobs.items.Values
      ensures Valid() && State() == LoseFrom(old(State()), 0, n)
    {
      hide NodeLost, Valid;
      ghost var s := State();
      KeysListed();
      var k := 0;
      while k < |jobs.keys|
        invariant Valid() && LoseFrom(State(), k, n) == LoseFrom(s, 0, n)
        decreases |jobs.keys| - k
      {
        LoseFor(jobs.keys[k], n);
        k := k + 1;
      }
    }

    lemma KeysListed()
      requires Valid()
      ensures forall k | 0 <= k < |jobs.keys| :: jobs.keys[k] in jobs.items
    {
    }

    /** The server drops a node from the registry and tells the manager at once. */
    method DropNode(n: NodeId)
      requires Valid()
      modifies this`log, this`completedCount, registry, jobs.items.Values
      ensures Valid() && State() == Step(old(State()), NodeDropped(n))
    {
      hide LoseFrom, Step, State, Valid, Values;
      StepShapes(State(), 0, 0, n, "");
      Disconnect(n);
      OnNodeLost(n);
    }

    method Disconnect(n: NodeId)
      requires Valid()
      modifies registry
      ensures Valid() && State() == old(State()).(nodes := old(State()).nodes.Delete(n))
    {
      var removed := registry.Remove(n);
    }

    method SweepFor(j: JobId)
      requires Valid() && j in jobs.items
      modifies this`log, this`completedCount, registry, jobs.items.Values
      ensures Valid() && State() == Put(old(State()), j, Sweep(CtxOf(old(State()), old(State()).jobs.items[j])))
    {
      hide State, Values, Sound, Valid, Sweep;
      StateAt(j);
      var job := jobs.items[j];
      SweepIn(job);
      JobMoved(j);
    }

    method SweepTimeouts()
      requires Valid()
      modifies this`log, this`completedCount, registry, jobs.items.Values
      ensures Valid() && State() == Step(old(State()), SweepDue)
    {
      hide Sweep, Valid;
      ghost var s := State();
      KeysListed();
      var k := 0;
      while k < |jobs.keys|
        invariant Valid() && SweepJobs(State(), k) == SweepJobs(s, 0)
        decreases |jobs.keys| - k
      {
        SweepFor(jobs.keys[k]);
        k := k + 1;
      }
    }

    // ---- submitting ----

    /** The next items, up to the quota, become tasks in a queue of their own. */
    method FillQueue(job: ManagedJob, n: NodeId, quotas: Allocation.Counts, cursor: nat) returns (next: nat)
      requires cursor <= |job.request.items| && job.tasks == ItemTasks(job.request)[..cursor]
      modifies job
      ensures Dealt(job.queues, next) == DealOne(n, quotas, |job.request.items|, Dealt(old(job.queues), cursor))
      ensures next <= |job.request.items| && job.tasks == ItemTasks(job.request)[..next]
      ensures job.Value() == old(job.Value()).(tasks := job.tasks, queues := job.queues)
    {
      var quota := Allocation.CountOf(quotas, n);
      var queue: seq<TaskId> := [];
      next := cursor;
      var i := 0;
      while i < quota && next < |job.request.items|
        invariant next == cursor + i <= |job.request.items| && (i <= quota || i == 0)
        invariant job.tasks == ItemTasks(job.request)[..next] && queue == Range(cursor, next)
        invariant job.Value() == old(job.Value()).(tasks := job.tasks)
        decreases quota - i
      {
        job.tasks := job.tasks + [NewTask(next, MapPhase, ItemMessages(job.request, job.request.items[next]))];
        queue := queue + [next];
        i := i + 1;
        next := next + 1;
      }
      job.queues := job.queues.Set(n, queue);
    }

    /** What rounding left over joins the first node's queue. */
    method FillTail(job: ManagedJob, n: NodeId, cursor: nat)
      requires cursor <= |job.request.items| && job.tasks == ItemTasks(job.request)[..cursor]
      modifies job
      ensures job.tasks == ItemTasks(job.request)
      ensures job.queues == old(job.queues).Set(n, QueueOf(old(job.queues), n) + Range(cursor, |job.request.items|))
      ensures job.Value() == old(job.Value()).(tasks := job.tasks, queues := job.queues)
    {
      var queue := QueueOf(job.queues, n);
      var next := cursor;
      while next < |job.request.items|
        invariant cursor <= next <= |job.request.items|
        invariant job.tasks == ItemTasks(job.request)[..next]
        invariant queue == QueueOf(old(job.queues), n) + Range(cursor, next)
        invariant job.Value() == old(job.Value()).(tasks := job.tasks)
      {
        job.tasks := job.tasks + [NewTask(next, MapPhase, ItemMessages(job.request, job.request.items[next]))];
        queue := queue + [next];
        next := next + 1;
      }
      job.queues := job.queues.Set(n, queue);
      assert ItemTasks(job.request)[..next] == ItemTasks(job.request);
    }

    method DealItems(job: ManagedJob, cluster: Scheduler.Cluster)
      requires cluster.nodeIds != [] && job.tasks == [] && job.queues == EmptyMap()
      modifies job
      ensures job.Value() == old(job.Value()).(tasks := ItemTasks(job.request),
                                               queues := DealAll(cluster, |job.request.items|))
    {
      hide Allocation.Allocate, ItemTasks, DealOne, Range;
      var nodeIds, total := cluster.nodeIds, |job.request.items|;
      var quotas := Allocation.AllocateByShare(nodeIds, cluster.shares, total);
      var cursor: nat := 0;
      for k := 0 to |nodeIds|
        invariant cursor <= total && job.tasks == ItemTasks(job.request)[..cursor]
        invariant Deal(nodeIds[k..], quotas, total, Dealt(job.queues, cursor)) ==
          Deal(nodeIds, quotas, total, Dealt(EmptyMap(), 0))
        invariant job.Value() == old(job.Value()).(tasks := job.tasks, queues := job.queues)
      {
        assert nodeIds[k..][1..] == nodeIds[k + 1..];
        cursor := FillQueue(job, nodeIds[k], quotas, cursor);
      }
      if cursor < total {
        FillTail(job, nodeIds[0], cursor);
      } else {
        assert ItemTasks(job.request)[..total] == ItemTasks(job.request);
      }
    }

    method BuildTasks(job: ManagedJob, strategy: Strategy, cluster: Scheduler.Cluster)
      requires cluster.nodeIds != [] && job.tasks == [] && job.queues == EmptyMap()
      modifies job
      ensures job.Value() == Submission.BuildTasks(old(job.Value()), strategy, cluster)
    {
      hide DealAll, ItemTasks;
      var request := job.request;
      if strategy != TaskParallel || request.kind == Chat {
        var phase := if request.kind == Chat then ChatPhase else MapPhase;
        var messages := if request.kind == Chat then request.messages
                        else ItemMessages(request, if request.items == [] then "" else request.items[0]);
        job.tasks := [NewTask(0, phase, messages)];
        job.queues := job.queues.Set(cluster.nodeIds[0], [0]);
        return;
      }
      DealItems(job, cluster);
    }

    /** Analyse, form the cluster, build the tasks; nothing is sent yet. */
    method PlanJob(job: ManagedJob)
      requires job.tasks == [] && job.queues == EmptyMap()
      modifies this`roundRobinCursor, job
      ensures At(job) == Submission.Planned(old(At(job)), old(roundRobinCursor))
      ensures roundRobinCursor == NextCursor(cfg, job.request, registry.nodes, old(roundRobinCursor))
    {
      hide Submission.BuildTasks, Scheduler.ClusterFor, Pipeline.PlanPipeline, Analyzer.AnalyzeWorkload, Scheduler.Views,
           Scheduler.EligibleNodes;
      var request := job.request;
      var views := registry.ToViews();
      var eligible := Scheduler.EligibleNodes(cfg, views, request.model, false, false);
      var analysis := Analyzer.AnalyzeWorkload(cfg, request, eligible, views);
      var cluster := Scheduler.EMPTY_CLUSTER;
      var pipeline := None;
      if analysis.strategy == ModelParallel {
        pipeline := PipelineProofs.FormPipeline(views, request.model, None, cfg.maxPipelineMembers);
        if pipeline.Some? {
          cluster := Scheduler.Cluster([pipeline.value.headNodeId], Pipeline.SharesOf(pipeline.value));
        }
      } else {
        cluster := Forming.FormCluster(request.policy, eligible, request.model, analysis.strategy == TaskParallel,
                                       analysis.unitCount, roundRobinCursor);
        roundRobinCursor := roundRobinCursor + 1;
      }
      if cluster.nodeIds == [] {
        job.status := JobFailed;
        return;
      }
      BuildTasks(job, analysis.strategy, cluster);
      job.pipeline := pipeline;
      job.status := JobRunning;
    }

    method Enrol(j: JobId, request: JobRequest) returns (job: ManagedJob)
      requires Valid()
      modifies this`jobs, this`retired, this`nextSerial
      ensures fresh(job) && job.Value() == NewJob(old(nextSerial), request)
      ensures jobs == old(jobs).Set(j, job) && nextSerial == old(nextSerial) + 1
      ensures retired == if j in old(jobs).items then old(retired) + [old(jobs.items[j].Value())] else old(retired)
    {
      job := new ManagedJob(nextSerial, request);
      nextSerial := nextSerial + 1;
      if j in jobs.items { retired := retired + [jobs.items[j].Value()]; }
      jobs := jobs.Set(j, job);
    }

    method StartJob(job: ManagedJob)
      requires job.Value() == NewJob(job.serial, job.request) && registry.nodes.Valid()
      modifies this`log, this`completedCount, this`roundRobinCursor, registry, job
      ensures At(job) == Start(old(At(job)), old(roundRobinCursor)) && Sound(At(job))
      ensures roundRobinCursor == NextCursor(cfg, job.request, old(registry.nodes), old(roundRobinCursor))
    {
      hide JobCore.Pump, Submission.Planned, NextCursor, Within;
      PlannedSound(At(job), roundRobinCursor);
      PlanJob(job);
      ghost var planned := At(job);
      PumpWithin(planned);
      Pump(job);
      WithinSound(planned, At(job));
    }

    /** A new job object has joined, and nothing has happened to the others. */
    twostate predicate Added(j: JobId, new job: ManagedJob)
      reads this, registry, jobs.items.Values
    {
      && jobs == old(jobs).Set(j, job) && job !in old(jobs).items.Values
      && now == old(now) && tokenCount == old(tokenCount)
      && (forall k :: k in old(jobs).items && k != j ==> jobs.items[k].Value() == old(jobs.items[k].Value()))
    }

    twostate lemma AddedValid(j: JobId, new job: ManagedJob)
      requires old(Valid()) && Sound(At(job)) && Added(j, job)
      ensures Valid()
    {
      hide Distinct;
      forall k | k in jobs.items && k != j
        ensures jobs.items[k] != job && jobs.items[k].queues.Valid()
      {
        assert old(jobs).items[k] in old(jobs).items.Values;
        assert jobs.items[k].Value() == old(jobs.items[k].Value());
      }
    }

    twostate lemma AddedState(j: JobId, new job: ManagedJob)
      requires Added(j, job)
      ensures State() == Put(old(State()), j, At(job)).(cursor := roundRobinCursor, nextSerial := nextSerial,
                                                        retired := retired)
    {
      assert Values() == old(Values())[j := job.Value()];
    }

    method Submit(j: JobId, request: JobRequest)
      requires Valid()
      modifies this`jobs, this`retired, this`nextSerial, this`log, this`completedCount, this`roundRobinCursor, registry
      ensures Valid() && State() == Step(old(State()), Event.Submit(j, request))
    {
      hide Start, NextCursor, Sound, State, Values, Valid, Step, Put, CtxOf;
      StateAt(j);
      SubmitShape(State(), j, request);
      StateFields();
      var job := Enrol(j, request);
      StartJob(job);
      AddedValid(j, job);
      AddedState(j, job);
    }

    lemma StateFields()
      requires Valid()
      ensures var s := State();
              && s.cfg == cfg && s.cursor == roundRobinCursor && s.nextSerial == nextSerial && s.retired == retired
              && s.nodes == registry.nodes && registry.nodes.Valid()
              && (forall j :: j in jobs.items ==> j in s.jobs.items && s.jobs.items[j] == jobs.items[j].Value())
              && (forall v: Job :: CtxOf(s, v) == Ctx(cfg, now, v, registry.nodes, log, completedCount))
    {
    }
  }
}
