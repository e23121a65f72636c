/** The invariant is kept by every operation on one job, through the re-entrant core. */
module JobSteps {
  import opened Collections
  import opened Protocol
  import opened JobCore
  import opened JobInvariants
  import opened Choices
  import Scheduler
  import Pipeline

  // ---- map outputs ----

  /** What a task contributes to the combined output. */
  ghost predicate SameContribution(a: Task, b: Task) {
    var ca := a.phase != ReducePhase && a.status == Completed;
    var cb := b.phase != ReducePhase && b.status == Completed;
    ca == cb && (ca ==> Trim(a.output) == Trim(b.output))
  }

  lemma {:induction false} MapOutputsFrame(a: seq<Task>, b: seq<Task>)
    requires |a| == |b|
    requires forall t | 0 <= t < |a| :: SameContribution(a[t], b[t])
    ensures MapOutputs(a) == MapOutputs(b)
  {
    if a != [] {
      assert SameContribution(a[0], b[0]);
      forall t | 0 <= t < |a[1..]|
        ensures SameContribution(a[1..][t], b[1..][t])
      {
        assert SameContribution(a[t + 1], b[t + 1]);
      }
      MapOutputsFrame(a[1..], b[1..]);
    }
  }

  lemma {:induction false} MapOutputsPush(a: seq<Task>, x: Task)
    requires x.phase == ReducePhase
    ensures MapOutputs(a + [x]) == MapOutputs(a)
  {
    if a == [] {
      assert ([x])[1..] == [];
    } else {
      assert (a + [x])[1..] == a[1..] + [x];
      MapOutputsPush(a[1..], x);
    }
  }

  lemma TasksFrame(max: int, a: Job, b: Job, reach: set<NodeId>)
    requires TasksOk(max, a, reach)
    requires b.tasks == a.tasks && b.reduceDispatched == a.reduceDispatched && b.status == a.status
    ensures TasksOk(max, b, reach)
  {
    forall i | 0 <= i < |b.tasks|
      ensures TaskOk(max, b, i, reach)
    {
      assert TaskOk(max, a, i, reach);
    }
  }

  // ---- one task changes ----

  /** Everything in `JobOk` but the token total. */
  ghost predicate JobOkBarTokens(max: int, job: Job, reach: set<NodeId>, loose: set<TaskId>) {
    && job.status != JobPlanning
    && Conserved(job, loose)
    && TasksOk(max, job, reach)
    && Reachable(job, reach)
    && ReduceOk(job)
    && PipelineOk(job)
    && TerminalOk(job)
  }

  ghost function LooseAfter(loose: set<TaskId>, t: TaskId, task: Task): set<TaskId> {
    if task.Waiting() then loose + {t} else loose - {t}
  }

  /** An unfinished, unqueued task may become anything its record allows. */
  lemma TaskSetOk(max: int, job: Job, t: TaskId, x: Task, reach: set<NodeId>, loose: set<TaskId>)
    requires JobOkBarTokens(max, job, reach, loose)
    requires t < |job.tasks| && (job.tasks[t].InFlight() || t in loose)
    requires x.index == t && x.phase == job.tasks[t].phase && x.messages == job.tasks[t].messages
    requires x.attempts <= max && x.status != Cancelled
    requires x.InFlight() ==> x.nodeId.Some? && x.nodeId.value in reach
    requires x.Waiting() ==> x.nodeId.None? && x.attempts < max
    ensures JobOkBarTokens(max, WithTask(job, t, x), reach, LooseAfter(loose, t, x))
  {
    hide MapOutputs, FinalOutput, Numbered, Join, Queued, Trim;
    var job' := WithTask(job, t, x);
    var loose' := LooseAfter(loose, t, x);
    assert job.Active();
    assert Conserved(job', loose');
    forall i | 0 <= i < |job'.tasks|
      ensures TaskOk(max, job', i, reach)
    {
      assert TaskOk(max, job, i, reach);
    }
    if job.reduceDispatched {
      assert TaskOk(max, job, t, reach);
      assert t == |job.tasks| - 1;
      MapOutputsFrame(job.tasks, job'.tasks);
      forall i | 0 <= i < |job'.tasks| && job'.tasks[i].phase != ReducePhase
        ensures job'.tasks[i].Finished()
      {
        assert TaskOk(max, job, i, reach);
      }
    }
  }

  /** The slots of all nodes shift exactly with one task's record. */
  lemma LoadSet(job: Job, t: TaskId, x: Task, n: NodeId)
    requires t < |job.tasks|
    ensures Load(WithTask(job, t, x), n) + HoldsSlot(n)(job.tasks[t]) == Load(job, n) + HoldsSlot(n)(x)
  {
    SumUpdate(job.tasks, t, x, HoldsSlot(n));
  }

  lemma MeasureSet(max: int, job: Job, t: TaskId, x: Task)
    requires t < |job.tasks|
    ensures Measure(max, WithTask(job, t, x)) + Weight(max)(job.tasks[t]) == Measure(max, job) + Weight(max)(x)
  {
    SumUpdate(job.tasks, t, x, Weight(max));
  }

  lemma TokensSet(job: Job, t: TaskId, x: Task)
    requires t < |job.tasks|
    ensures Sum(job.tasks[t := x], TokensOf) + TokensOf(job.tasks[t]) == Sum(job.tasks, TokensOf) + TokensOf(x)
  {
    SumUpdate(job.tasks, t, x, TokensOf);
  }

  // ---- Assign ----

  lemma AssignJobOk(c: Ctx, t: TaskId, n: NodeId, reach: set<NodeId>, loose: set<TaskId>)
    requires Inv(c, reach, loose) && t in loose && n in c.nodes.items
    ensures JobOk(c.cfg.maxTaskAttempts, Assign(c, t, n).job, reach, loose - {t})
  {
    var x := Assign(c, t, n).job.tasks[t];
    assert TaskOk(c.cfg.maxTaskAttempts, c.job, t, reach);
    TaskSetOk(c.cfg.maxTaskAttempts, c.job, t, x, reach, loose);
    TokensSet(c.job, t, x);
  }

  lemma AssignSlots(c: Ctx, t: TaskId, n: NodeId, reach: set<NodeId>, loose: set<TaskId>)
    requires Inv(c, reach, loose) && t in loose && n in c.nodes.items
    ensures Covered(Assign(c, t, n)) && SlotsFollow(c, Assign(c, t, n))
  {
    var d := Assign(c, t, n);
    forall m | m in c.nodes.items
      ensures d.nodes.items[m].activeTasks + Load(c.job, m) == c.nodes.items[m].activeTasks + Load(d.job, m)
    {
      LoadSet(c.job, t, d.job.tasks[t], m);
    }
  }

  lemma AssignLog(c: Ctx, t: TaskId, n: NodeId)
    requires LogOk(c) && t < |c.job.tasks| && n in c.nodes.items && c.nodes.items[n].Free()
    ensures LogOk(Assign(c, t, n)) && LogFollows(c, Assign(c, t, n))
  {
    var d := Assign(c, t, n);
    var a := d.log[|c.log|];
    assert d.log == c.log + [a];
    forall serial: nat, u: TaskId
      ensures TimesSent(d.log, serial, u) == TimesSent(c.log, serial, u) + Of(serial, u)(a)
    {
      SumPush(c.log, a, Of(serial, u));
    }
  }

  lemma AssignOk(c: Ctx, t: TaskId, n: NodeId, reach: set<NodeId>, loose: set<TaskId>)
    requires Inv(c, reach, loose) && t in loose && n in c.nodes.items && c.nodes.items[n].Free()
    ensures Inv(Assign(c, t, n), reach, loose - {t}) && Follows(c, Assign(c, t, n))
  {
    AssignJobOk(c, t, n, reach, loose);
    AssignSlots(c, t, n, reach, loose);
    AssignLog(c, t, n);
    assert TaskOk(c.cfg.maxTaskAttempts, c.job, t, reach);
    MeasureSet(c.cfg.maxTaskAttempts, c.job, t, Assign(c, t, n).job.tasks[t]);
  }

  // ---- Release ----

  lemma ReleaseSlots(c: Ctx, t: TaskId, status: TaskStatus, reach: set<NodeId>, loose: set<TaskId>)
    requires Inv(c, reach, loose) && t < |c.job.tasks|
    requires c.job.tasks[t].InFlight() || t in loose
    requires status == Failed || status == Reassigned
    ensures Covered(Release(c, t, status)) && SlotsFollow(c, Release(c, t, status))
  {
    var d := Release(c, t, status);
    assert TaskOk(c.cfg.maxTaskAttempts, c.job, t, reach);
    forall n | n in c.nodes.items
      ensures d.nodes.items[n].activeTasks + Load(c.job, n) == c.nodes.items[n].activeTasks + Load(d.job, n)
    {
      LoadSet(c.job, t, d.job.tasks[t], n);
    }
  }

  lemma InvTask(c: Ctx, t: TaskId, reach: set<NodeId>, loose: set<TaskId>)
    requires Inv(c, reach, loose) && t < |c.job.tasks|
    ensures TaskOk(c.cfg.maxTaskAttempts, c.job, t, reach)
    ensures t in loose ==> c.job.tasks[t].Waiting()
  {
  }

  lemma ReleaseOk(c: Ctx, t: TaskId, status: TaskStatus, reach: set<NodeId>, loose: set<TaskId>)
    requires Inv(c, reach, loose) && t < |c.job.tasks|
    requires c.job.tasks[t].InFlight() || t in loose
    requires status == Failed || (status == Reassigned && c.job.tasks[t].attempts < c.cfg.maxTaskAttempts)
    ensures Inv(Release(c, t, status), reach, LooseAfter(loose, t, Release(c, t, status).job.tasks[t]))
    ensures Follows(c, Release(c, t, status))
    ensures c.job.tasks[t].InFlight() || (status == Failed && c.job.tasks[t].Waiting()) ==>
              Measure(c.cfg.maxTaskAttempts, Release(c, t, status).job) < Measure(c.cfg.maxTaskAttempts, c.job)
  {
    hide Conserved, TasksOk, Reachable, ReduceOk, PipelineOk, TerminalOk, Sum, Covered, SlotsFollow;
    var max := c.cfg.maxTaskAttempts;
    var d := Release(c, t, status);
    var x := d.job.tasks[t];
    InvTask(c, t, reach, loose);
    TaskSetOk(max, c.job, t, x, reach, loose);
    TokensSet(c.job, t, x);
    ReleaseSlots(c, t, status, reach, loose);
    MeasureSet(max, c.job, t, x);
    FlightActive(c, t, reach, loose);
  }

  lemma FlightActive(c: Ctx, t: TaskId, reach: set<NodeId>, loose: set<TaskId>)
    requires Inv(c, reach, loose) && t < |c.job.tasks| && (c.job.tasks[t].InFlight() || t in loose)
    ensures c.job.Active()
  {
  }

  // ---- Reassign and Reform ----

  /** Whatever the chain of calls, no node ends up with more than one extra task. */
  ghost predicate GainsOne(c: Ctx, d: Ctx) {
    && d.nodes.items.Keys == c.nodes.items.Keys
    && forall n :: n in c.nodes.items ==> d.nodes.items[n].activeTasks <= c.nodes.items[n].activeTasks + 1
  }

  lemma DropCommon<T>(a: multiset<T>, b: multiset<T>, q: multiset<T>, x: multiset<T>)
    requires a + q == b + (x + q)
    ensures a == b + x
  {
    forall y
      ensures a[y] == b[y] + x[y]
    {
      assert (a + q)[y] == (b + (x + q))[y];
    }
  }

  lemma EnqueueCounts(queues: Queues, n: NodeId, t: TaskId)
    requires queues.Valid()
    ensures Queued(queues.Set(n, [t] + QueueOf(queues, n))) == Queued(queues) + multiset{t}
  {
    var q := QueueOf(queues, n);
    QueuedSet(queues, n, [t] + q);
    var mq: multiset<TaskId> := multiset(q);
    assert multiset([t] + q) == multiset{t} + mq;
    DropCommon(Queued(queues.Set(n, [t] + q)), Queued(queues), mq, multiset{t});
  }

  lemma EnqueueConserved(job: Job, t: TaskId, n: NodeId, deferred: nat, loose: set<TaskId>)
    requires Conserved(job, loose) && t in loose
    ensures Conserved(job.(queues := job.queues.Set(n, [t] + QueueOf(job.queues, n)), deferred := deferred), loose - {t})
  {
    hide Queued, QueueOf;
    EnqueueCounts(job.queues, n, t);
    var job' := job.(queues := job.queues.Set(n, [t] + QueueOf(job.queues, n)), deferred := deferred);
    forall u: TaskId
      ensures Queued(job'.queues)[u] ==
        (if u < |job'.tasks| && job'.tasks[u].Waiting() && u !in loose - {t} then 1 else 0)
    {
      assert Queued(job'.queues)[u] == Queued(job.queues)[u] + multiset{t}[u];
    }
  }

  /** A loose task goes to the head of a queue. */
  lemma EnqueueOk(c: Ctx, t: TaskId, n: NodeId, deferred: nat, reach: set<NodeId>, loose: set<TaskId>)
    requires Inv(c, reach, loose) && t in loose && n in reach
    ensures var d := c.(job := c.job.(queues := c.job.queues.Set(n, [t] + QueueOf(c.job.queues, n)), deferred := deferred));
            Inv(d, reach, loose - {t}) && Follows(c, d)
            && Measure(c.cfg.maxTaskAttempts, d.job) == Measure(c.cfg.maxTaskAttempts, c.job)
  {
    hide Conserved, TasksOk, MapOutputs, FinalOutput, TimesSent, QueueOf;
    var d := c.(job := c.job.(queues := c.job.queues.Set(n, [t] + QueueOf(c.job.queues, n)), deferred := deferred));
    EnqueueConserved(c.job, t, n, deferred, loose);
    TasksFrame(c.cfg.maxTaskAttempts, c.job, d.job, reach);
  }

  lemma ReassignOk(c: Ctx, t: TaskId, n: NodeId, reach: set<NodeId>, loose: set<TaskId>)
    requires Inv(c, reach, loose) && t < |c.job.tasks| && n in reach
    requires c.job.tasks[t].InFlight() || t in loose
    requires c.job.tasks[t].attempts < c.cfg.maxTaskAttempts
    ensures Inv(Reassign(c, t, n), reach, loose - {t}) && Follows(c, Reassign(c, t, n))
    ensures GainsOne(c, Reassign(c, t, n))
    ensures c.job.tasks[t].InFlight() ==>
              Measure(c.cfg.maxTaskAttempts, Reassign(c, t, n).job) < Measure(c.cfg.maxTaskAttempts, c.job)
  {
    hide Inv, Follows, Measure;
    var d := Release(c, t, Reassigned);
    ReleaseOk(c, t, Reassigned, reach, loose);
    EnqueueOk(d, t, n, d.job.deferred + 1, reach, loose + {t});
    assert (loose + {t}) - {t} == loose - {t};
    FollowsTrans(c, d, Reassign(c, t, n));
  }

  /** Dropping the queues of a pipeline job loses nothing: its only task is the one being
      requeued. */
  lemma ReformOk(c: Ctx, t: TaskId, plan: Pipeline.PipelinePlan, reach: set<NodeId>, loose: set<TaskId>)
    requires Inv(c, reach, loose) && t < |c.job.tasks| && c.job.pipeline.Some?
    requires c.job.tasks[t].InFlight() || t in loose
    requires c.job.tasks[t].attempts < c.cfg.maxTaskAttempts
    requires plan.headNodeId in reach
    ensures Inv(Reform(c, t, plan), reach, loose - {t}) && Follows(c, Reform(c, t, plan))
    ensures GainsOne(c, Reform(c, t, plan))
    ensures c.job.tasks[t].InFlight() ==>
              Measure(c.cfg.maxTaskAttempts, Reform(c, t, plan).job) < Measure(c.cfg.maxTaskAttempts, c.job)
  {
    hide Inv, Follows, Measure;
    var d := Release(c, t, Reassigned);
    ReleaseOk(c, t, Reassigned, reach, loose);
    HeadOk(d, t, plan, reach, loose + {t});
    OnlyTask(c, t, reach, loose);
    FollowsTrans(c, d, Reform(c, t, plan));
  }

  lemma OnlyTask(c: Ctx, t: TaskId, reach: set<NodeId>, loose: set<TaskId>)
    requires Inv(c, reach, loose) && c.job.pipeline.Some? && t < |c.job.tasks|
    ensures loose - {t} == {}
  {
  }

  lemma InvReach(c: Ctx, reach: set<NodeId>, loose: set<TaskId>)
    requires Inv(c, reach, loose)
    ensures forall n :: n in c.nodes.items ==> n in reach
  {
  }

  lemma InvStatus(c: Ctx, reach: set<NodeId>, loose: set<TaskId>)
    requires Inv(c, reach, loose)
    ensures c.job.Active() || c.job.Terminal()
    ensures Follows(c, c)
  {
  }

  lemma SingleQueue(n: NodeId, t: TaskId)
    ensures Queued(EmptyMap<NodeId, seq<TaskId>>().Set(n, [t])) == multiset{t}
  {
    var queues: Queues := EmptyMap().Set(n, [t]);
    assert queues.keys == [n] && queues.keys[1..] == [];
    assert QueueOf(queues, n) == [t];
    assert multiset([t]) == multiset{t};
    assert Queued(queues) == multiset([t]) + Gather([], queues);
  }

  lemma HeadOk(d: Ctx, t: TaskId, plan: Pipeline.PipelinePlan, reach: set<NodeId>, loose: set<TaskId>)
    requires Inv(d, reach, loose) && t in loose && d.job.pipeline.Some? && plan.headNodeId in reach
    ensures var e := d.(job := d.job.(pipeline := Some(plan),
                                      queues := EmptyMap<NodeId, seq<TaskId>>().Set(plan.headNodeId, [t]),
                                      deferred := d.job.deferred + 1));
            Inv(e, reach, {}) && Follows(d, e)
            && Measure(d.cfg.maxTaskAttempts, e.job) == Measure(d.cfg.maxTaskAttempts, d.job)
  {
    var max := d.cfg.maxTaskAttempts;
    var e := d.(job := d.job.(pipeline := Some(plan),
                              queues := EmptyMap<NodeId, seq<TaskId>>().Set(plan.headNodeId, [t]),
                              deferred := d.job.deferred + 1));
    SingleQueue(plan.headNodeId, t);
    assert Conserved(e.job, {});
    forall i | 0 <= i < |e.job.tasks|
      ensures TaskOk(max, e.job, i, reach)
    {
      assert TaskOk(max, d.job, i, reach);
    }
  }

  /** The planner only ever names a connected machine as head. */
  lemma ReplanHead(c: Ctx)
    ensures Replan(c).Some? ==> Replan(c).value.headNodeId in c.nodes.items
  {
    var views := Scheduler.Views(c.nodes);
    var candidates := Pipeline.CandidatesOf(views, None);
    var plan := Replan(c);
    if plan.Some? {
      Pipeline.HeadIsCandidate(views, c.job.request.model, None, c.cfg.maxPipelineMembers);
    }
  }

  // ---- the end of a job ----

  lemma FailJobOk(c: Ctx, reach: set<NodeId>, loose: set<TaskId>)
    requires Inv(c, reach, loose) && c.job.Active()
    requires !MapsPending(c.job.tasks) && MapOutputs(c.job.tasks) == []
    ensures Inv(FailJob(c), reach, loose) && Follows(c, FailJob(c))
  {
    var d := FailJob(c);
    forall i | 0 <= i < |d.job.tasks|
      ensures TaskOk(c.cfg.maxTaskAttempts, d.job, i, reach) && d.job.tasks[i].Finished()
    {
      assert TaskOk(c.cfg.maxTaskAttempts, c.job, i, reach);
    }
    assert Conserved(d.job, loose);
  }

  lemma CompleteJobOk(c: Ctx, reach: set<NodeId>, loose: set<TaskId>)
    requires Inv(c, reach, loose) && c.job.Active()
    requires !MapsPending(c.job.tasks) && MapOutputs(c.job.tasks) != []
    requires FindReduce(c.job.tasks).Some? ==> c.job.tasks[FindReduce(c.job.tasks).value].Finished()
    ensures Inv(CompleteJob(c), reach, loose) && Follows(c, CompleteJob(c))
  {
    hide FinalOutput, MapOutputs, Queued, QueueOf;
    var d := CompleteJob(c);
    forall i | 0 <= i < |d.job.tasks|
      ensures TaskOk(c.cfg.maxTaskAttempts, d.job, i, reach) && d.job.tasks[i].Finished()
    {
      assert TaskOk(c.cfg.maxTaskAttempts, c.job, i, reach);
      if c.job.tasks[i].phase == ReducePhase {
        var r := FindReduce(c.job.tasks).value;
        assert TaskOk(c.cfg.maxTaskAttempts, c.job, r, reach);
      }
    }
    assert Conserved(d.job, loose);
  }

  lemma AllFinished(c: Ctx, reach: set<NodeId>, loose: set<TaskId>)
    requires Inv(c, reach, loose) && !MapsPending(c.job.tasks) && !c.job.reduceDispatched
    ensures forall i | 0 <= i < |c.job.tasks| :: c.job.tasks[i].Finished() && c.job.tasks[i].phase != ReducePhase
    ensures loose == {}
  {
    forall i | 0 <= i < |c.job.tasks|
      ensures c.job.tasks[i].Finished() && c.job.tasks[i].phase != ReducePhase
    {
      assert TaskOk(c.cfg.maxTaskAttempts, c.job, i, reach);
    }
    assert forall t | t in loose :: false;
  }

  lemma StartReduceTasksOk(c: Ctx, reach: set<NodeId>)
    requires TasksOk(c.cfg.maxTaskAttempts, c.job, reach) && c.job.Active() && c.cfg.maxTaskAttempts >= 1
    requires forall i | 0 <= i < |c.job.tasks| :: c.job.tasks[i].phase != ReducePhase
    ensures TasksOk(c.cfg.maxTaskAttempts, StartReduce(c).job, reach)
  {
    var max := c.cfg.maxTaskAttempts;
    var d := StartReduce(c);
    forall i | 0 <= i < |d.job.tasks|
      ensures TaskOk(max, d.job, i, reach)
    {
      if i < |c.job.tasks| {
        assert TaskOk(max, c.job, i, reach);
      }
    }
  }

  lemma StartReduceQueuesOk(c: Ctx)
    requires Conserved(c.job, {})
    ensures Conserved(StartReduce(c).job, {|c.job.tasks|})
  {
    hide MapOutputs, ReducePrompt, Queued;
  }

  lemma StartReducePromptOk(c: Ctx)
    requires WantsReduce(c.job) && c.job.Active()
    requires forall i | 0 <= i < |c.job.tasks| :: c.job.tasks[i].Finished()
    ensures ReduceOk(StartReduce(c).job)
  {
    hide MapOutputs, Trim, Join, Numbered;
    var d := StartReduce(c);
    MapOutputsPush(c.job.tasks, d.job.tasks[|c.job.tasks|]);
    forall i | 0 <= i < |d.job.tasks| && d.job.tasks[i].phase != ReducePhase
      ensures d.job.tasks[i].Finished()
    {
      assert d.job.tasks[i] == c.job.tasks[i];
    }
  }

  lemma StartReduceJobOk(c: Ctx, reach: set<NodeId>, loose: set<TaskId>)
    requires Inv(c, reach, loose) && c.job.Active() && c.cfg.maxTaskAttempts >= 1
    requires !MapsPending(c.job.tasks) && WantsReduce(c.job) && !c.job.reduceDispatched
    ensures loose == {}
    ensures JobOk(c.cfg.maxTaskAttempts, StartReduce(c).job, reach, {|c.job.tasks|})
  {
    hide TasksOk, Conserved, ReduceOk, MapOutputs, ReducePrompt;
    var d := StartReduce(c);
    AllFinished(c, reach, loose);
    StartReduceTasksOk(c, reach);
    StartReduceQueuesOk(c);
    StartReducePromptOk(c);
    SumPush(c.job.tasks, d.job.tasks[|c.job.tasks|], TokensOf);
  }

  lemma StartReduceOk(c: Ctx, reach: set<NodeId>, loose: set<TaskId>)
    requires Inv(c, reach, loose) && c.job.Active() && c.cfg.maxTaskAttempts >= 1
    requires !MapsPending(c.job.tasks) && WantsReduce(c.job) && !c.job.reduceDispatched
    ensures loose == {}
    ensures Inv(StartReduce(c), reach, {|c.job.tasks|}) && Follows(c, StartReduce(c))
    ensures StartReduce(c).nodes == c.nodes
  {
    var d := StartReduce(c);
    var x := d.job.tasks[|c.job.tasks|];
    StartReduceJobOk(c, reach, loose);
    forall n
      ensures Load(d.job, n) == Load(c.job, n)
    {
      SumPush(c.job.tasks, x, HoldsSlot(n));
    }
    SumPush(c.job.tasks, x, Weight(c.cfg.maxTaskAttempts));
    assert LogOk(d);
  }

  // ---- the re-entrant core ----

  lemma {:induction false} DispatchOk(c: Ctx, t: TaskId, n: NodeId, reach: set<NodeId>, loose: set<TaskId>)
    requires Inv(c, reach, loose) && t in loose && c.cfg.maxTaskAttempts >= 1
    requires n in c.nodes.items ==> c.nodes.items[n].Free()
    ensures Inv(Dispatch(c, t, n), reach, loose - {t}) && Follows(c, Dispatch(c, t, n))
    ensures GainsOne(c, Dispatch(c, t, n))
    decreases ReduceBudget(c.job), 2
  {
    if n in c.nodes.items && c.nodes.items[n].socketOpen {
      AssignOk(c, t, n, reach, loose);
    } else {
      RequeueOk(c, t, reach, loose);
    }
  }

  lemma ReleaseGains(c: Ctx, t: TaskId, e: Ctx)
    requires t < |c.job.tasks| && GainsOne(Release(c, t, Failed), e)
    ensures GainsOne(c, e)
  {
  }

  lemma {:induction false} GiveUpOk(c: Ctx, t: TaskId, reach: set<NodeId>, loose: set<TaskId>)
    requires Inv(c, reach, loose) && t < |c.job.tasks| && c.cfg.maxTaskAttempts >= 1
    requires c.job.tasks[t].InFlight() || t in loose
    ensures Inv(MaybeFinish(Release(c, t, Failed)), reach, loose - {t})
    ensures Follows(c, MaybeFinish(Release(c, t, Failed))) && GainsOne(c, MaybeFinish(Release(c, t, Failed)))
    ensures Measure(c.cfg.maxTaskAttempts, MaybeFinish(Release(c, t, Failed)).job) < Measure(c.cfg.maxTaskAttempts, c.job)
    decreases ReduceBudget(c.job), 0, 1
  {
    hide MaybeFinish, Inv, Follows, Measure, GainsOne;
    var d := Release(c, t, Failed);
    InvTask(c, t, reach, loose);
    ReleaseOk(c, t, Failed, reach, loose);
    MaybeFinishOk(d, reach, loose - {t});
    FollowsTrans(c, d, MaybeFinish(d));
    ReleaseGains(c, t, MaybeFinish(d));
    MeasureFalls(d, MaybeFinish(d));
  }

  lemma MeasureFalls(c: Ctx, d: Ctx)
    requires Follows(c, d)
    ensures Measure(c.cfg.maxTaskAttempts, d.job) <= Measure(c.cfg.maxTaskAttempts, c.job)
  {
  }

  lemma {:induction false} RequeueOk(c: Ctx, t: TaskId, reach: set<NodeId>, loose: set<TaskId>)
    requires Inv(c, reach, loose) && t < |c.job.tasks| && c.cfg.maxTaskAttempts >= 1
    requires c.job.tasks[t].InFlight() || t in loose
    ensures Inv(Requeue(c, t), reach, loose - {t}) && Follows(c, Requeue(c, t))
    ensures GainsOne(c, Requeue(c, t))
    ensures c.job.tasks[t].InFlight() ==>
              Measure(c.cfg.maxTaskAttempts, Requeue(c, t).job) < Measure(c.cfg.maxTaskAttempts, c.job)
    decreases ReduceBudget(c.job), 1
  {
    hide MaybeFinish, Inv, Follows, Measure, GainsOne, Reassign, Reform;
    InvReach(c, reach, loose);
    var freed := Release(c, t, c.job.tasks[t].status);
    assert freed.nodes.items.Keys == c.nodes.items.Keys;
    if c.job.tasks[t].attempts >= c.cfg.maxTaskAttempts {
      GiveUpOk(c, t, reach, loose);
    } else if c.job.pipeline.Some? {
      ReplanHead(freed);
      if Replan(freed).None? {
        GiveUpOk(c, t, reach, loose);
      } else {
        ReformOk(c, t, Replan(freed).value, reach, loose);
      }
    } else {
      var target := RequeueTarget(c.cfg, freed.nodes, c.job.request.model, c.job.tasks[t].triedNodes);
      if target.None? {
        GiveUpOk(c, t, reach, loose);
      } else {
        ReassignOk(c, t, target.value, reach, loose);
      }
    }
  }

  lemma {:induction false} MaybeFinishOk(c: Ctx, reach: set<NodeId>, loose: set<TaskId>)
    requires Inv(c, reach, loose) && c.cfg.maxTaskAttempts >= 1
    ensures Inv(MaybeFinish(c), reach, loose) && Follows(c, MaybeFinish(c))
    ensures GainsOne(c, MaybeFinish(c))
    decreases ReduceBudget(c.job), 0, 0
  {
    hide Dispatch, Inv, Follows, Measure, MapOutputs, WantsReduce;
    InvStatus(c, reach, loose);
    if c.job.Terminal() || MapsPending(c.job.tasks) {
    } else if MapOutputs(c.job.tasks) == [] {
      FailJobOk(c, reach, loose);
    } else {
      var reducer := Scheduler.PickReduceNode(c.cfg, Scheduler.Views(c.nodes), c.job.request.model);
      if WantsReduce(c.job) && !c.job.reduceDispatched && reducer.Some? {
        var d := StartReduce(c);
        StartReduceOk(c, reach, loose);
        DispatchOk(d, |c.job.tasks|, reducer.value.nodeId, reach, {|c.job.tasks|});
        assert {|c.job.tasks|} - {|c.job.tasks|} == loose;
        FollowsTrans(c, d, MaybeFinish(c));
      } else if FindReduce(c.job.tasks).Some? && !c.job.tasks[FindReduce(c.job.tasks).value].Finished() {
      } else {
        CompleteJobOk(c, reach, loose);
      }
    }
  }
}
