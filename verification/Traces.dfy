/** The record of sends and what the tasks remember of it: whom a task was sent to, where
    it is, since when, and what nobody but its workers may change about it. */
module Traces {
  import opened Collections
  import opened Protocol
  import opened JobCore
  import Pipeline
  import Scheduler

  // ---- what the record says ----

  predicate About(a: Assignment, serial: nat, t: TaskId) {
    a.serial == serial && a.task == t
  }

  ghost predicate SentTo(log: seq<Assignment>, serial: nat, t: TaskId, n: NodeId) {
    exists i :: 0 <= i < |log| && About(log[i], serial, t) && log[i].nodeId == n
  }

  /** The i-th send is the latest of that task. */
  ghost predicate IsLatest(log: seq<Assignment>, serial: nat, t: TaskId, i: nat) {
    && i < |log| && About(log[i], serial, t)
    && forall k | i < k < |log| :: !About(log[k], serial, t)
  }

  /** A task in flight is where it was last sent, since then. */
  ghost predicate OutAt(log: seq<Assignment>, serial: nat, t: TaskId, task: Task) {
    exists i :: 0 <= i < |log| && IsLatest(log, serial, t, i)
                && task.nodeId == Some(log[i].nodeId) && task.assignedAtMs == Some(log[i].at)
  }

  function Tried(job: Job, t: TaskId): set<NodeId> {
    if t < |job.tasks| then job.tasks[t].triedNodes else {}
  }

  ghost predicate Traced(c: Ctx) {
    && (forall t: TaskId, n: NodeId :: n in Tried(c.job, t) <==> SentTo(c.log, c.job.serial, t, n))
    && (forall t | 0 <= t < |c.job.tasks| && c.job.tasks[t].InFlight() ::
          OutAt(c.log, c.job.serial, t, c.job.tasks[t]))
  }

  // ---- what a step may do ----

  /** A send made at c: to a connected node, with what its governor reported, now. */
  ghost predicate SendOf(c: Ctx, a: Assignment) {
    && a.serial == c.job.serial
    && a.nodeId in c.nodes.items
    && a.allowed == c.nodes.items[a.nodeId].governor.maxConcurrentTasks
    && a.at == c.now
  }

  ghost predicate SameGovernors(c: Ctx, d: Ctx) {
    && d.nodes.items.Keys == c.nodes.items.Keys
    && forall n :: n in c.nodes.items ==> d.nodes.items[n].governor == c.nodes.items[n].governor
  }

  /** The record only grows, by sends of this job. */
  ghost predicate LogCarries(c: Ctx, d: Ctx) {
    && d.cfg == c.cfg && d.now == c.now && d.job.serial == c.job.serial && d.job.request == c.job.request
    && |c.log| <= |d.log| && d.log[..|c.log|] == c.log
    && (forall i | |c.log| <= i < |d.log| :: SendOf(c, d.log[i]))
    && SameGovernors(c, d)
  }

  predicate SameText(a: Task, b: Task) {
    b.phase == a.phase && b.messages == a.messages && b.output == a.output
  }

  /** No task changes its question or its answer; at most a reduce is added, unanswered. */
  ghost predicate TextCarries(a: Job, b: Job) {
    && |a.tasks| <= |b.tasks|
    && (forall t | 0 <= t < |a.tasks| :: SameText(a.tasks[t], b.tasks[t]))
    && (forall t | |a.tasks| <= t < |b.tasks| :: b.tasks[t].output == "" && b.tasks[t].phase == ReducePhase)
  }

  ghost predicate Carries(c: Ctx, d: Ctx) {
    LogCarries(c, d) && TextCarries(c.job, d.job)
  }

  lemma LogCarriesTrans(a: Ctx, b: Ctx, c: Ctx)
    requires LogCarries(a, b) && LogCarries(b, c)
    ensures LogCarries(a, c)
  {
    assert c.log[..|a.log|] == c.log[..|b.log|][..|a.log|];
    forall i | |a.log| <= i < |c.log|
      ensures SendOf(a, c.log[i])
    {
      if i < |b.log| {
        assert c.log[i] == c.log[..|b.log|][i];
        assert SendOf(a, b.log[i]);
      } else {
        assert SendOf(b, c.log[i]);
      }
    }
  }

  lemma TextCarriesTrans(a: Job, b: Job, c: Job)
    requires TextCarries(a, b) && TextCarries(b, c)
    ensures TextCarries(a, c)
  {
    forall t | 0 <= t < |c.tasks|
      ensures t < |a.tasks| ==> SameText(a.tasks[t], c.tasks[t])
      ensures t >= |a.tasks| ==> c.tasks[t].output == "" && c.tasks[t].phase == ReducePhase
    {
      if t < |b.tasks| { assert SameText(b.tasks[t], c.tasks[t]); }
      if t < |a.tasks| { assert SameText(a.tasks[t], b.tasks[t]); }
    }
  }

  lemma CarriesTrans(a: Ctx, b: Ctx, c: Ctx)
    requires Carries(a, b) && Carries(b, c)
    ensures Carries(a, c)
  {
    hide LogCarries, TextCarries;
    LogCarriesTrans(a, b, c);
    TextCarriesTrans(a.job, b.job, c.job);
  }

  lemma CarriesSelf(c: Ctx)
    ensures Carries(c, c)
  {
  }

  // ---- single updates ----

  /** Nothing the record is about changes. */
  lemma StillTraced(c: Ctx, d: Ctx)
    requires Traced(c) && d.log == c.log && d.cfg == c.cfg && d.now == c.now && SameGovernors(c, d)
    requires d.job.serial == c.job.serial && d.job.request == c.job.request && d.job.tasks == c.job.tasks
    ensures Traced(d) && Carries(c, d)
  {
    hide SentTo, OutAt;
    assert d.log[..|c.log|] == c.log;
    assert forall t: TaskId :: Tried(d.job, t) == Tried(c.job, t);
  }

  /** One task's record changes, but not whom it was sent to. */
  lemma TaskTraced(c: Ctx, t: TaskId, x: Task, nodes: Nodes)
    requires Traced(c) && t < |c.job.tasks| && x.triedNodes == c.job.tasks[t].triedNodes
    requires x.InFlight() ==> c.job.tasks[t].InFlight() && x.nodeId == c.job.tasks[t].nodeId
                              && x.assignedAtMs == c.job.tasks[t].assignedAtMs
    requires SameGovernors(c, c.(nodes := nodes))
    ensures var d := c.(job := WithTask(c.job, t, x), nodes := nodes); Traced(d) && LogCarries(c, d)
  {
    hide SentTo;
    var d := c.(job := WithTask(c.job, t, x), nodes := nodes);
    assert d.log[..|c.log|] == c.log;
    assert forall u: TaskId :: Tried(d.job, u) == Tried(c.job, u);
    forall u | 0 <= u < |d.job.tasks| && d.job.tasks[u].InFlight()
      ensures OutAt(d.log, d.job.serial, u, d.job.tasks[u])
    {
      assert OutAt(c.log, c.job.serial, u, c.job.tasks[u]);
    }
  }

  lemma FreedGovernors(c: Ctx, n: Option<NodeId>)
    ensures SameGovernors(c, c.(nodes := FreeSlot(c.nodes, n)))
  {
  }

  lemma ReleaseTraces(c: Ctx, t: TaskId, status: TaskStatus)
    requires Traced(c) && t < |c.job.tasks| && (status == Failed || status == Reassigned)
    ensures Traced(Release(c, t, status)) && Carries(c, Release(c, t, status))
  {
    hide Traced, LogCarries, FreeSlot;
    var task := c.job.tasks[t];
    FreedGovernors(c, task.nodeId);
    TaskTraced(c, t, task.(status := status, nodeId := None, assignedAtMs := None), FreeSlot(c.nodes, task.nodeId));
  }

  lemma AssignSentTo(log: seq<Assignment>, a: Assignment, serial: nat, t: TaskId, n: NodeId)
    ensures SentTo(log + [a], serial, t, n) <==> SentTo(log, serial, t, n) || (About(a, serial, t) && a.nodeId == n)
  {
    var log' := log + [a];
    if SentTo(log, serial, t, n) {
      var i :| 0 <= i < |log| && About(log[i], serial, t) && log[i].nodeId == n;
      assert About(log'[i], serial, t);
    }
    assert log'[|log|] == a;
  }

  lemma AssignOutAt(log: seq<Assignment>, a: Assignment, serial: nat, t: TaskId, task: Task)
    requires OutAt(log, serial, t, task) && !About(a, serial, t)
    ensures OutAt(log + [a], serial, t, task)
  {
    var i :| 0 <= i < |log| && IsLatest(log, serial, t, i)
             && task.nodeId == Some(log[i].nodeId) && task.assignedAtMs == Some(log[i].at);
    assert IsLatest(log + [a], serial, t, i);
  }

  lemma AssignTraces(c: Ctx, t: TaskId, n: NodeId)
    requires Traced(c) && t < |c.job.tasks| && n in c.nodes.items
    ensures Traced(Assign(c, t, n)) && Carries(c, Assign(c, t, n))
  {
    hide SentTo;
    var d := Assign(c, t, n);
    var a := d.log[|c.log|];
    assert d.log == c.log + [a] && d.log[..|c.log|] == c.log;
    forall u: TaskId, m: NodeId
      ensures m in Tried(d.job, u) <==> SentTo(d.log, d.job.serial, u, m)
    {
      AssignSentTo(c.log, a, c.job.serial, u, m);
      assert m in Tried(c.job, u) <==> SentTo(c.log, c.job.serial, u, m);
    }
    forall u | 0 <= u < |d.job.tasks| && d.job.tasks[u].InFlight()
      ensures OutAt(d.log, d.job.serial, u, d.job.tasks[u])
    {
      if u == t {
        assert IsLatest(d.log, d.job.serial, u, |c.log|);
      } else {
        AssignOutAt(c.log, a, c.job.serial, u, c.job.tasks[u]);
      }
    }
  }

  lemma StartReduceTraces(c: Ctx)
    requires Traced(c)
    ensures Traced(StartReduce(c)) && Carries(c, StartReduce(c))
  {
    hide SentTo, OutAt, ReducePrompt;
    var d := StartReduce(c);
    assert d.log[..|c.log|] == c.log;
    assert forall t: TaskId :: Tried(d.job, t) == Tried(c.job, t);
  }

  // ---- the re-entrant core ----

  lemma {:induction false} DispatchTraces(c: Ctx, t: TaskId, n: NodeId)
    requires Traced(c)
    ensures Traced(Dispatch(c, t, n)) && Carries(c, Dispatch(c, t, n))
    decreases ReduceBudget(c.job), 2
  {
    hide Traced, Carries, Assign, Requeue;
    CarriesSelf(c);
    if t < |c.job.tasks| {
      if n in c.nodes.items && c.nodes.items[n].socketOpen { AssignTraces(c, t, n); } else { RequeueTraces(c, t); }
    }
  }

  lemma ReassignTraces(c: Ctx, t: TaskId, n: NodeId)
    requires Traced(c) && t < |c.job.tasks|
    ensures Traced(Reassign(c, t, n)) && Carries(c, Reassign(c, t, n))
  {
    hide Traced, Carries, Release;
    ReleaseTraces(c, t, Reassigned);
    StillTraced(Release(c, t, Reassigned), Reassign(c, t, n));
    CarriesTrans(c, Release(c, t, Reassigned), Reassign(c, t, n));
  }

  lemma {:induction false} RequeueTraces(c: Ctx, t: TaskId)
    requires Traced(c) && t < |c.job.tasks|
    ensures Traced(Requeue(c, t)) && Carries(c, Requeue(c, t))
    decreases ReduceBudget(c.job), 1
  {
    hide Traced, Carries, MaybeFinish, Reassign, Reform, RequeueTarget, Replan, FreeSlot;
    var freed := Release(c, t, c.job.tasks[t].status);
    if c.job.tasks[t].attempts >= c.cfg.maxTaskAttempts {
      GiveUpTraces(c, t);
    } else if c.job.pipeline.Some? {
      if Replan(freed).None? { GiveUpTraces(c, t); } else { ReformTraces(c, t, Replan(freed).value); }
    } else {
      var target := RequeueTarget(c.cfg, freed.nodes, c.job.request.model, c.job.tasks[t].triedNodes);
      if target.None? { GiveUpTraces(c, t); } else { ReassignTraces(c, t, target.value); }
    }
  }

  lemma ReformTraces(c: Ctx, t: TaskId, plan: Pipeline.PipelinePlan)
    requires Traced(c) && t < |c.job.tasks|
    ensures Traced(Reform(c, t, plan)) && Carries(c, Reform(c, t, plan))
  {
    hide Traced, Carries, Release;
    ReleaseTraces(c, t, Reassigned);
    StillTraced(Release(c, t, Reassigned), Reform(c, t, plan));
    CarriesTrans(c, Release(c, t, Reassigned), Reform(c, t, plan));
  }

  lemma {:induction false} GiveUpTraces(c: Ctx, t: TaskId)
    requires Traced(c) && t < |c.job.tasks|
    ensures var d := MaybeFinish(Release(c, t, Failed)); Traced(d) && Carries(c, d)
    decreases ReduceBudget(c.job), 0, 1
  {
    hide Traced, Carries, MaybeFinish;
    var d := Release(c, t, Failed);
    ReleaseTraces(c, t, Failed);
    FinishTraces(d);
    CarriesTrans(c, d, MaybeFinish(d));
  }

  lemma {:induction false} FinishTraces(c: Ctx)
    requires Traced(c)
    ensures Traced(MaybeFinish(c)) && Carries(c, MaybeFinish(c))
    decreases ReduceBudget(c.job), 0, 0
  {
    hide Traced, Carries, Dispatch, MapOutputs, FinalOutput, WantsReduce, ReducePrompt, FindReduce, MapsPending,
         Scheduler.PickReduceNode, Scheduler.Views;
    CarriesSelf(c);
    StillTraced(c, FailJob(c));
    StillTraced(c, CompleteJob(c));
    if !c.job.reduceDispatched {
      var reducer := Scheduler.PickReduceNode(c.cfg, Scheduler.Views(c.nodes), c.job.request.model);
      if reducer.Some? {
        var d := StartReduce(c);
        StartReduceTraces(c);
        DispatchTraces(d, |c.job.tasks|, reducer.value.nodeId);
        CarriesTrans(c, d, Dispatch(d, |c.job.tasks|, reducer.value.nodeId));
      }
    }
  }

  // ---- pumping ----

  lemma {:induction false} DrainTraces(c: Ctx, n: NodeId, slots: int)
    requires Traced(c)
    ensures Traced(Drain(c, n, slots)) && Carries(c, Drain(c, n, slots))
    decreases slots
  {
    hide Traced, Carries, Dispatch;
    CarriesSelf(c);
    if slots > 0 && QueueOf(c.job.queues, n) != [] {
      var t, s := QueueOf(c.job.queues, n)[0], Shift(c, n);
      var d := Dispatch(s, t, n);
      StillTraced(c, s);
      DispatchTraces(s, t, n);
      CarriesTrans(c, s, d);
      DrainTraces(d, n, slots - 1);
      if !Cleared(s, d) { CarriesTrans(c, d, Drain(d, n, slots - 1)); }
    }
  }

  lemma VisitTraces(c: Ctx, k: nat)
    requires Traced(c) && k < |c.job.queues.keys|
    ensures Traced(VisitQueue(c, k)) && Carries(c, VisitQueue(c, k))
  {
    hide Traced, Carries, Drain;
    CarriesSelf(c);
    var n := c.job.queues.keys[k];
    if n in c.nodes.items { DrainTraces(c, n, FreeSlots(c.nodes.items[n])); }
  }

  lemma {:induction false} DrainAllTraces(c: Ctx, k: nat, visits: nat, rebuilt: bool)
    requires Traced(c)
    ensures Traced(DrainAll(c, k, visits, rebuilt)) && Carries(c, DrainAll(c, k, visits, rebuilt))
    decreases if rebuilt then 0 else 1, visits
  {
    hide Traced, Carries, VisitQueue, Cleared;
    CarriesSelf(c);
    if visits > 0 && k < |c.job.queues.keys| {
      var d := VisitQueue(c, k);
      VisitTraces(c, k);
      if !Cleared(c, d) {
        DrainAllTraces(d, k + 1, visits - 1, rebuilt);
        CarriesTrans(c, d, DrainAll(d, k + 1, visits - 1, rebuilt));
      } else if !rebuilt {
        DrainAllTraces(d, 0, Visits(d), true);
        CarriesTrans(c, d, DrainAll(d, 0, Visits(d), true));
      }
    }
  }

  lemma {:induction false} StealTraces(c: Ctx, rounds: nat)
    requires Traced(c)
    ensures Traced(Steal(c, rounds)) && Carries(c, Steal(c, rounds))
    decreases rounds
  {
    hide Traced, Carries, Dispatch, FirstIdle, Donor;
    CarriesSelf(c);
    if rounds > 0 && CanSteal(c) {
      var donor := Donor(c.job.queues).value;
      var q := QueueOf(c.job.queues, donor);
      var p, d := Pop(c, donor), StealOnce(c);
      StillTraced(c, p);
      DispatchTraces(p, q[|q| - 1], FirstIdle(c, 0).value);
      CarriesTrans(c, p, d);
      StealTraces(d, rounds - 1);
      CarriesTrans(c, d, Steal(d, rounds - 1));
    }
  }

  lemma PumpTraces(c: Ctx)
    requires Traced(c)
    ensures Traced(Pump(c)) && Carries(c, Pump(c))
  {
    hide Traced, Carries, DrainAll, Steal, MaybeFinish;
    CarriesSelf(c);
    if c.job.Active() {
      var d := DrainAll(c, 0, Visits(c), false);
      var e := Steal(d, STEAL_ROUNDS);
      DrainAllTraces(c, 0, Visits(c), false);
      StealTraces(d, STEAL_ROUNDS);
      FinishTraces(e);
      CarriesTrans(c, d, e);
      CarriesTrans(c, e, MaybeFinish(e));
    }
  }

  // ---- events ----

  lemma DeferredTraces(c: Ctx)
    requires Traced(c)
    ensures Traced(DeferredPump(c)) && Carries(c, DeferredPump(c))
  {
    hide Traced, Carries, Pump;
    CarriesSelf(c);
    if c.job.deferred > 0 {
      var d := c.(job := c.job.(deferred := c.job.deferred - 1));
      StillTraced(c, d);
      PumpTraces(d);
      CarriesTrans(c, d, Pump(d));
    }
  }

  lemma NotedTraces(c: Ctx, sender: NodeId)
    requires Traced(c)
    ensures var d := c.(nodes := NoteFailure(c.nodes, sender)); Traced(d) && Carries(c, d)
  {
    hide Traced, Carries;
    StillTraced(c, c.(nodes := NoteFailure(c.nodes, sender)));
  }

  lemma DeclinedTraces(c: Ctx, t: TaskId)
    requires Traced(c)
    ensures Traced(Declined(c, t)) && Carries(c, Declined(c, t))
  {
    hide Traced, Carries, Requeue;
    CarriesSelf(c);
    if t < |c.job.tasks| { RequeueTraces(c, t); }
  }

  lemma FailedTraces(c: Ctx, t: TaskId, sender: NodeId)
    requires Traced(c)
    ensures Traced(JobCore.TaskFailed(c, t, sender)) && Carries(c, JobCore.TaskFailed(c, t, sender))
  {
    hide Traced, Carries, Declined, NoteFailure;
    var d := c.(nodes := NoteFailure(c.nodes, sender));
    NotedTraces(c, sender);
    DeclinedTraces(c, t);
    DeclinedTraces(d, t);
    CarriesTrans(c, d, Declined(d, t));
  }

  lemma {:induction false} EachTraces(c: Ctx, ids: seq<TaskId>)
    requires Traced(c)
    ensures Traced(RequeueEach(c, ids)) && Carries(c, RequeueEach(c, ids))
    decreases |ids|
  {
    hide Traced, Carries, Requeue;
    CarriesSelf(c);
    if ids != [] {
      if ids[0] < |c.job.tasks| {
        var d := Requeue(c, ids[0]);
        RequeueTraces(c, ids[0]);
        EachTraces(d, ids[1..]);
        CarriesTrans(c, d, RequeueEach(d, ids[1..]));
      } else {
        EachTraces(c, ids[1..]);
      }
    }
  }

  lemma {:induction false} HeldTraces(c: Ctx, n: NodeId, t: nat)
    requires Traced(c)
    ensures Traced(RequeueHeld(c, n, t)) && Carries(c, RequeueHeld(c, n, t))
    decreases ReduceBudget(c.job), |c.job.tasks| - t
  {
    hide Traced, Carries, Requeue;
    CarriesSelf(c);
    if t < |c.job.tasks| {
      if c.job.tasks[t].On(n) {
        var d := Requeue(c, t);
        RequeueTraces(c, t);
        HeldTraces(d, n, t + 1);
        CarriesTrans(c, d, RequeueHeld(d, n, t + 1));
      } else {
        HeldTraces(c, n, t + 1);
      }
    }
  }

  lemma MoveTraces(c: Ctx, n: NodeId)
    requires Traced(c)
    ensures Traced(MoveQueue(c, n)) && Carries(c, MoveQueue(c, n))
  {
    hide Traced, Carries, RequeueEach;
    var q := QueueOf(c.job.queues, n);
    var d := c.(job := c.job.(queues := c.job.queues.Delete(n)));
    StillTraced(c, d);
    EachTraces(d, q);
    CarriesTrans(c, d, RequeueEach(d, q));
    if d.job.queues.keys != [] && q != [] { StillTraced(c, MoveQueue(c, n)); }
  }

  lemma LossTraces(c: Ctx, n: NodeId)
    requires Traced(c)
    ensures Traced(NodeLost(c, n)) && Carries(c, NodeLost(c, n))
  {
    hide Traced, Carries, MoveQueue, RequeueHeld, Pump;
    CarriesSelf(c);
    var d := MoveQueue(c, n);
    var e := RequeueHeld(d, n, 0);
    MoveTraces(c, n);
    HeldTraces(d, n, 0);
    PumpTraces(e);
    CarriesTrans(c, d, e);
    CarriesTrans(c, e, Pump(e));
  }

  lemma {:induction false} SweepTraces(c: Ctx, t: nat)
    requires Traced(c)
    ensures Traced(SweepFrom(c, t)) && Carries(c, SweepFrom(c, t))
    decreases ReduceBudget(c.job), |c.job.tasks| - t
  {
    hide Traced, Carries, Requeue;
    CarriesSelf(c);
    if t < |c.job.tasks| {
      if Expired(c, c.job.tasks[t]) {
        var d := Requeue(c, t);
        RequeueTraces(c, t);
        SweepTraces(d, t + 1);
        CarriesTrans(c, d, SweepFrom(d, t + 1));
      } else {
        SweepTraces(c, t + 1);
      }
    }
  }

  lemma {:induction false} CancelFromTraces(c: Ctx, t: nat)
    requires Traced(c)
    ensures Traced(CancelFrom(c, t)) && Carries(c, CancelFrom(c, t))
    decreases |c.job.tasks| - t
  {
    hide Traced, Carries, FreeSlot;
    CarriesSelf(c);
    if t < |c.job.tasks| {
      var task := c.job.tasks[t];
      var nodes := if task.InFlight() then FreeSlot(c.nodes, task.nodeId) else c.nodes;
      var job := if task.status != Completed then WithTask(c.job, t, task.(status := Cancelled)) else c.job;
      CancelOneTraces(c, t);
      CancelFromTraces(c.(job := job, nodes := nodes), t + 1);
      CarriesTrans(c, c.(job := job, nodes := nodes), CancelFrom(c.(job := job, nodes := nodes), t + 1));
    }
  }

  lemma CancelOneTraces(c: Ctx, t: TaskId)
    requires Traced(c) && t < |c.job.tasks|
    ensures var task := c.job.tasks[t];
            var nodes := if task.InFlight() then FreeSlot(c.nodes, task.nodeId) else c.nodes;
            var job := if task.status != Completed then WithTask(c.job, t, task.(status := Cancelled)) else c.job;
            Traced(c.(job := job, nodes := nodes)) && Carries(c, c.(job := job, nodes := nodes))
  {
    hide Traced, LogCarries, FreeSlot;
    var task := c.job.tasks[t];
    var nodes := if task.InFlight() then FreeSlot(c.nodes, task.nodeId) else c.nodes;
    FreedGovernors(c, task.nodeId);
    TaskTraced(c, t, task.(status := Cancelled), nodes);
    StillTraced(c, c.(nodes := nodes));
  }

  lemma CancelTraces(c: Ctx)
    requires Traced(c)
    ensures Traced(Cancel(c)) && Carries(c, Cancel(c))
  {
    hide Traced, Carries, CancelFrom;
    CarriesSelf(c);
    var d := c.(job := c.job.(status := JobCancelled));
    StillTraced(c, d);
    CancelFromTraces(d, 0);
    CarriesTrans(c, d, CancelFrom(d, 0));
    if !(c.job.status == JobCompleted || c.job.status == JobFailed) {
      StillTraced(CancelFrom(d, 0), Cancel(c));
      CarriesTrans(c, CancelFrom(d, 0), Cancel(c));
    }
  }

  // ---- answers: the text of one task changes ----

  lemma AcceptedTraces(c: Ctx, t: TaskId)
    requires Traced(c) && t < |c.job.tasks| && c.job.tasks[t].InFlight()
    ensures Traced(Accepted(c, t)) && Carries(c, Accepted(c, t))
  {
    hide Traced, LogCarries;
    TaskTraced(c, t, c.job.tasks[t].(status := Running), c.nodes);
  }

  lemma TokenTraces(c: Ctx, t: TaskId, token: string)
    requires Traced(c) && t < |c.job.tasks| && c.job.tasks[t].InFlight()
    ensures Traced(Token(c, t, token)) && LogCarries(c, Token(c, t, token))
  {
    hide Traced, LogCarries;
    TaskTraced(c, t, c.job.tasks[t].(output := c.job.tasks[t].output + token), c.nodes);
  }

  lemma RecordTraces(c: Ctx, t: TaskId, sender: NodeId, output: string, metrics: TaskMetrics)
    requires Traced(c) && t < |c.job.tasks|
    ensures var d := Record(c, t, sender, output, metrics); Traced(d) && LogCarries(c, d)
  {
    hide Traced, LogCarries;
    var d := Record(c, t, sender, output, metrics);
    var e := c.(job := WithTask(c.job, t, d.job.tasks[t]), nodes := d.nodes);
    RecordGovernors(c, sender, metrics);
    TaskTraced(c, t, d.job.tasks[t], d.nodes);
    SameLog(c, e, d);
  }

  lemma RecordGovernors(c: Ctx, sender: NodeId, metrics: TaskMetrics)
    ensures SameGovernors(c, c.(nodes := NoteResult(FreeSlot(c.nodes, Some(sender)), sender, metrics)))
  {
  }

  lemma SameLog(c: Ctx, e: Ctx, d: Ctx)
    requires Traced(e) && LogCarries(c, e) && d == e.(job := e.job.(totalTokens := d.job.totalTokens))
    ensures Traced(d) && LogCarries(c, d)
  {
    hide SentTo, OutAt;
    assert forall t: TaskId :: Tried(d.job, t) == Tried(e.job, t);
  }
}
