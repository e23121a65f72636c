/** When a sweep of timed-out tasks leaves a job with nobody working on it. */
module Timeouts {
  import opened Collections
  import opened Protocol
  import opened JobCore
  import opened JobInvariants
  import opened JobSteps
  import opened JobPump
  import opened JobLiveness
  import Scheduler

  ghost predicate SomeWait(job: Job) {
    exists t :: 0 <= t < |job.tasks| && job.tasks[t].Waiting()
  }

  /** The sweep from position k on leaves t alone, or finds it worth another try. */
  ghost predicate SparedAt(c: Ctx, k: nat, t: TaskId) {
    && t < |c.job.tasks| && c.job.tasks[t].InFlight()
    && (t < k || !Expired(c, c.job.tasks[t]) || !GivesUp(c, t))
  }

  ghost predicate Spared(c: Ctx, k: nat) {
    exists t :: SparedAt(c, k, t)
  }

  /** Same machines, whatever their load. */
  ghost predicate SameMachines(c: Ctx, d: Ctx) {
    && d.cfg == c.cfg && d.now == c.now && d.job.request == c.job.request
    && d.nodes.items.Keys == c.nodes.items.Keys
    && forall n :: n in c.nodes.items ==>
      d.nodes.items[n] == c.nodes.items[n].(activeTasks := d.nodes.items[n].activeTasks)
  }

  lemma FinishMachines(c: Ctx)
    requires AllOpen(c)
    ensures SameMachines(c, MaybeFinish(c))
  {
    hide Requeue, MapOutputs, FinalOutput, WantsReduce, ReducePrompt, FindReduce, Scheduler.PickReduceNode,
         Scheduler.Views;
    var reducer := Scheduler.PickReduceNode(c.cfg, Scheduler.Views(c.nodes), c.job.request.model);
    if reducer.Some? && !c.job.reduceDispatched {
      assert reducer.value.nodeId in c.nodes.items;
      OpenDispatch(StartReduce(c), |c.job.tasks|, reducer.value.nodeId);
    }
  }

  lemma GivenUpMachines(c: Ctx, t: TaskId)
    requires AllOpen(c) && t < |c.job.tasks|
    ensures SameMachines(c, GivenUp(c, t))
  {
    hide MaybeFinish;
    var d := Release(c, t, Failed);
    assert SameMachines(c, d);
    FinishMachines(d);
  }

  lemma SameVerdict(c: Ctx, d: Ctx, t: TaskId)
    requires SameMachines(c, d) && t < |c.job.tasks| && t < |d.job.tasks| && d.job.tasks[t] == c.job.tasks[t]
    ensures GivesUp(d, t) <==> GivesUp(c, t)
    ensures Expired(d, d.job.tasks[t]) <==> Expired(c, c.job.tasks[t])
  {
  }

  /** Giving t up leaves every other task as it was, and may add one in flight. */
  lemma GivenUpTasks(c: Ctx, t: TaskId)
    requires AllOpen(c) && t < |c.job.tasks|
    ensures var d := GivenUp(c, t);
            && |d.job.tasks| >= |c.job.tasks| && d.job.tasks[t].status == Failed
            && (forall u | 0 <= u < |c.job.tasks| && u != t :: d.job.tasks[u] == c.job.tasks[u])
            && (forall u | |c.job.tasks| <= u < |d.job.tasks| :: d.job.tasks[u].InFlight())
  {
    hide MaybeFinish;
    FinishTasks(Release(c, t, Failed));
  }

  lemma SparedBeside(c: Ctx, k: nat, t: TaskId)
    requires AllOpen(c) && k < |c.job.tasks| && t != k && SparedAt(c, k, t)
    ensures Spared(GivenUp(c, k), k + 1)
  {
    hide GivesUp, Expired, AllOpen, GivenUp;
    GivenUpMachines(c, k);
    GivenUpTasks(c, k);
    SameVerdict(c, GivenUp(c, k), t);
    assert SparedAt(GivenUp(c, k), k + 1, t);
  }

  /** With a map task waiting, giving up changes nothing but the one record. */
  lemma GivenUpWaits(c: Ctx, k: nat)
    requires Alone(c) && k < |c.job.tasks| && c.job.tasks[k].InFlight() && SomeWait(c.job) && !Spared(c, k)
    ensures var d := GivenUp(c, k);
            !Spared(d, k + 1) && SomeWait(d.job) && d.job.Active() && d.job.deferred == c.job.deferred
  {
    hide Inv, Exact, GivesUp, Expired, MaybeFinish, SparedAt;
    var d := Release(c, k, Failed);
    var u :| 0 <= u < |c.job.tasks| && c.job.tasks[u].Waiting();
    WaitingMaps(c, k, u);
    assert d.job.tasks[u] == c.job.tasks[u];
    Pending(d, u);
    GivenUpMachines(c, k);
    var next := k + 1;
    forall t
      ensures !SparedAt(d, next, t)
    {
      assert !SparedAt(c, k, t);
      NotSparedNext(c, d, k, t);
    }
  }

  lemma NotSparedNext(c: Ctx, d: Ctx, k: nat, t: TaskId)
    requires k < |c.job.tasks| && d == Release(c, k, Failed) && SameMachines(c, d) && !SparedAt(c, k, t)
    ensures !SparedAt(d, k + 1, t)
  {
    hide GivesUp, Expired, GivenUp;
    if t < |c.job.tasks| && t != k { SameVerdict(c, d, t); }
  }

  lemma NoWaitAfter(c: Ctx, k: nat)
    requires AllOpen(c) && k < |c.job.tasks| && !SomeWait(c.job)
    ensures !SomeWait(GivenUp(c, k).job)
  {
    hide AllOpen, GivenUp;
    GivenUpTasks(c, k);
  }

  /** What a sweep from position k on does to a job's liveness. */
  ghost predicate SweepVerdict(c: Ctx, k: nat, d: Ctx) {
    && Alone(d) && d.job.deferred >= c.job.deferred
    && (Spared(c, k) || (!SomeWait(c.job) && Live(c.job)) ==> Live(d.job) || d.job.deferred > 0)
    && (!Spared(c, k) && SomeWait(c.job) && c.job.Active() ==> !Live(d.job) && d.job.deferred == c.job.deferred)
  }

  lemma SparedNext(c: Ctx, k: nat, t: TaskId)
    requires k < |c.job.tasks| && !Expired(c, c.job.tasks[k])
    ensures SparedAt(c, k, t) <==> SparedAt(c, k + 1, t)
  {
    hide GivesUp, Expired;
  }

  lemma SkipVerdict(c: Ctx, k: nat, d: Ctx)
    requires k < |c.job.tasks| && !Expired(c, c.job.tasks[k]) && SweepVerdict(c, k + 1, d)
    ensures SweepVerdict(c, k, d)
  {
    hide Alone, Live, GivesUp, Expired, SparedAt;
    var next := k + 1;
    forall t
      ensures SparedAt(c, k, t) <==> SparedAt(c, next, t)
    {
      SparedNext(c, k, t);
    }
  }

  lemma {:induction false} SweepFromVerdict(c: Ctx, k: nat)
    requires Alone(c)
    ensures SweepVerdict(c, k, SweepFrom(c, k))
    decreases ReduceBudget(c.job), |c.job.tasks| - k
  {
    hide Alone, Requeue, SweepVerdict, Expired;
    if k >= |c.job.tasks| {
      SweptVerdict(c, k);
    } else if Expired(c, c.job.tasks[k]) {
      var d := Requeue(c, k);
      ExpiredFlies(c, k);
      RequeueAlone(c, k);
      SweepFromVerdict(d, k + 1);
      RequeueVerdict(c, k, SweepFrom(d, k + 1));
    } else {
      SweepFromVerdict(c, k + 1);
      SkipVerdict(c, k, SweepFrom(c, k + 1));
    }
  }

  lemma ExpiredFlies(c: Ctx, k: nat)
    requires k < |c.job.tasks| && Expired(c, c.job.tasks[k])
    ensures c.job.tasks[k].InFlight()
  {
  }

  lemma SweptVerdict(c: Ctx, k: nat)
    requires Alone(c) && k >= |c.job.tasks|
    ensures SweepVerdict(c, k, c)
  {
    hide Alone, GivesUp, Expired;
    if t :| 0 <= t < |c.job.tasks| && c.job.tasks[t].InFlight() { assert SparedAt(c, k, t); }
  }

  lemma RequeueVerdict(c: Ctx, k: nat, e: Ctx)
    requires Alone(c) && k < |c.job.tasks| && c.job.tasks[k].InFlight() && Expired(c, c.job.tasks[k])
    requires SweepVerdict(Requeue(c, k), k + 1, e)
    ensures SweepVerdict(c, k, e)
  {
    hide Inv, Exact, AllOpen, GivesUp, Expired, Requeue, MaybeFinish, Live, Release, SparedAt;
    RequeueOutcome(c, k);
    RecordStatus(c, k, c.nodes.items.Keys);
    if c.job.pipeline.Some? { SingleTaskAlone(c, k); }
    RetriedVerdict(c, k);
    GivenUpLive(c, k);
    if Requeue(c, k).job.deferred != c.job.deferred + 1 { GivenUpVerdict(c, k, e); }
  }

  /** A retry shows in the count of scheduled pumps. */
  lemma RetriedVerdict(c: Ctx, k: nat)
    requires k < |c.job.tasks| && c.job.tasks[k].InFlight()
    ensures !GivesUp(c, k) ==> Spared(c, k)
    ensures !OthersWait(c.job, k) ==> !SomeWait(c.job)
  {
    hide GivesUp, Expired;
    if !GivesUp(c, k) { assert SparedAt(c, k, k); }
  }

  lemma GivenUpVerdict(c: Ctx, k: nat, e: Ctx)
    requires Alone(c) && k < |c.job.tasks| && c.job.tasks[k].InFlight() && Expired(c, c.job.tasks[k])
    requires c.job.pipeline.Some? ==> !OthersWait(c.job, k)
    requires c.job.pipeline.None? ==> GivesUp(c, k)
    requires SweepVerdict(GivenUp(c, k), k + 1, e)
    ensures SweepVerdict(c, k, e)
  {
    hide Inv, Exact, AllOpen, GivesUp, Expired, MaybeFinish, Live, Release, SparedAt;
    GivenUpLive(c, k);
    RetriedVerdict(c, k);
    if Spared(c, k) {
      var t :| SparedAt(c, k, t);
      if t != k {
        SparedBeside(c, k, t);
      } else {
        SparedOnlyPipeline(c, k);
        NoWaitAfter(c, k);
      }
    } else if SomeWait(c.job) {
      GivenUpWaits(c, k);
    } else {
      NoWaitAfter(c, k);
    }
  }

  lemma SparedOnlyPipeline(c: Ctx, k: nat)
    requires k < |c.job.tasks| && SparedAt(c, k, k) && Expired(c, c.job.tasks[k])
    requires c.job.pipeline.None? ==> GivesUp(c, k)
    ensures c.job.pipeline.Some?
  {
    hide Expired;
  }

  /** A sweep leaves a live job stuck exactly when every task in flight has timed out and
      is given up while another one waits. */
  lemma SweepLiveExactly(c: Ctx)
    requires Alone(c) && c.job.Active() && Flying(c.job) && c.job.deferred == 0
    ensures Live(DeferredPump(Sweep(c)).job) <==> Spared(c, 0) || !SomeWait(c.job)
  {
    hide Inv, Exact, AllOpen, SweepFrom, Spared, SomeWait, Pump;
    var d := SweepFrom(c, 0);
    SweepFromVerdict(c, 0);
    InvStatus(d, d.nodes.items.Keys, {});
    if d.job.deferred > 0 {
      DeferredAlone(d, d.job.deferred - 1);
      SettledPumpLive(d.(job := d.job.(deferred := d.job.deferred - 1)));
    }
  }
}
