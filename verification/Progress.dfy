/** A job that has not ended has a task that has not: nothing finishes the last task of a
    job without finishing the job. */
module Progress {
  import opened Collections
  import opened Protocol
  import opened JobCore
  import opened JobInvariants
  import opened Coordinator
  import opened RunProofs
  import opened Safety
  import Scheduler
  import Submission

  ghost predicate Unfinished(job: Job) {
    exists t :: 0 <= t < |job.tasks| && !job.tasks[t].Finished()
  }

  ghost predicate Goes(job: Job) {
    job.Active() ==> Unfinished(job)
  }

  // ---- the functions that may finish a task ----

  lemma {:induction false} RequeueGoes(c: Ctx, t: TaskId)
    requires t < |c.job.tasks|
    ensures Goes(Requeue(c, t).job)
    decreases ReduceBudget(c.job), 1
  {
    hide MaybeFinish, RequeueTarget, Replan;
    MaybeFinishGoes(Release(c, t, Failed));
    UnfinishedAt(Requeue(c, t).job, t);
  }

  lemma UnfinishedAt(job: Job, t: TaskId)
    ensures t < |job.tasks| && !job.tasks[t].Finished() ==> Goes(job)
  {
  }

  lemma {:induction false} DispatchGoes(c: Ctx, t: TaskId, n: NodeId)
    requires t < |c.job.tasks|
    ensures Goes(Dispatch(c, t, n).job)
    decreases ReduceBudget(c.job), 2
  {
    hide Requeue;
    RequeueGoes(c, t);
    UnfinishedAt(Dispatch(c, t, n).job, t);
  }

  /** Whatever state it starts from. */
  lemma {:induction false} MaybeFinishGoes(c: Ctx)
    ensures Goes(MaybeFinish(c).job)
    decreases ReduceBudget(c.job), 0
  {
    hide Dispatch, MapOutputs, FinalOutput, WantsReduce, ReducePrompt, FindReduce, Scheduler.PickReduceNode,
         Scheduler.Views;
    if !c.job.reduceDispatched {
      var reducer := Scheduler.PickReduceNode(c.cfg, Scheduler.Views(c.nodes), c.job.request.model);
      if reducer.Some? { DispatchGoes(StartReduce(c), |c.job.tasks|, reducer.value.nodeId); }
    }
  }

  lemma PumpGoes(c: Ctx)
    ensures Goes(Pump(c).job)
  {
    hide DrainAll, Steal, MaybeFinish;
    MaybeFinishGoes(Steal(DrainAll(c, 0, Visits(c), false), STEAL_ROUNDS));
  }

  lemma {:induction false} SweepGoes(c: Ctx, t: nat)
    requires Goes(c.job)
    ensures Goes(SweepFrom(c, t).job)
    decreases ReduceBudget(c.job), |c.job.tasks| - t
  {
    hide Requeue, Goes;
    if t < |c.job.tasks| {
      if Expired(c, c.job.tasks[t]) {
        RequeueGoes(c, t);
        SweepGoes(Requeue(c, t), t + 1);
      } else {
        SweepGoes(c, t + 1);
      }
    }
  }

  lemma {:induction false} CancelStatus(c: Ctx, t: nat)
    ensures CancelFrom(c, t).job.status == c.job.status
    decreases |c.job.tasks| - t
  {
    if t < |c.job.tasks| {
      var task := c.job.tasks[t];
      var nodes := if task.InFlight() then FreeSlot(c.nodes, task.nodeId) else c.nodes;
      var job := if task.status != Completed then WithTask(c.job, t, task.(status := Cancelled)) else c.job;
      CancelStatus(c.(job := job, nodes := nodes), t + 1);
    }
  }

  lemma AcceptedGoes(c: Ctx, t: TaskId)
    requires Goes(c.job)
    ensures Goes(Accepted(c, t).job)
  {
    UnfinishedAt(Accepted(c, t).job, t);
  }

  lemma TokenGoes(c: Ctx, t: TaskId, token: string)
    requires Goes(c.job)
    ensures Goes(Token(c, t, token).job)
  {
    if u :| 0 <= u < |c.job.tasks| && !c.job.tasks[u].Finished() { UnfinishedAt(Token(c, t, token).job, u); }
  }

  lemma DeclinedGoes(c: Ctx, t: TaskId)
    requires Goes(c.job)
    ensures Goes(Declined(c, t).job)
  {
    hide Requeue, Goes;
    if t < |c.job.tasks| { RequeueGoes(c, t); }
  }

  // ---- every step ----

  ghost predicate GoesAt(s: State, j: JobId) {
    j in s.jobs.items ==> Goes(s.jobs.items[j])
  }

  lemma PutGoes(s: State, i: JobId, d: Ctx, j: JobId)
    requires GoesAt(s, j) && Goes(d.job)
    ensures GoesAt(Put(s, i, d), j)
  {
    hide Goes;
  }

  lemma {:induction false} LoseGoes(s: State, k: nat, n: NodeId, j: JobId)
    requires GoesAt(s, j)
    ensures GoesAt(LoseFrom(s, k, n), j)
    decreases |s.jobs.keys| - k
  {
    hide NodeLost, Goes, GoesAt;
    if k < |s.jobs.keys| && s.jobs.keys[k] in s.jobs.items {
      var i := s.jobs.keys[k];
      var d := NodeLost(CtxOf(s, s.jobs.items[i]), n);
      NodeLostGoes(CtxOf(s, s.jobs.items[i]), n);
      PutGoes(s, i, d, j);
      LoseGoes(Put(s, i, d), k + 1, n, j);
    }
  }

  lemma NodeLostGoes(c: Ctx, n: NodeId)
    ensures Goes(NodeLost(c, n).job)
  {
    hide MoveQueue, RequeueHeld, Pump;
    PumpGoes(RequeueHeld(MoveQueue(c, n), n, 0));
  }

  lemma {:induction false} SweepJobsGoes(s: State, k: nat, j: JobId)
    requires GoesAt(s, j)
    ensures GoesAt(SweepJobs(s, k), j)
    decreases |s.jobs.keys| - k
  {
    hide Sweep, Goes;
    if k < |s.jobs.keys| && s.jobs.keys[k] in s.jobs.items {
      var i := s.jobs.keys[k];
      var c := CtxOf(s, s.jobs.items[i]);
      if i == j { SweepOneGoes(c); }
      SweepJobsGoes(Put(s, i, Sweep(c)), k + 1, j);
    }
  }

  lemma SweepOneGoes(c: Ctx)
    requires Goes(c.job)
    ensures Goes(Sweep(c).job)
  {
    hide SweepFrom, Goes;
    SweepGoes(c, 0);
  }

  lemma CancelGoes(c: Ctx)
    ensures Goes(Cancel(c).job)
  {
    hide CancelFrom;
    CancelStatus(c.(job := c.job.(status := JobCancelled)), 0);
  }

  lemma DeferredGoes(c: Ctx)
    requires Goes(c.job)
    ensures Goes(DeferredPump(c).job)
  {
    hide Pump, Goes;
    if c.job.deferred > 0 { PumpGoes(c.(job := c.job.(deferred := c.job.deferred - 1))); }
  }

  lemma StartGoes(c: Ctx, cursor: nat)
    ensures Goes(Submission.Start(c, cursor).job)
  {
    hide Pump, Submission.Planned, Goes;
    PumpGoes(Submission.Planned(c, cursor));
  }

  lemma JobStepGoes(s: State, e: Event)
    requires AboutOneJob(e) && e.job in s.jobs.items && Goes(s.jobs.items[e.job])
    ensures e.job in Step(s, e).jobs.items && Goes(Step(s, e).jobs.items[e.job])
  {
    hide Goes, Accepted, Declined, Token, Record, Pump, Cancel, DeferredPump;
    var c := CtxOf(s, s.jobs.items[e.job]);
    match e
    case TaskAccepted(_, t) => AcceptedGoes(c, t);
    case TaskRejected(_, t, _) => DeclinedGoes(c, t);
    case TaskToken(_, t, _, token) => TokenGoes(c, t, token);
    case TaskCompleted(_, t, sender, output, metrics) =>
      if t < |c.job.tasks| { PumpGoes(Record(c, t, sender, output, metrics)); }
    case TaskFailure(_, t, sender) =>
      DeclinedGoes(c.(nodes := NoteFailure(c.nodes, sender)), t);
      DeclinedGoes(c, t);
    case CancelRequested(_) => CancelGoes(c);
    case PumpDue(_) => DeferredGoes(c);
  }

  lemma StepGoes(s: State, e: Event, j: JobId)
    requires GoesAt(s, j)
    ensures GoesAt(Step(s, e), j)
  {
    hide Goes, LoseFrom, SweepJobs, Submission.Start, Submission.NextCursor, Accepted, Declined, Token, Done,
         JobCore.TaskFailed, Cancel, DeferredPump;
    match e
    case Submit(_, request) => StartGoes(CtxOf(s, Submission.NewJob(s.nextSerial, request)), s.cursor);
    case NodeDropped(n) => LoseGoes(s.(nodes := s.nodes.Delete(n)), 0, n, j);
    case SweepDue => SweepJobsGoes(s, 0, j);
    case NodeJoined(_, _) =>
    case NodeHeartbeat(_, _, _, _, _) =>
    case NodePong(_, _) =>
    case NodePresence(_, _, _) =>
    case Clock(_) =>
    case _ =>
      if e.job == j && j in s.jobs.items { JobStepGoes(s, e); }
  }

  lemma {:induction false} RunGoes(s: State, events: seq<Event>, j: JobId)
    requires GoesAt(s, j)
    ensures GoesAt(Run(s, events), j)
    decreases |events|
  {
    hide Step, GoesAt;
    if events != [] {
      RunGoes(s, events[..|events| - 1], j);
      StepGoes(Run(s, events[..|events| - 1]), events[|events| - 1], j);
    }
  }

  /** Nothing of the job waits and nobody owes an answer about it. */
  ghost predicate Quiet(job: Job) {
    forall t | 0 <= t < |job.tasks| :: !job.tasks[t].InFlight() && !job.tasks[t].Waiting()
  }

  lemma QuietExactly(s: State, j: JobId)
    requires StateInv(s) && j in s.jobs.items && Goes(s.jobs.items[j])
    ensures s.jobs.items[j].Terminal() <==> Quiet(s.jobs.items[j])
  {
    hide Conserved, Reachable, ReduceOk, PipelineOk, TokensOk, LogsOk, SerialsOk, SlotsExact, CompletedTotal;
    var job := s.jobs.items[j];
    if job.Active() {
      var t :| 0 <= t < |job.tasks| && !job.tasks[t].Finished();
      assert TaskOk(s.cfg.maxTaskAttempts, job, t, s.nodes.items.Keys);
    }
  }

  /** In every reachable state a job has ended exactly when none of its tasks waits or is
      in flight. */
  lemma EndedExactly(cfg: Config, now: int, events: seq<Event>, j: JobId)
    requires cfg.maxTaskAttempts >= 1 && AdmissibleRun(Start0(cfg, now), events)
    requires j in Run(Start0(cfg, now), events).jobs.items
    ensures var job := Run(Start0(cfg, now), events).jobs.items[j]; job.Terminal() <==> Quiet(job)
  {
    hide StateInv, Run, AdmissibleRun, Goes, Quiet;
    EveryRunIsSafe(cfg, now, events);
    RunGoes(Start0(cfg, now), events, j);
    QuietExactly(Run(Start0(cfg, now), events), j);
  }
}
