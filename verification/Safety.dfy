/** The safety theorems, over every admissible run of the coordinator from its start. */
module Safety {
  import opened Collections
  import opened Protocol
  import opened JobCore
  import opened JobInvariants
  import opened JobPump
  import opened JobEvents
  import opened Coordinator
  import opened Registry
  import opened Submission
  import opened SubmissionProofs
  import opened RunProofs
  import opened Choices

  // ---- submitting ----

  lemma PlannedShape(c: Ctx, cursor: nat, n: NodeId)
    requires c.job == NewJob(c.job.serial, c.job.request) && c.nodes.Valid()
    ensures var p := Submission.Planned(c, cursor);
            && p == c.(job := p.job) && p.job.serial == c.job.serial && p.job.status != JobCompleted
            && Load(p.job, n) == 0
  {
    hide Decide, BuildTasks, Clusters.ClusterOk;
    var d := Decide(c.cfg, c.job.request, c.nodes, cursor);
    DecideOk(c.cfg, c.job.request, c.nodes, cursor);
    if d.cluster.nodeIds != [] {
      BuildTasksOk(c.job, d.analysis.strategy, d.cluster);
      ZeroSum(Submission.Planned(c, cursor).job.tasks, HoldsSlot(n));
    }
  }

  /** The state with the new job planned and nothing sent yet. */
  ghost function Planting(s: State, j: JobId, job: Job): State {
    s.(jobs := s.jobs.Set(j, job), nextSerial := s.nextSerial + 1,
       retired := if j in s.jobs.items then s.retired + [s.jobs.items[j]] else s.retired)
  }

  lemma PlantLoad(s: State, j: JobId, job: Job, n: NodeId)
    requires s.jobs.Valid() && Load(job, n) == 0
    requires j in s.jobs.items ==> Load(s.jobs.items[j], n) == 0
    ensures TotalLoad(Planting(s, j, job), n) == TotalLoad(s, n)
  {
    hide Load;
    var r := Planting(s, j, job);
    if j in s.jobs.items {
      SumChange(s.jobs.keys, LoadAt(s.jobs.items, n), LoadAt(r.jobs.items, n), j);
    } else {
      SumPush(s.jobs.keys, j, LoadAt(r.jobs.items, n));
      SumFrame(s.jobs.keys, LoadAt(s.jobs.items, n), LoadAt(r.jobs.items, n));
    }
  }

  lemma PlantCompleted(s: State, j: JobId, job: Job)
    requires s.jobs.Valid() && job.status != JobCompleted
    ensures CompletedTotal(Planting(s, j, job)) == CompletedTotal(s)
  {
    var r := Planting(s, j, job);
    if j in s.jobs.items {
      SumChange(s.jobs.keys, CompletedAt(s.jobs.items), CompletedAt(r.jobs.items), j);
      SumPush(s.retired, s.jobs.items[j], CompletedJobs);
    } else {
      SumPush(s.jobs.keys, j, CompletedAt(r.jobs.items));
      SumFrame(s.jobs.keys, CompletedAt(s.jobs.items), CompletedAt(r.jobs.items));
    }
  }

  lemma PlantLogs(s: State, j: JobId, job: Job)
    requires LogsOk(s) && SerialsOk(s) && job.serial == s.nextSerial
    requires forall t: TaskId :: TimesSent(s.log, job.serial, t) == Attempts(job, t)
    ensures LogsOk(Planting(s, j, job)) && SerialsOk(Planting(s, j, job))
  {
    hide TimesSent, Attempts;
  }

  lemma PlantOk(s: State, j: JobId, p: Ctx)
    requires StateInv(s) && p == CtxOf(s, p.job) && p.job.serial == s.nextSerial && p.job.status != JobCompleted
    requires Inv(p, s.nodes.items.Keys, {})
    requires forall n :: n in s.nodes.items ==> Load(p.job, n) == 0
    requires j in s.jobs.items ==> NoneInFlight(s.jobs.items[j])
    ensures StateInv(Planting(s, j, p.job))
  {
    hide JobOk, Load, LogsOk, SerialsOk, TotalLoad, CompletedTotal, TimesSent, Attempts;
    var r := Planting(s, j, p.job);
    PlantCompleted(s, j, p.job);
    PlantLogs(s, j, p.job);
    forall n | n in s.nodes.items
      ensures TotalLoad(r, n) == TotalLoad(s, n)
    {
      if j in s.jobs.items { JobIdleLoad(s.jobs.items[j], n); }
      PlantLoad(s, j, p.job, n);
    }
  }

  lemma JobIdleLoad(job: Job, n: NodeId)
    requires NoneInFlight(job)
    ensures Load(job, n) == 0
  {
    ZeroSum(job.tasks, HoldsSlot(n));
  }

  lemma SubmitOk(s: State, j: JobId, request: JobRequest)
    requires StateInv(s) && s.cfg.maxTaskAttempts >= 1
    requires j in s.jobs.items ==> NoneInFlight(s.jobs.items[j])
    ensures StateInv(SubmitJob(s, j, request))
  {
    hide Pump, Submission.Planned, StateOk, Inv, Follows, NoneInFlight, Load;
    var c := CtxOf(s, NewJob(s.nextSerial, request));
    var p := Submission.Planned(c, s.cursor);
    LogFacts(s);
    PlannedOk(c, s.cursor, s.nodes.items.Keys);
    forall n
      ensures Load(p.job, n) == 0
    {
      PlannedShape(c, s.cursor, n);
    }
    PlannedShape(c, s.cursor, 0);
    PlantOk(s, j, p);
    var r := Planting(s, j, p.job);
    assert CtxOf(r, p.job) == p;
    PumpOk(p, r.nodes.items.Keys);
    AnswerStep(r, j, Pump(p));
    FollowsCfg(p, Pump(p));
    SubmitIsPut(s, j, request);
    CursorFree(Put(r, j, Pump(p)), SubmitJob(s, j, request));
  }

  lemma LogFacts(s: State)
    requires StateInv(s)
    ensures forall t: TaskId :: TimesSent(s.log, s.nextSerial, t) == 0
    ensures forall i | 0 <= i < |s.log| :: s.log[i].Permitted()
    ensures s.nodes.Valid()
  {
  }

  lemma SubmitIsPut(s: State, j: JobId, request: JobRequest)
    ensures var c := CtxOf(s, NewJob(s.nextSerial, request));
            var p := Submission.Planned(c, s.cursor);
            var r := Put(Planting(s, j, p.job), j, Pump(p));
            SubmitJob(s, j, request) == r.(cursor := NextCursor(s.cfg, request, s.nodes, s.cursor))
  {
    hide Pump, Submission.Planned, NextCursor;
  }

  lemma CursorFree(a: State, b: State)
    requires StateInv(a) && b == a.(cursor := b.cursor)
    ensures StateInv(b)
  {
    hide JobOk, LogsOk, Load, CompletedJobs;
    assert LogsOk(b) by { SameTotals(a, b); }
  }

  // ---- one step ----

  lemma ClockOk(s: State, now: int)
    requires StateInv(s)
    ensures StateInv(s.(now := now))
  {
    hide JobOk, Load, CompletedJobs, LogsOk;
    SameTotals(s, s.(now := now));
  }

  lemma TokenCountOk(s: State, k: nat)
    requires StateInv(s)
    ensures StateInv(s.(tokenCount := k))
  {
    hide JobOk, Load, CompletedJobs, LogsOk;
    SameTotals(s, s.(tokenCount := k));
  }

  lemma HeartbeatOk(s: State, n: NodeId, profile: Profile, governor: GovernorReport, metrics: NodeMetrics)
    requires StateInv(s) && n in s.nodes.items
    ensures StateInv(Step(s, NodeHeartbeat(n, profile, governor, metrics, TotalLoad(s, n))))
  {
    hide StateOk, TotalLoad;
    HeartbeatLoad(s, n);
    var node := s.nodes.items[n];
    NodeRecordOk(s, n, node.(profile := node.Measured(profile), governor := governor, activeTasks := TotalLoad(s, n),
                             online := true, metrics := node.metrics.Heard(metrics)));
  }

  lemma PongOk(s: State, n: NodeId, rttMs: int)
    requires StateInv(s) && n in s.nodes.items
    ensures StateInv(Step(s, NodePong(n, rttMs)))
  {
    hide StateOk;
    NodeRecordOk(s, n, Ponged(s.nodes, n, rttMs).items[n]);
  }

  lemma HeartbeatLoad(s: State, n: NodeId)
    requires StateInv(s) && n in s.nodes.items
    ensures s.nodes.items[n].activeTasks == TotalLoad(s, n)
  {
  }

  predicate AboutOneJob(e: Event) {
    || e.TaskAccepted? || e.TaskRejected? || e.TaskToken? || e.TaskCompleted? || e.TaskFailure?
    || e.CancelRequested? || e.PumpDue?
  }

  /** The job an event is about moves as one job may; an answer uses up some of its measure. */
  ghost predicate JobMoves(s: State, e: Event, j: JobId)
    requires j in s.jobs.items
  {
    var max, r := s.cfg.maxTaskAttempts, Step(s, e);
    && j in r.jobs.items
    && JobFollows(max, s.jobs.items[j], r.jobs.items[j])
    && (IsAnswer(e) && e.job == j ==> Measure(max, r.jobs.items[j]) < Measure(max, s.jobs.items[j]))
  }

  lemma MovesBy(s: State, e: Event, j: JobId, d: Ctx)
    requires j in s.jobs.items && Follows(CtxOf(s, s.jobs.items[j]), d)
    requires j in Step(s, e).jobs.items && Step(s, e).jobs.items[j] == d.job
    requires IsAnswer(e) ==> Measure(s.cfg.maxTaskAttempts, d.job) < Measure(s.cfg.maxTaskAttempts, s.jobs.items[j])
    ensures JobMoves(s, e, j)
  {
    hide Step, Measure;
  }

  /** What an event about one job does to that job and to the node slots. */
  ghost function Outcome(c: Ctx, e: Event): Ctx
    requires AboutOneJob(e)
  {
    match e
    case TaskAccepted(_, t) => Accepted(c, t)
    case TaskRejected(_, t, _) => Declined(c, t)
    case TaskToken(_, t, _, token) => Token(c, t, token)
    case TaskCompleted(_, t, sender, output, metrics) => Done(c, t, sender, output, metrics)
    case TaskFailure(_, t, sender) => JobCore.TaskFailed(c, t, sender)
    case CancelRequested(_) => Cancel(c)
    case PumpDue(_) => DeferredPump(c)
  }

  /** `Admissible`, seen from the job. */
  ghost predicate Due(job: Job, e: Event) {
    match e
    case TaskAccepted(_, t) => t < |job.tasks| && job.tasks[t].InFlight()
    case TaskRejected(_, t, sender) => AnswerDue(job, t, sender)
    case TaskToken(_, t, sender, _) => AnswerDue(job, t, sender)
    case TaskCompleted(_, t, sender, _, _) => AnswerDue(job, t, sender)
    case TaskFailure(_, t, sender) => AnswerDue(job, t, sender)
    case _ => true
  }

  lemma OutcomeOk(c: Ctx, e: Event, reach: set<NodeId>)
    requires Inv(c, reach, {}) && c.cfg.maxTaskAttempts >= 1 && AboutOneJob(e) && Due(c.job, e)
    ensures Inv(Outcome(c, e), reach, {}) && Follows(c, Outcome(c, e))
    ensures IsAnswer(e) ==>
              Measure(c.cfg.maxTaskAttempts, Outcome(c, e).job) < Measure(c.cfg.maxTaskAttempts, c.job)
  {
    hide Inv, Follows, Accepted, Declined, Token, Done, JobCore.TaskFailed, Cancel, DeferredPump, Measure, AnswerDue;
    match e
    case TaskAccepted(_, t) => AcceptedOk(c, t, reach);
    case TaskRejected(_, t, sender) => DeclinedOk(c, t, sender, reach);
    case TaskToken(_, t, sender, token) => TokenDueOk(c, t, sender, token, reach);
    case TaskCompleted(_, t, sender, output, metrics) => DoneOk(c, t, sender, output, metrics, reach);
    case TaskFailure(_, t, sender) => TaskFailedOk(c, t, sender, reach);
    case CancelRequested(_) => CancelOk(c, reach);
    case PumpDue(_) => DeferredPumpOk(c, reach);
  }

  lemma TokenDueOk(c: Ctx, t: TaskId, sender: NodeId, token: string, reach: set<NodeId>)
    requires Inv(c, reach, {}) && AnswerDue(c.job, t, sender)
    ensures Inv(Token(c, t, token), reach, {}) && Follows(c, Token(c, t, token))
  {
    hide Inv, Follows, Token;
    TokenOk(c, t, token, reach);
  }

  lemma StepIsPut(s: State, j: JobId, e: Event)
    requires j in s.jobs.items && AboutOneJob(e) && j == e.job && Due(s.jobs.items[j], e)
    ensures Step(s, e) == Put(s, j, Outcome(CtxOf(s, s.jobs.items[j]), e)).(tokenCount := Step(s, e).tokenCount)
  {
    hide Accepted, Declined, Token, Done, JobCore.TaskFailed, Cancel, DeferredPump;
  }

  lemma AdmissibleDue(s: State, e: Event)
    requires AboutOneJob(e) && e.job in s.jobs.items && Admissible(s, e)
    ensures Due(s.jobs.items[e.job], e)
  {
  }

  lemma JobStepOk(s: State, j: JobId, e: Event)
    requires StateInv(s) && Admissible(s, e) && s.cfg.maxTaskAttempts >= 1 && j in s.jobs.items
    requires AboutOneJob(e) && j == e.job
    ensures StateInv(Step(s, e)) && JobMoves(s, e, j)
  {
    hide StateOk, Inv, Follows, Outcome, Measure, JobMoves, Step, Due, Admissible;
    var c, ids := CtxOf(s, s.jobs.items[j]), s.nodes.items.Keys;
    var d := Outcome(c, e);
    JobView(s, {}, 0, j);
    AdmissibleDue(s, e);
    OutcomeOk(c, e, ids);
    StepIsPut(s, j, e);
    AnswerStep(s, j, d);
    TokenCountOk(Put(s, j, d), Step(s, e).tokenCount);
    MovesBy(s, e, j, d);
  }

  lemma DropOk(s: State, n: NodeId)
    requires StateInv(s) && s.cfg.maxTaskAttempts >= 1
    ensures StateInv(Step(s, NodeDropped(n))) && AllFollow(s.cfg.maxTaskAttempts, s, Step(s, NodeDropped(n)))
  {
    hide StateOk, LoseFrom, JobFollows;
    LogFacts(s);
    RemoveNodeOk(s, n);
    LoseFromOk(s.(nodes := s.nodes.Delete(n)), 0, n);
  }

  lemma FollowSelf(max: int, job: Job)
    ensures JobFollows(max, job, job)
  {
  }

  /** Every admissible event keeps the invariant. */
  lemma StepOk(s: State, e: Event)
    requires StateInv(s) && Admissible(s, e) && s.cfg.maxTaskAttempts >= 1
    ensures StateInv(Step(s, e))
  {
    hide StateOk, LoseFrom, SweepJobs, SubmitJob, TotalLoad, JobFollows;
    match e
    case Submit(j, request) => SubmitOk(s, j, request);
    case NodeJoined(n, record) => JoinOk(s, n, record);
    case NodeHeartbeat(n, profile, governor, metrics, activeTasks) =>
      if n in s.nodes.items { HeartbeatOk(s, n, profile, governor, metrics); }
    case NodePong(n, rttMs) =>
      if n in s.nodes.items { PongOk(s, n, rttMs); }
    case NodeDropped(n) => DropOk(s, n);
    case NodePresence(n, online, socketOpen) =>
      if n in s.nodes.items { NodeRecordOk(s, n, s.nodes.items[n].(online := online, socketOpen := socketOpen)); }
    case SweepDue => SweepJobsOk(s, 0);
    case Clock(now) => ClockOk(s, now);
    case _ =>
      if e.job in s.jobs.items { JobStepOk(s, e.job, e); }
  }

  /** Whatever happens, a job moves as one job may, unless its id is submitted again. */
  lemma StepMoves(s: State, e: Event, j: JobId)
    requires StateInv(s) && Admissible(s, e) && s.cfg.maxTaskAttempts >= 1 && j in s.jobs.items
    requires !(e.Submit? && e.job == j)
    ensures JobMoves(s, e, j)
  {
    hide StateOk, LoseFrom, SweepJobs, Start, NextCursor, TotalLoad, JobFollows, Measure, Accepted, Declined, Token, Done,
         JobCore.TaskFailed, Cancel, DeferredPump;
    FollowSelf(s.cfg.maxTaskAttempts, s.jobs.items[j]);
    match e
    case NodeDropped(n) => DropOk(s, n);
    case SweepDue => SweepJobsOk(s, 0);
    case Submit(_, _) =>
    case NodeJoined(_, _) =>
    case NodeHeartbeat(_, _, _, _, _) =>
    case NodePong(_, _) =>
    case NodePresence(_, _, _) =>
    case Clock(_) =>
    case _ =>
      if e.job == j { JobStepOk(s, j, e); }
  }

  // ---- runs ----

  ghost predicate AdmissibleRun(s: State, events: seq<Event>) {
    forall i | 0 <= i < |events| :: Admissible(Run(s, events[..i]), events[i])
  }

  lemma StartOk(cfg: Config, now: int)
    ensures StateInv(Start0(cfg, now))
  {
  }

  lemma {:induction false} CfgKept(s: State, e: Event)
    ensures Step(s, e).cfg == s.cfg
  {
    hide Done, JobCore.TaskFailed, Declined, Accepted, Token, Cancel, DeferredPump, Start;
    match e
    case NodeDropped(n) => LoseCfg(s.(nodes := s.nodes.Delete(n)), 0, n);
    case SweepDue => SweepCfg(s, 0);
    case _ =>
  }

  lemma {:induction false} LoseCfg(s: State, k: nat, n: NodeId)
    ensures LoseFrom(s, k, n).cfg == s.cfg
    decreases |s.jobs.keys| - k
  {
    hide NodeLost;
    if k < |s.jobs.keys| && s.jobs.keys[k] in s.jobs.items {
      LoseCfg(Put(s, s.jobs.keys[k], NodeLost(CtxOf(s, s.jobs.items[s.jobs.keys[k]]), n)), k + 1, n);
    }
  }

  lemma {:induction false} SweepCfg(s: State, k: nat)
    ensures SweepJobs(s, k).cfg == s.cfg
    decreases |s.jobs.keys| - k
  {
    hide Sweep;
    if k < |s.jobs.keys| && s.jobs.keys[k] in s.jobs.items {
      SweepCfg(Put(s, s.jobs.keys[k], Sweep(CtxOf(s, s.jobs.items[s.jobs.keys[k]]))), k + 1);
    }
  }

  lemma RunFront(s: State, events: seq<Event>)
    requires events != [] && AdmissibleRun(s, events)
    ensures AdmissibleRun(s, events[..|events| - 1])
    ensures Admissible(Run(s, events[..|events| - 1]), events[|events| - 1])
  {
    hide Admissible, Run;
    var front := events[..|events| - 1];
    forall i | 0 <= i < |front|
      ensures Admissible(Run(s, front[..i]), front[i])
    {
      assert front[..i] == events[..i];
      assert Admissible(Run(s, events[..i]), events[i]);
    }
    assert Admissible(Run(s, front), events[|events| - 1]);
  }

  lemma {:induction false} RunOk(s: State, events: seq<Event>)
    requires StateInv(s) && s.cfg.maxTaskAttempts >= 1 && AdmissibleRun(s, events)
    ensures StateInv(Run(s, events)) && Run(s, events).cfg == s.cfg
    decreases |events|
  {
    hide StateOk, Step, Admissible, AdmissibleRun;
    if events != [] {
      RunFront(s, events);
      RunOk(s, events[..|events| - 1]);
      StepOk(Run(s, events[..|events| - 1]), events[|events| - 1]);
      CfgKept(Run(s, events[..|events| - 1]), events[|events| - 1]);
    }
  }

  /** The invariant holds in every reachable state, with at least one attempt allowed. */
  lemma EveryRunIsSafe(cfg: Config, now: int, events: seq<Event>)
    requires cfg.maxTaskAttempts >= 1 && AdmissibleRun(Start0(cfg, now), events)
    ensures StateInv(Run(Start0(cfg, now), events)) && Run(Start0(cfg, now), events).cfg == cfg
  {
    hide StateOk, Step, AdmissibleRun;
    StartOk(cfg, now);
    RunOk(Start0(cfg, now), events);
  }
}
