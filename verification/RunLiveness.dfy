/** Progress over whole runs: with one job running and every socket open, the job always
    has somebody working on it or a pump scheduled, unless giving a task up stranded it. */
module RunLiveness {
  import opened Collections
  import opened Protocol
  import opened JobCore
  import opened JobInvariants
  import opened JobEvents
  import opened JobPump
  import opened JobSteps
  import opened JobLiveness
  import opened Timeouts
  import opened Coordinator
  import opened Choices
  import opened RunProofs
  import opened Safety
  import opened Scheduled
  import opened Submission
  import opened SubmissionProofs

  // ---- one running job ----

  ghost predicate SocketsOpen(s: State) {
    forall n :: n in s.nodes.items ==> s.nodes.items[n].socketOpen
  }

  /** Every job but j has ended. */
  ghost predicate Lone(s: State, j: JobId) {
    forall i :: i in s.jobs.items && i != j ==> s.jobs.items[i].Terminal()
  }

  ghost predicate Solo(s: State, j: JobId) {
    StateInv(s) && s.cfg.maxTaskAttempts >= 1 && j in s.jobs.items && Lone(s, j) && SocketsOpen(s)
  }

  ghost function JobAt(s: State, j: JobId): Ctx
    requires j in s.jobs.items
  {
    CtxOf(s, s.jobs.items[j])
  }

  lemma SumSingle<T>(keys: seq<T>, f: T -> nat, at: T)
    requires Distinct(keys) && at in keys && forall k | k in keys && k != at :: f(k) == 0
    ensures Sum(keys, f) == f(at)
  {
    var zero := (k: T) => 0;
    SumChange(keys, zero, f, at);
    ZeroSum(keys, zero);
  }

  lemma EndedLoad(max: int, job: Job, reach: set<NodeId>, n: NodeId)
    requires JobOk(max, job, reach, {}) && job.Terminal()
    ensures Load(job, n) == 0
  {
    hide Conserved, TasksOk, Reachable, ReduceOk, PipelineOk, TokensOk, Load;
    JobIdleLoad(job, n);
  }

  /** All load is the one job's. */
  lemma LoneLoad(s: State, j: JobId, n: NodeId)
    requires StateInv(s) && j in s.jobs.items && Lone(s, j)
    ensures TotalLoad(s, n) == Load(s.jobs.items[j], n)
  {
    hide JobOk, Load, LogsOk, SerialsOk, SlotsExact, CompletedTotal;
    forall i | i in s.jobs.keys && i != j
      ensures LoadAt(s.jobs.items, n)(i) == 0
    {
      EndedLoad(s.cfg.maxTaskAttempts, s.jobs.items[i], s.nodes.items.Keys, n);
    }
    SumSingle(s.jobs.keys, LoadAt(s.jobs.items, n), j);
  }

  /** So what is proved of a job that has the machines to itself holds of it. */
  lemma SoloIsAlone(s: State, j: JobId)
    requires Solo(s, j)
    ensures Alone(JobAt(s, j))
  {
    hide StateOk, Inv, Load, TotalLoad, Lone;
    JobView(s, {}, 0, j);
    forall n | n in s.nodes.items
      ensures s.nodes.items[n].activeTasks == Load(s.jobs.items[j], n)
    {
      LoneLoad(s, j, n);
      HeartbeatLoad(s, n);
    }
  }

  // ---- losses and sweeps, seen from the one job ----

  lemma PutBack(s: State, i: JobId)
    requires i in s.jobs.items
    ensures Put(s, i, CtxOf(s, s.jobs.items[i])) == s
  {
    assert s.jobs.items[i := s.jobs.items[i]] == s.jobs.items;
  }

  lemma LosePast(c: Ctx, n: NodeId)
    requires c.job.Terminal()
    ensures NodeLost(c, n) == c && Sweep(c) == c
  {
  }

  lemma {:induction false} LoseRest(s: State, k: nat, n: NodeId)
    requires forall i | k <= i < |s.jobs.keys| && s.jobs.keys[i] in s.jobs.items ::
               s.jobs.items[s.jobs.keys[i]].Terminal()
    ensures LoseFrom(s, k, n) == s && SweepJobs(s, k) == s
    decreases |s.jobs.keys| - k
  {
    hide NodeLost, Sweep;
    if k < |s.jobs.keys| && s.jobs.keys[k] in s.jobs.items {
      LosePast(CtxOf(s, s.jobs.items[s.jobs.keys[k]]), n);
      PutBack(s, s.jobs.keys[k]);
      LoseRest(s, k + 1, n);
    }
  }

  lemma RestEnded(s: State, k: nat, j: JobId, d: Ctx)
    requires s.jobs.Valid() && Lone(s, j) && j in s.jobs.items && k < |s.jobs.keys| && s.jobs.keys[k] == j
    ensures var r := Put(s, j, d);
            forall i | k + 1 <= i < |r.jobs.keys| && r.jobs.keys[i] in r.jobs.items ::
              r.jobs.items[r.jobs.keys[i]].Terminal()
  {
  }

  /** Only the running job is moved by a loss. */
  lemma {:induction false} LoseOne(s: State, k: nat, n: NodeId, j: JobId)
    requires k <= |s.jobs.keys| && s.jobs.Valid() && Lone(s, j) && j in s.jobs.keys[k..]
    ensures LoseFrom(s, k, n) == Put(s, j, NodeLost(JobAt(s, j), n))
    decreases |s.jobs.keys| - k
  {
    hide NodeLost, Lone;
    var i := s.jobs.keys[k];
    if i == j {
      var d := NodeLost(JobAt(s, j), n);
      RestEnded(s, k, j, d);
      LoseRest(Put(s, j, d), k + 1, n);
    } else {
      OtherEnded(s, i, j);
      LosePast(CtxOf(s, s.jobs.items[i]), n);
      PutBack(s, i);
      LoseOne(s, k + 1, n, j);
    }
  }

  lemma OtherEnded(s: State, i: JobId, j: JobId)
    requires Lone(s, j) && i in s.jobs.items && i != j
    ensures s.jobs.items[i].Terminal()
  {
  }

  lemma {:induction false} SweepOne(s: State, k: nat, j: JobId)
    requires k <= |s.jobs.keys| && s.jobs.Valid() && Lone(s, j) && j in s.jobs.keys[k..]
    ensures SweepJobs(s, k) == Put(s, j, Sweep(JobAt(s, j)))
    decreases |s.jobs.keys| - k
  {
    hide Sweep, Lone;
    var i := s.jobs.keys[k];
    if i == j {
      var d := Sweep(JobAt(s, j));
      RestEnded(s, k, j, d);
      LoseRest(Put(s, j, d), k + 1, 0);
    } else {
      OtherEnded(s, i, j);
      LosePast(CtxOf(s, s.jobs.items[i]), 0);
      PutBack(s, i);
      SweepOne(s, k + 1, j);
    }
  }

  // ---- what strands a job ----

  /** Somebody owes an answer, a pump is scheduled, or the job has ended. */
  ghost predicate Hopeful(job: Job) {
    Live(job) || job.deferred > 0
  }

  /** The event gives up everything that is in flight while another task waits, and no pump
      is scheduled. */
  ghost predicate Strands(c: Ctx, e: Event) {
    && c.job.deferred == 0
    && match e
       case TaskRejected(_, t, _) => StrandsAt(c, t)
       case TaskFailure(_, t, _) => StrandsAt(c, t)
       case SweepDue => c.job.Active() && Flying(c.job) && !Spared(c, 0) && SomeWait(c.job)
       case _ => false
  }

  ghost predicate StrandsAt(c: Ctx, t: TaskId) {
    t < |c.job.tasks| && GivesUp(c, t) && OthersWait(c.job, t) && !OthersFly(c.job, t)
  }

  /** The job's own answers, and the sweep, can strand it. */
  ghost predicate StrandsJob(s: State, e: Event, j: JobId) {
    j in s.jobs.items && (AboutOneJob(e) ==> e.job == j) && Strands(JobAt(s, j), e)
  }

  /** A loss pumps every running job; a cancelled job has ended. */
  predicate Rescues(e: Event, j: JobId) {
    e.NodeDropped? || (e.CancelRequested? && e.job == j)
  }

  ghost predicate Verdict(before: Job, strands: bool, rescues: bool, after: Job) {
    if strands then !Hopeful(after) else Hopeful(after) <==> Hopeful(before) || rescues
  }

  lemma HopefulExactly(r: Ctx)
    requires Alone(r)
    ensures Hopeful(r.job) <==> Live(DeferredPump(r).job)
  {
    hide Inv, AllOpen, Exact, Pump, Flying;
    if r.job.deferred > 0 {
      DeferredAlone(r, r.job.deferred - 1);
      InvStatus(r, r.nodes.items.Keys, {});
      SettledPumpLive(r.(job := r.job.(deferred := r.job.deferred - 1)));
    }
  }

  lemma OutcomeAlone(c: Ctx, e: Event)
    requires Alone(c) && AboutOneJob(e) && Due(c.job, e)
    ensures Alone(Outcome(c, e))
  {
    hide Inv, Follows, AllOpen, Exact, Outcome, Due;
    OutcomeOk(c, e, c.nodes.items.Keys);
    FollowsAlone(c, Outcome(c, e));
  }

  /** A pump that runs leaves the job live, and so does its absence. */
  lemma PumpVerdict(c: Ctx)
    requires Alone(c)
    ensures Hopeful(DeferredPump(c).job) <==> Hopeful(c.job)
  {
    hide Alone, Pump, Live;
    HopefulExactly(c);
  }

  lemma InFlightHopeful(job: Job, t: TaskId)
    requires t < |job.tasks| && job.tasks[t].InFlight()
    ensures Hopeful(job)
  {
  }

  lemma CancelVerdict(c: Ctx)
    requires Alone(c)
    ensures Hopeful(Cancel(c).job)
  {
    hide Inv, Follows, AllOpen, Exact, Cancel, Flying;
    CancelOk(c, c.nodes.items.Keys);
  }

  lemma RejectedVerdict(c: Ctx, e: Event)
    requires Alone(c) && Due(c.job, e) && (e.TaskRejected? || e.TaskFailure?)
    ensures Hopeful(c.job)
    ensures Hopeful(Outcome(c, e).job) <==> !Strands(c, e)
  {
    hide Alone, GivesUp, OthersWait, OthersFly, Live, Declined, JobCore.TaskFailed, DeferredPump;
    InFlightHopeful(c.job, e.task);
    if c.job.deferred > 0 {
      OutcomeKeeps(c, e);
    } else {
      OutcomeAlone(c, e);
      HopefulExactly(Outcome(c, e));
      if e.TaskRejected? {
        DeclinedLiveExactly(c, e.task, e.sender);
      } else {
        TaskFailedLiveExactly(c, e.task, e.sender);
      }
    }
  }

  lemma CompletedVerdict(c: Ctx, e: Event)
    requires Alone(c) && Due(c.job, e) && e.TaskCompleted?
    ensures Hopeful(Outcome(c, e).job)
  {
    hide Alone, Live, Done;
    DoneLive(c, e.task, e.sender, e.output, e.metrics);
  }

  /** An event about the running job. */
  lemma OutcomeVerdict(c: Ctx, e: Event)
    requires Alone(c) && AboutOneJob(e) && Due(c.job, e)
    ensures Verdict(c.job, Strands(c, e), e.CancelRequested?, Outcome(c, e).job)
  {
    hide Inv, AllOpen, Exact, GivesUp, OthersWait, OthersFly, Live, Declined, JobCore.TaskFailed, Done,
         Cancel, DeferredPump;
    InvStatus(c, c.nodes.items.Keys, {});
    match e
    case TaskAccepted(_, t) =>
      InFlightHopeful(c.job, t);
      InFlightHopeful(Accepted(c, t).job, t);
    case TaskToken(_, t, _, token) =>
      InFlightHopeful(c.job, t);
      InFlightHopeful(Token(c, t, token).job, t);
    case TaskCompleted(_, t, _, _, _) =>
      InFlightHopeful(c.job, t);
      CompletedVerdict(c, e);
    case CancelRequested(_) => CancelVerdict(c);
    case PumpDue(_) => PumpVerdict(c);
    case TaskRejected(_, _, _) => RejectedVerdict(c, e);
    case TaskFailure(_, _, _) => RejectedVerdict(c, e);
  }

  lemma {:induction false} NothingExpires(c: Ctx, t: nat)
    requires !Flying(c.job)
    ensures SweepFrom(c, t) == c
    decreases |c.job.tasks| - t
  {
    hide Requeue;
    if t < |c.job.tasks| {
      assert !c.job.tasks[t].InFlight();
      NothingExpires(c, t + 1);
    }
  }

  lemma SweepVerdictOf(c: Ctx)
    requires Alone(c)
    ensures Verdict(c.job, Strands(c, SweepDue), false, Sweep(c).job)
  {
    hide Inv, Follows, AllOpen, Exact, SweepFrom, Spared, SomeWait, DeferredPump, Flying;
    InvStatus(c, c.nodes.items.Keys, {});
    if c.job.deferred > 0 {
      SweepKeeps(c, 0);
    } else if c.job.Active() {
      if Flying(c.job) {
        SweepOk(c, c.nodes.items.Keys);
        FollowsAlone(c, Sweep(c));
        HopefulExactly(Sweep(c));
        SweepLiveExactly(c);
      } else {
        NothingExpires(c, 0);
      }
    }
  }

  // ---- one step of the coordinator ----

  /** No second job, and every socket that opens stays open. */
  predicate Steady(e: Event) {
    && !e.Submit?
    && (e.NodeJoined? ==> e.record.socketOpen)
    && (e.NodePresence? ==> e.socketOpen)
  }

  lemma SocketsFollow(s: State, c: Ctx, d: Ctx, r: State)
    requires SocketsOpen(s) && c.nodes.items.Keys <= s.nodes.items.Keys && Follows(c, d) && r.nodes == d.nodes
    requires forall n :: n in c.nodes.items ==> c.nodes.items[n] == s.nodes.items[n]
    ensures SocketsOpen(r)
  {
    hide JobFollows, LogFollows, Load;
  }

  lemma AloneDown(s: State, j: JobId, n: NodeId)
    requires Solo(s, j)
    ensures var c := JobAt(s.(nodes := s.nodes.Delete(n)), j);
            && n !in c.nodes.items && AllOpen(c) && Exact(c) && Inv(c, c.nodes.items.Keys + {n}, {})
  {
    hide StateOk, Inv, Load, Lone;
    var r := s.(nodes := s.nodes.Delete(n));
    LogFacts(s);
    RemoveNodeOk(s, n);
    JobsPresent(s, {}, 0);
    assert j in s.jobs.keys[0..];
    JobView(r, KeysFrom(s, 0), n, j);
    SoloIsAlone(s, j);
  }

  /** The job after the event, and the rest of what a lone job needs. */
  ghost predicate StepsTo(s: State, e: Event, j: JobId)
    requires j in s.jobs.items
  {
    var r := Step(s, e);
    && j in r.jobs.items && SocketsOpen(r) && r.jobs.items.Keys == s.jobs.items.Keys
    && Verdict(s.jobs.items[j], StrandsJob(s, e, j), Rescues(e, j), r.jobs.items[j])
  }

  lemma DropStep(s: State, n: NodeId, j: JobId)
    requires Solo(s, j)
    ensures StepsTo(s, NodeDropped(n), j)
  {
    hide StateOk, Inv, Follows, AllOpen, Exact, Lone, NodeLost, LoseFrom, Live;
    var r := s.(nodes := s.nodes.Delete(n));
    var c := JobAt(r, j);
    AloneDown(s, j, n);
    JobsPresent(s, {}, 0);
    LogFacts(s);
    LoneFrame(s, r, j);
    LoseOne(r, 0, n, j);
    NodeLostLive(c, n, {});
    NodeLostOk(c, n, c.nodes.items.Keys + {n});
    SocketsFollow(s, c, NodeLost(c, n), Step(s, NodeDropped(n)));
  }

  lemma LoneFrame(s: State, r: State, j: JobId)
    requires Lone(s, j) && r.jobs == s.jobs
    ensures Lone(r, j)
  {
  }

  lemma SweepStep(s: State, j: JobId)
    requires Solo(s, j)
    ensures StepsTo(s, SweepDue, j)
  {
    hide StateOk, Inv, Follows, AllOpen, Exact, Lone, Sweep, SweepJobs, Hopeful, Strands;
    var c := JobAt(s, j);
    SoloIsAlone(s, j);
    JobsPresent(s, {}, 0);
    SweepOne(s, 0, j);
    SweepVerdictOf(c);
    SweepOk(c, c.nodes.items.Keys);
    SocketsFollow(s, c, Sweep(c), Step(s, SweepDue));
  }

  lemma JobStep(s: State, e: Event, j: JobId)
    requires Solo(s, j) && Admissible(s, e) && AboutOneJob(e) && e.job in s.jobs.items
    ensures StepsTo(s, e, j)
  {
    hide StateOk, Inv, Follows, AllOpen, Exact, Lone, Outcome, Hopeful, Strands, Due, Admissible, Step;
    var i := e.job;
    var c := JobAt(s, i);
    var d := Outcome(c, e);
    JobView(s, {}, 0, i);
    AdmissibleDue(s, e);
    OutcomeOk(c, e, c.nodes.items.Keys);
    StepIsPut(s, i, e);
    SocketsFollow(s, c, d, Step(s, e));
    if i == j {
      SoloIsAlone(s, j);
      OutcomeVerdict(c, e);
    }
  }

  predicate AboutNodes(e: Event) {
    e.NodeJoined? || e.NodeHeartbeat? || e.NodePong? || e.NodePresence? || e.Clock?
  }

  lemma NodeStep(s: State, e: Event, j: JobId)
    requires Solo(s, j) && AboutNodes(e) && Steady(e)
    ensures StepsTo(s, e, j)
  {
    hide StateInv, Lone, Hopeful;
  }

  lemma UnknownStep(s: State, e: Event, j: JobId)
    requires Solo(s, j) && AboutOneJob(e) && e.job !in s.jobs.items
    ensures StepsTo(s, e, j)
  {
    hide StateInv, Lone, Hopeful;
  }

  lemma OneStep(s: State, e: Event, j: JobId)
    requires Solo(s, j) && Admissible(s, e) && Steady(e)
    ensures StepsTo(s, e, j)
  {
    hide Solo, StepsTo, Admissible;
    if AboutOneJob(e) {
      if e.job in s.jobs.items { JobStep(s, e, j); } else { UnknownStep(s, e, j); }
    } else if e.NodeDropped? {
      DropStep(s, e.node, j);
    } else if e.SweepDue? {
      SweepStep(s, j);
    } else {
      NodeStep(s, e, j);
    }
  }

  lemma LoneStep(s: State, e: Event, j: JobId)
    requires Solo(s, j) && Admissible(s, e) && Steady(e)
    requires Step(s, e).jobs.items.Keys == s.jobs.items.Keys
    ensures Lone(Step(s, e), j)
  {
    hide StateInv, Step, Admissible, Measure;
    var r := Step(s, e);
    forall i | i in r.jobs.items && i != j
      ensures r.jobs.items[i].Terminal()
    {
      StepMoves(s, e, i);
    }
  }

  /** One step of the run: the job stays alone, and is hopeful exactly if it was or was
      rescued, unless the event strands it. */
  lemma SoloStep(s: State, e: Event, j: JobId)
    requires Solo(s, j) && Admissible(s, e) && Steady(e)
    ensures Solo(Step(s, e), j)
    ensures Verdict(s.jobs.items[j], StrandsJob(s, e, j), Rescues(e, j), Step(s, e).jobs.items[j])
  {
    hide StateInv, Step, Admissible, Lone, SocketsOpen, Hopeful, StrandsJob;
    StepOk(s, e);
    CfgKept(s, e);
    OneStep(s, e, j);
    LoneStep(s, e, j);
  }

  // ---- whole runs ----

  /** Some event stranded the job, and nothing after it came to its rescue. */
  ghost predicate Stuck(s: State, events: seq<Event>, j: JobId) {
    exists i | 0 <= i < |events| :: StrandedSince(s, events, j, i)
  }

  ghost predicate StrandedSince(s: State, events: seq<Event>, j: JobId, i: nat)
    requires i < |events|
  {
    StrandsJob(Run(s, events[..i]), events[i], j) && forall k | i < k < |events| :: !Rescues(events[k], j)
  }

  lemma SinceFront(s: State, events: seq<Event>, j: JobId, i: nat)
    requires i < |events| - 1
    ensures var front, last := events[..|events| - 1], events[|events| - 1];
            StrandedSince(s, events, j, i) <==> StrandedSince(s, front, j, i) && !Rescues(last, j)
  {
    hide StrandsJob, Run;
    var front := events[..|events| - 1];
    assert front[..i] == events[..i];
    assert forall k | i < k < |front| :: front[k] == events[k];
  }

  lemma StuckStep(s: State, events: seq<Event>, j: JobId)
    requires events != []
    ensures var front, last := events[..|events| - 1], events[|events| - 1];
            Stuck(s, events, j) <==>
              StrandsJob(Run(s, front), last, j) || (Stuck(s, front, j) && !Rescues(last, j))
  {
    hide StrandsJob, Run;
    var front, last := events[..|events| - 1], events[|events| - 1];
    assert StrandsJob(Run(s, front), last, j) <==> StrandedSince(s, events, j, |front|);
    forall i | 0 <= i < |front|
      ensures StrandedSince(s, events, j, i) <==> StrandedSince(s, front, j, i) && !Rescues(last, j)
    {
      SinceFront(s, events, j, i);
    }
  }

  ghost predicate SteadyRun(events: seq<Event>) {
    forall i | 0 <= i < |events| :: Steady(events[i])
  }

  lemma {:induction false} HopefulUnlessStuck(s: State, events: seq<Event>, j: JobId)
    requires Solo(s, j) && Hopeful(s.jobs.items[j]) && AdmissibleRun(s, events) && SteadyRun(events)
    ensures var r := Run(s, events);
            Solo(r, j) && (Hopeful(r.jobs.items[j]) <==> !Stuck(s, events, j))
    decreases |events|
  {
    hide Solo, Step, Admissible, AdmissibleRun, Steady, StrandsJob, Hopeful, Stuck;
    if events == [] {
      NeverStuck(s, j);
    } else {
      var front, last := events[..|events| - 1], events[|events| - 1];
      RunFront(s, events);
      HopefulUnlessStuck(s, front, j);
      SoloStep(Run(s, front), last, j);
      StuckStep(s, events, j);
      SoloHas(Run(s, front), j);
      SoloHas(Run(s, events), j);
    }
  }

  lemma NeverStuck(s: State, j: JobId)
    ensures !Stuck(s, [], j)
  {
  }

  lemma SoloHas(s: State, j: JobId)
    requires Solo(s, j)
    ensures j in s.jobs.items
  {
  }

  // ---- from the submission on ----

  /** No job is running. */
  ghost predicate Resting(s: State) {
    forall i :: i in s.jobs.items ==> s.jobs.items[i].Terminal()
  }

  lemma {:induction false} NoLoadAtRest(s: State, n: NodeId)
    requires StateInv(s) && Resting(s)
    ensures TotalLoad(s, n) == 0
  {
    hide JobOk, Load, LogsOk, SerialsOk, SlotsExact, CompletedTotal;
    forall i | i in s.jobs.keys
      ensures LoadAt(s.jobs.items, n)(i) == 0
    {
      EndedLoad(s.cfg.maxTaskAttempts, s.jobs.items[i], s.nodes.items.Keys, n);
    }
    ZeroSum(s.jobs.keys, LoadAt(s.jobs.items, n));
  }

  lemma RestingSubmit(s: State, j: JobId, request: JobRequest)
    requires StateInv(s) && Resting(s)
    ensures Admissible(s, Submit(j, request))
  {
    hide Conserved, TasksOk, Reachable, ReduceOk, PipelineOk, TokensOk, LogsOk, SerialsOk, SlotsExact, CompletedTotal;
  }

  lemma SubmitHopeful(s: State, j: JobId, request: JobRequest)
    requires StateInv(s) && s.cfg.maxTaskAttempts >= 1 && Resting(s) && SocketsOpen(s)
    ensures var r := SubmitJob(s, j, request); j in r.jobs.items && Live(r.jobs.items[j])
  {
    hide StateOk, Live, Start, NextCursor, TotalLoad, Resting;
    forall n | n in s.nodes.items
      ensures s.nodes.items[n].activeTasks == 0
    {
      NoLoadAtRest(s, n);
      HeartbeatLoad(s, n);
    }
    LogFacts(s);
    StartLive(CtxOf(s, NewJob(s.nextSerial, request)), s.cursor);
  }

  lemma SubmitSockets(s: State, j: JobId, request: JobRequest)
    requires StateInv(s) && s.cfg.maxTaskAttempts >= 1 && SocketsOpen(s)
    ensures SocketsOpen(SubmitJob(s, j, request))
  {
    hide StateOk, Inv, Follows, Pump, Submission.Planned, NextCursor, Load;
    var c := CtxOf(s, NewJob(s.nextSerial, request));
    var p := Submission.Planned(c, s.cursor);
    LogFacts(s);
    PlannedOk(c, s.cursor, s.nodes.items.Keys);
    PlannedShape(c, s.cursor, 0);
    PumpOk(p, s.nodes.items.Keys);
    SocketsFollow(s, p, Pump(p), SubmitJob(s, j, request));
  }

  lemma SubmitLone(s: State, j: JobId, request: JobRequest)
    requires Resting(s)
    ensures Lone(SubmitJob(s, j, request), j)
  {
    hide Start, NextCursor;
  }

  lemma SubmitSolo(s: State, j: JobId, request: JobRequest)
    requires StateInv(s) && s.cfg.maxTaskAttempts >= 1 && Resting(s) && SocketsOpen(s)
    ensures Solo(SubmitJob(s, j, request), j) && Hopeful(SubmitJob(s, j, request).jobs.items[j])
  {
    hide StateInv, Live, Lone, Resting, SocketsOpen, SubmitJob, Admissible;
    RestingSubmit(s, j, request);
    assert Step(s, Submit(j, request)) == SubmitJob(s, j, request);
    StepOk(s, Submit(j, request));
    CfgKept(s, Submit(j, request));
    SubmitHopeful(s, j, request);
    SubmitSockets(s, j, request);
    SubmitLone(s, j, request);
  }

  lemma LiveAtRest(job: Job)
    requires job.deferred == 0
    ensures Hopeful(job) <==> Live(job)
    ensures NoneInFlight(job) ==> (Hopeful(job) <==> job.Terminal())
  {
  }

  /** A job submitted to resting machines whose sockets are and stay open, in any order of
      answers, losses, joins, timeouts, cancellations and pumps: with no pump scheduled,
      somebody works on it or it has ended unless giving a task up stranded it; and with
      nothing in flight either, it has ended exactly when that never happened. */
  lemma EndsUnlessStuck(s: State, j: JobId, request: JobRequest, events: seq<Event>)
    requires StateInv(s) && s.cfg.maxTaskAttempts >= 1 && Resting(s) && SocketsOpen(s)
    requires AdmissibleRun(SubmitJob(s, j, request), events) && SteadyRun(events)
    ensures var first := SubmitJob(s, j, request);
            var r := Run(first, events);
            && j in r.jobs.items
            && (Live(r.jobs.items[j]) || r.jobs.items[j].deferred > 0 <==> !Stuck(first, events, j))
            && (r.jobs.items[j].deferred == 0 && NoneInFlight(r.jobs.items[j]) ==>
                  (r.jobs.items[j].Terminal() <==> !Stuck(first, events, j)))
  {
    hide StateInv, Live, Solo, Resting, SocketsOpen, SubmitJob, AdmissibleRun, SteadyRun, Stuck, NoneInFlight, Run;
    SubmitSolo(s, j, request);
    var first := SubmitJob(s, j, request);
    HopefulUnlessStuck(first, events, j);
    var r := Run(first, events);
    SoloHas(r, j);
    if r.jobs.items[j].deferred == 0 { LiveAtRest(r.jobs.items[j]); }
  }
}
