/** What the record of sends and the tasks of all jobs say about each other, over every run,
    and what became of the words of the workers. */
module Records {
  import opened Collections
  import opened Protocol
  import opened JobCore
  import opened Coordinator
  import opened RunProofs
  import opened Safety
  import opened Traces
  import opened Submission

  // ---- all jobs ----

  ghost predicate TracedJobs(s: State) {
    forall j :: j in s.jobs.items ==> Traced(CtxOf(s, s.jobs.items[j]))
  }

  ghost predicate TracedState(s: State) {
    && TracedJobs(s) && SerialsOk(s)
    && forall i | 0 <= i < |s.log| :: s.log[i].serial < s.nextSerial
  }

  /** Sends of another job change nothing of what the record says about this one. */
  lemma OtherTraced(a: Ctx, c: Ctx, d: Ctx)
    requires Traced(a) && a.log == c.log && a.job.serial != c.job.serial && LogCarries(c, d)
    ensures Traced(a.(nodes := d.nodes, log := d.log, completedCount := d.completedCount))
  {
    var b := a.(nodes := d.nodes, log := d.log, completedCount := d.completedCount);
    forall i | 0 <= i < |d.log|
      ensures i < |c.log| ==> d.log[i] == c.log[i]
      ensures i >= |c.log| ==> d.log[i].serial == c.job.serial
    {
      if i < |c.log| { assert d.log[..|c.log|][i] == d.log[i]; } else { assert SendOf(c, d.log[i]); }
    }
    forall t: TaskId, n: NodeId
      ensures SentTo(a.log, a.job.serial, t, n) <==> SentTo(d.log, a.job.serial, t, n)
    {
      if SentTo(a.log, a.job.serial, t, n) {
        var i :| 0 <= i < |a.log| && About(a.log[i], a.job.serial, t) && a.log[i].nodeId == n;
        assert About(d.log[i], a.job.serial, t);
      }
    }
    assert forall t: TaskId :: Tried(b.job, t) == Tried(a.job, t);
    forall t | 0 <= t < |a.job.tasks| && a.job.tasks[t].InFlight()
      ensures OutAt(d.log, a.job.serial, t, a.job.tasks[t])
    {
      assert OutAt(a.log, a.job.serial, t, a.job.tasks[t]);
      var i :| 0 <= i < |a.log| && IsLatest(a.log, a.job.serial, t, i)
               && a.job.tasks[t].nodeId == Some(a.log[i].nodeId) && a.job.tasks[t].assignedAtMs == Some(a.log[i].at);
      assert IsLatest(d.log, a.job.serial, t, i);
    }
  }

  lemma PutTraced(s: State, j: JobId, d: Ctx)
    requires TracedState(s) && j in s.jobs.items && Traced(d) && LogCarries(CtxOf(s, s.jobs.items[j]), d)
    ensures TracedState(Put(s, j, d))
  {
    hide Traced, SameGovernors;
    var c, r := CtxOf(s, s.jobs.items[j]), Put(s, j, d);
    forall i | i in r.jobs.items
      ensures Traced(CtxOf(r, r.jobs.items[i]))
    {
      if i == j {
        Reframed(d, CtxOf(r, r.jobs.items[i]));
      } else {
        OtherTraced(CtxOf(s, s.jobs.items[i]), c, d);
      }
    }
    forall i | 0 <= i < |r.log|
      ensures r.log[i].serial < r.nextSerial
    {
      if i < |c.log| { assert d.log[..|c.log|][i] == d.log[i]; } else { assert SendOf(c, d.log[i]); }
    }
  }

  lemma Reframed(c: Ctx, d: Ctx)
    requires Traced(c) && d.job == c.job && d.log == c.log
    ensures Traced(d)
  {
  }

  lemma NodesTraced(s: State, r: State)
    requires TracedState(s) && r.jobs == s.jobs && r.log == s.log && r.nextSerial == s.nextSerial
    ensures TracedState(r)
  {
    hide Traced;
    forall j | j in r.jobs.items
      ensures Traced(CtxOf(r, r.jobs.items[j]))
    {
      Reframed(CtxOf(s, s.jobs.items[j]), CtxOf(r, r.jobs.items[j]));
    }
  }

  /** The new entries of the record name connected machines, with what their governors had
      reported and the time. */
  ghost predicate SendsFair(s: State, r: State) {
    && |s.log| <= |r.log| && r.log[..|s.log|] == s.log
    && forall i | |s.log| <= i < |r.log| ::
         && r.log[i].nodeId in r.nodes.items
         && r.log[i].allowed == r.nodes.items[r.log[i].nodeId].governor.maxConcurrentTasks
         && r.log[i].at == r.now
  }

  ghost predicate GovernorsKept(s: State, r: State) {
    && r.now == s.now && r.nodes.items.Keys == s.nodes.items.Keys
    && forall n :: n in s.nodes.items ==> r.nodes.items[n].governor == s.nodes.items[n].governor
  }

  lemma PutFair(s: State, j: JobId, c: Ctx, d: Ctx)
    requires LogCarries(c, d) && c.log == s.log && c.nodes == s.nodes && c.now == s.now
    ensures SendsFair(s, Put(s, j, d)) && GovernorsKept(s, Put(s, j, d))
  {
    forall i | |s.log| <= i < |d.log|
      ensures SendOf(c, d.log[i])
    {
    }
  }

  lemma FairTrans(a: State, b: State, c: State)
    requires SendsFair(a, b) && GovernorsKept(a, b) && SendsFair(b, c) && GovernorsKept(b, c)
    ensures SendsFair(a, c) && GovernorsKept(a, c)
  {
    assert c.log[..|a.log|] == c.log[..|b.log|][..|a.log|];
    forall i | |a.log| <= i < |b.log|
      ensures c.log[i] == b.log[i]
    {
      assert c.log[..|b.log|][i] == c.log[i];
    }
  }

  lemma FairSelf(s: State, r: State)
    requires r.log == s.log
    ensures SendsFair(s, r)
  {
  }

  ghost predicate GoesOn(s: State, r: State) {
    TracedState(r) && SendsFair(s, r)
  }

  lemma {:induction false} LoseTraced(s: State, k: nat, n: NodeId)
    requires TracedState(s)
    ensures GoesOn(s, LoseFrom(s, k, n)) && GovernorsKept(s, LoseFrom(s, k, n))
    decreases |s.jobs.keys| - k
  {
    hide NodeLost, Traced, LogCarries, TextCarries, TracedState, SendsFair;
    FairSelf(s, s);
    if k < |s.jobs.keys| && s.jobs.keys[k] in s.jobs.items {
      var j := s.jobs.keys[k];
      var c := CtxOf(s, s.jobs.items[j]);
      var d := NodeLost(c, n);
      JobTraced(s, j);
      LossTraces(c, n);
      PutTraced(s, j, d);
      PutFair(s, j, c, d);
      LoseTraced(Put(s, j, d), k + 1, n);
      FairTrans(s, Put(s, j, d), LoseFrom(s, k, n));
    }
  }

  lemma JobTraced(s: State, j: JobId)
    requires TracedState(s) && j in s.jobs.items
    ensures Traced(CtxOf(s, s.jobs.items[j]))
  {
  }

  lemma SweepAllTraces(c: Ctx)
    requires Traced(c)
    ensures Traced(Sweep(c)) && Carries(c, Sweep(c))
  {
    hide Traced, Carries, SweepFrom;
    CarriesSelf(c);
    SweepTraces(c, 0);
  }

  lemma {:induction false} SweepTraced(s: State, k: nat)
    requires TracedState(s)
    ensures GoesOn(s, SweepJobs(s, k)) && GovernorsKept(s, SweepJobs(s, k))
    decreases |s.jobs.keys| - k
  {
    hide Sweep, Traced, LogCarries, TextCarries, TracedState, SendsFair;
    FairSelf(s, s);
    if k < |s.jobs.keys| && s.jobs.keys[k] in s.jobs.items {
      var j := s.jobs.keys[k];
      var c := CtxOf(s, s.jobs.items[j]);
      var d := Sweep(c);
      JobTraced(s, j);
      SweepAllTraces(c);
      PutTraced(s, j, d);
      PutFair(s, j, c, d);
      SweepTraced(Put(s, j, d), k + 1);
      FairTrans(s, Put(s, j, d), SweepJobs(s, k));
    }
  }

  lemma OutcomeTraces(c: Ctx, e: Event)
    requires Traced(c) && AboutOneJob(e) && Due(c.job, e)
    ensures Traced(Outcome(c, e)) && LogCarries(c, Outcome(c, e))
    ensures !e.TaskToken? && !e.TaskCompleted? ==> TextCarries(c.job, Outcome(c, e).job)
  {
    hide Traced, LogCarries, TextCarries, Accepted, Declined, Token, Record, Pump, JobCore.TaskFailed,
         Cancel, DeferredPump;
    match e
    case TaskAccepted(_, t) => AcceptedTraces(c, t);
    case TaskRejected(_, t, _) => DeclinedTraces(c, t);
    case TaskToken(_, t, _, token) => TokenTraces(c, t, token);
    case TaskCompleted(_, t, sender, output, metrics) =>
      var d := Record(c, t, sender, output, metrics);
      RecordTraces(c, t, sender, output, metrics);
      PumpTraces(d);
      LogCarriesTrans(c, d, Pump(d));
    case TaskFailure(_, t, sender) => FailedTraces(c, t, sender);
    case CancelRequested(_) => CancelTraces(c);
    case PumpDue(_) => DeferredTraces(c);
  }

  lemma JobStepTraced(s: State, e: Event)
    requires TracedState(s) && Admissible(s, e) && AboutOneJob(e) && e.job in s.jobs.items
    ensures GoesOn(s, Step(s, e))
  {
    hide TracedState, Traced, LogCarries, TextCarries, Outcome, Step, Due, Admissible, SendsFair;
    var j := e.job;
    var c := CtxOf(s, s.jobs.items[j]);
    AdmissibleDue(s, e);
    JobTraced(s, j);
    OutcomeTraces(c, e);
    StepIsPut(s, j, e);
    var r := Put(s, j, Outcome(c, e));
    PutTraced(s, j, Outcome(c, e));
    PutFair(s, j, c, Outcome(c, e));
    NodesTraced(r, Step(s, e));
    TokenFair(s, r, Step(s, e).tokenCount);
  }

  lemma TokenFair(s: State, r: State, k: nat)
    requires SendsFair(s, r)
    ensures SendsFair(s, r.(tokenCount := k))
  {
  }

  // ---- submitting ----

  ghost predicate Untouched(tasks: seq<Task>) {
    forall t | 0 <= t < |tasks| ::
      tasks[t].triedNodes == {} && tasks[t].status == TaskStatus.Planned && tasks[t].output == ""
  }

  lemma PlannedUntouched(c: Ctx, cursor: nat)
    requires c.job == NewJob(c.job.serial, c.job.request)
    ensures var p := Submission.Planned(c, cursor);
            && Untouched(p.job.tasks) && p == c.(job := p.job)
            && p.job.serial == c.job.serial && p.job.request == c.job.request
  {
    hide Decide, DealAll, ItemMessages;
  }

  lemma FreshTraced(p: Ctx)
    requires Untouched(p.job.tasks) && forall i | 0 <= i < |p.log| :: p.log[i].serial < p.job.serial
    ensures Traced(p)
  {
    assert forall t: TaskId :: Tried(p.job, t) == {};
    assert forall t: TaskId, n: NodeId :: !SentTo(p.log, p.job.serial, t, n);
  }

  lemma PlantTraced(s: State, j: JobId, p: Ctx)
    requires TracedState(s) && p == CtxOf(s, p.job) && p.job.serial == s.nextSerial && Traced(p)
    ensures TracedState(Planting(s, j, p.job))
  {
    hide Traced;
    var r := Planting(s, j, p.job);
    forall i | i in r.jobs.items
      ensures Traced(CtxOf(r, r.jobs.items[i]))
    {
      if i != j { Reframed(CtxOf(s, s.jobs.items[i]), CtxOf(r, r.jobs.items[i])); }
    }
  }

  lemma SubmitTraced(s: State, j: JobId, request: JobRequest)
    requires TracedState(s)
    ensures GoesOn(s, SubmitJob(s, j, request))
    ensures var p := Submission.Planned(CtxOf(s, NewJob(s.nextSerial, request)), s.cursor);
            && j in SubmitJob(s, j, request).jobs.items && Untouched(p.job.tasks) && p.job.request == request
            && TextCarries(p.job, SubmitJob(s, j, request).jobs.items[j])
            && SubmitJob(s, j, request).jobs.items[j].request == request
  {
    hide Pump, Submission.Planned, Traced, LogCarries, TextCarries, TracedState, SendsFair, Untouched, NextCursor;
    var c := CtxOf(s, NewJob(s.nextSerial, request));
    var p := Submission.Planned(c, s.cursor);
    PlannedUntouched(c, s.cursor);
    SerialsBelow(s);
    FreshTraced(p);
    PlantTraced(s, j, p);
    PumpTraces(p);
    var r := Planting(s, j, p.job);
    PutTraced(r, j, Pump(p));
    PutFair(r, j, p, Pump(p));
    SubmitIsPut(s, j, request);
    NodesTraced(Put(r, j, Pump(p)), SubmitJob(s, j, request));
    PlantFair(s, j, p.job, Put(r, j, Pump(p)), SubmitJob(s, j, request));
    CarriesRequest(p, Pump(p));
  }

  lemma CarriesRequest(c: Ctx, d: Ctx)
    requires LogCarries(c, d)
    ensures d.job.request == c.job.request
  {
  }

  lemma PlantFair(s: State, j: JobId, job: Job, r: State, e: State)
    requires SendsFair(Planting(s, j, job), r) && e == r.(cursor := e.cursor)
    ensures SendsFair(s, e)
  {
  }

  lemma SerialsBelow(s: State)
    requires TracedState(s)
    ensures forall i | 0 <= i < |s.log| :: s.log[i].serial < s.nextSerial
  {
  }

  // ---- runs ----

  lemma StepTraced(s: State, e: Event)
    requires TracedState(s) && Admissible(s, e)
    ensures GoesOn(s, Step(s, e))
  {
    hide TracedState, SendsFair, LoseFrom, SweepJobs, SubmitJob, Admissible, Accepted, Declined, Token, Done,
         JobCore.TaskFailed, Cancel, DeferredPump;
    if AboutOneJob(e) && e.job in s.jobs.items {
      JobStepTraced(s, e);
    } else {
      match e
      case Submit(j, request) => SubmitTraced(s, j, request);
      case NodeDropped(n) =>
        var r := s.(nodes := s.nodes.Delete(n));
        NodesTraced(s, r);
        LoseTraced(r, 0, n);
        DroppedFair(s, r, LoseFrom(r, 0, n));
      case SweepDue => SweepTraced(s, 0);
      case _ =>
        NodesTraced(s, Step(s, e));
        FairSelf(s, Step(s, e));
    }
  }

  lemma DroppedFair(s: State, r: State, e: State)
    requires SendsFair(r, e) && r.log == s.log
    ensures SendsFair(s, e)
  {
  }

  lemma StartTraced(cfg: Config, now: int)
    ensures TracedState(Start0(cfg, now))
  {
  }

  lemma {:induction false} RunTraced(s: State, events: seq<Event>)
    requires TracedState(s) && AdmissibleRun(s, events)
    ensures TracedState(Run(s, events))
    decreases |events|
  {
    hide TracedState, SendsFair, Step, Admissible, AdmissibleRun;
    if events != [] {
      RunFront(s, events);
      RunTraced(s, events[..|events| - 1]);
      StepTraced(Run(s, events[..|events| - 1]), events[|events| - 1]);
    }
  }

  /** In every reachable state a task remembers exactly the machines it was ever sent to. */
  lemma TriedIsSent(cfg: Config, now: int, events: seq<Event>, j: JobId, t: TaskId, n: NodeId)
    requires AdmissibleRun(Start0(cfg, now), events)
    requires var s := Run(Start0(cfg, now), events); j in s.jobs.items && t < |s.jobs.items[j].tasks|
    ensures var s := Run(Start0(cfg, now), events);
            n in s.jobs.items[j].tasks[t].triedNodes <==>
              exists i :: 0 <= i < |s.log| && s.log[i].serial == s.jobs.items[j].serial && s.log[i].task == t
                          && s.log[i].nodeId == n
  {
    hide Run, AdmissibleRun, TracedState;
    StartTraced(cfg, now);
    RunTraced(Start0(cfg, now), events);
    var s := Run(Start0(cfg, now), events);
    JobTraced(s, j);
    TriedAt(CtxOf(s, s.jobs.items[j]), t, n);
  }

  lemma TriedAt(c: Ctx, t: TaskId, n: NodeId)
    requires Traced(c) && t < |c.job.tasks|
    ensures n in c.job.tasks[t].triedNodes <==>
              exists i :: 0 <= i < |c.log| && c.log[i].serial == c.job.serial && c.log[i].task == t
                          && c.log[i].nodeId == n
  {
    assert n in Tried(c.job, t) <==> SentTo(c.log, c.job.serial, t, n);
  }

  /** The send at place i of the record was made in the k-th step. */
  ghost predicate MadeIn(s: State, events: seq<Event>, k: nat, i: nat)
    requires k < |events|
  {
    |Run(s, events[..k]).log| <= i < |Run(s, events[..k + 1]).log|
  }

  /** Every send of a run was made in one of its steps, to a machine connected then, and
      the record holds the number its governor had last reported and the time. */
  lemma {:induction false} SendsAsReported(s: State, events: seq<Event>, i: nat) returns (k: nat)
    requires TracedState(s) && AdmissibleRun(s, events) && |s.log| <= i < |Run(s, events).log|
    ensures k < |events| && MadeIn(s, events, k, i)
    ensures var r, a := Run(s, events[..k + 1]), Run(s, events).log[i];
            && r.log[i] == a && a.nodeId in r.nodes.items && a.at == r.now
            && a.allowed == r.nodes.items[a.nodeId].governor.maxConcurrentTasks
    decreases |events|
  {
    hide TracedState, Step, Admissible, AdmissibleRun, MadeIn;
    assert events != [];
    var front, last := events[..|events| - 1], events[|events| - 1];
    RunFront(s, events);
    RunTraced(s, front);
    StepTraced(Run(s, front), last);
    var m, r := Run(s, front), Run(s, events);
    if i < |m.log| {
      k := SendsAsReported(s, front, i);
      assert front[..k + 1] == events[..k + 1] && front[..k] == events[..k];
      assert r.log[..|m.log|][i] == r.log[i];
      MadeInFront(s, events, k, i);
    } else {
      k := |front|;
      assert events[..k + 1] == events && events[..k] == front;
      MadeLast(s, events, i);
    }
  }

  lemma MadeInFront(s: State, events: seq<Event>, k: nat, i: nat)
    requires k < |events| - 1 && MadeIn(s, events[..|events| - 1], k, i)
    ensures MadeIn(s, events, k, i)
  {
    hide Run;
    var front := events[..|events| - 1];
    assert front[..k + 1] == events[..k + 1] && front[..k] == events[..k];
  }

  lemma MadeLast(s: State, events: seq<Event>, i: nat)
    requires events != [] && |Run(s, events[..|events| - 1]).log| <= i < |Run(s, events).log|
    ensures MadeIn(s, events, |events| - 1, i)
  {
    hide Run;
    assert events[..|events| - 1 + 1] == events;
  }
}
