/** Every answered run ends: the answers a job can get are bounded when it is submitted. */
module Termination {
  import opened Collections
  import opened Protocol
  import opened JobCore
  import opened JobInvariants
  import opened JobPump
  import opened Coordinator
  import opened Submission
  import opened SubmissionProofs
  import opened RunProofs
  import opened Safety
  import opened Guarantees
  import opened Progress
  import opened Choices

  function Answers(events: seq<Event>, j: JobId): nat {
    if events == [] then 0
    else
      var last := events[|events| - 1];
      Answers(events[..|events| - 1], j) + if IsAnswer(last) && last.job == j then 1 else 0
  }

  /** Job j is not submitted again. */
  predicate Undisturbed(events: seq<Event>, j: JobId) {
    forall i | 0 <= i < |events| :: !(events[i].Submit? && events[i].job == j)
  }

  /** However the schedule goes, the answers about a job and what is left of its measure
      never exceed what the measure was. */
  lemma {:induction false} AnswersBounded(s: State, events: seq<Event>, j: JobId)
    requires StateInv(s) && s.cfg.maxTaskAttempts >= 1 && AdmissibleRun(s, events)
    requires j in s.jobs.items && Undisturbed(events, j)
    ensures var r := Run(s, events);
            && j in r.jobs.items
            && Answers(events, j) + Measure(s.cfg.maxTaskAttempts, r.jobs.items[j])
                 <= Measure(s.cfg.maxTaskAttempts, s.jobs.items[j])
    decreases |events|
  {
    hide StateOk, Step, Admissible, AdmissibleRun, Measure;
    if events != [] {
      var front, last := events[..|events| - 1], events[|events| - 1];
      RunFront(s, events);
      AnswersBounded(s, front, j);
      RunOk(s, front);
      StepMoves(Run(s, front), last, j);
    }
  }

  /** The task count of a submission. */
  function Units(request: JobRequest): (r: nat) {
    if request.kind == Chat || request.items == [] then 1 else |request.items|
  }

  lemma PlannedUnits(c: Ctx, cursor: nat)
    requires c.job == NewJob(c.job.serial, c.job.request) && c.nodes.Valid()
    ensures var job := Submission.Planned(c, cursor).job;
            |job.tasks| <= Units(c.job.request) && AllPlanned(job.tasks) && !job.reduceDispatched
            && job.request == c.job.request
  {
    hide Decide, DealAll, Clusters.ClusterOk;
    var d := Decide(c.cfg, c.job.request, c.nodes, cursor);
    DecideOk(c.cfg, c.job.request, c.nodes, cursor);
    if d.cluster.nodeIds != [] {
      BuildTasksOk(c.job, d.analysis.strategy, d.cluster);
    }
  }

  /** The most answers a request can lead to: one a send, for each of its tasks and for the
      reduce it may ask for. */
  function AnswerLimit(cfg: Config, request: JobRequest): int {
    cfg.maxTaskAttempts * (Units(request) + if MayReduce(request) then 1 else 0)
  }

  lemma Scale(max: nat, a: nat, b: nat, c: nat)
    requires a <= b
    ensures a * max + c * max <= max * (b + c)
  {
  }

  lemma FreshMeasure(cfg: Config, job: Job)
    requires AllPlanned(job.tasks) && |job.tasks| <= Units(job.request) && !job.reduceDispatched
    requires cfg.maxTaskAttempts >= 1
    ensures Measure(cfg.maxTaskAttempts, job) <= AnswerLimit(cfg, job.request)
  {
    hide MayReduce, Units;
    var max := cfg.maxTaskAttempts;
    UniformSum(job.tasks, Weight(max), max);
    Scale(max, |job.tasks|, Units(job.request), if MayReduce(job.request) then 1 else 0);
  }

  lemma SubmitMeasure(s: State, j: JobId, request: JobRequest)
    requires StateInv(s) && s.cfg.maxTaskAttempts >= 1
    ensures var r := SubmitJob(s, j, request);
            j in r.jobs.items && Measure(s.cfg.maxTaskAttempts, r.jobs.items[j]) <= AnswerLimit(s.cfg, request)
  {
    hide Pump, Submission.Planned, StateOk, Inv, Follows, Measure, AnswerLimit, Units;
    var c := CtxOf(s, NewJob(s.nextSerial, request));
    var p := Submission.Planned(c, s.cursor);
    LogFacts(s);
    PlannedOk(c, s.cursor, s.nodes.items.Keys);
    PlannedShape(c, s.cursor, 0);
    PlannedUnits(c, s.cursor);
    FreshMeasure(s.cfg, p.job);
    PumpOk(p, s.nodes.items.Keys);
    FollowsJob(p, Pump(p));
    JobFollowsMeasure(s.cfg.maxTaskAttempts, p.job, Pump(p).job);
  }

  lemma JobFollowsMeasure(max: int, a: Job, b: Job)
    requires JobFollows(max, a, b)
    ensures Measure(max, b) <= Measure(max, a)
  {
  }

  /** Nothing is left to weigh, so nothing waits and nobody owes an answer. */
  lemma NothingLeft(max: nat, job: Job, reach: set<NodeId>)
    requires TasksOk(max, job, reach) && Measure(max, job) == 0
    ensures Quiet(job)
  {
    forall t | 0 <= t < |job.tasks|
      ensures !job.tasks[t].InFlight() && !job.tasks[t].Waiting()
    {
      SumAtLeast(job.tasks, t, Weight(max));
      assert TaskOk(max, job, t, reach);
    }
  }

  lemma SubmitGoes(s: State, j: JobId, request: JobRequest)
    ensures GoesAt(SubmitJob(s, j, request), j)
  {
    hide Start, NextCursor, Goes;
    StartGoes(CtxOf(s, NewJob(s.nextSerial, request)), s.cursor);
  }

  /** However the answers, losses, timeouts and pumps interleave, a job never gets more
      answers than its limit, has ended exactly when nothing of it waits or is in flight, and
      has ended for certain once the limit is reached (`LimitReached`). */
  lemma EveryAnsweredRunEnds(s: State, j: JobId, request: JobRequest, events: seq<Event>)
    requires StateInv(s) && s.cfg.maxTaskAttempts >= 1 && Admissible(s, Submit(j, request))
    requires AdmissibleRun(SubmitJob(s, j, request), events) && Undisturbed(events, j)
    ensures var bound := AnswerLimit(s.cfg, request);
            var r := Run(SubmitJob(s, j, request), events);
            && Answers(events, j) <= bound
            && j in r.jobs.items
            && (r.jobs.items[j].Terminal() <==> Quiet(r.jobs.items[j]))
            && (Answers(events, j) == bound ==> r.jobs.items[j].Terminal())
  {
    hide StateInv, SubmitJob, AdmissibleRun, Undisturbed, Answers, Run, Measure, AnswerLimit, TasksOk, Quiet, Goes;
    var first := SubmitJob(s, j, request);
    assert Step(s, Submit(j, request)) == first;
    StepOk(s, Submit(j, request));
    CfgKept(s, Submit(j, request));
    SubmitMeasure(s, j, request);
    AnswersBounded(first, events, j);
    RunOk(first, events);
    SubmitGoes(s, j, request);
    RunGoes(first, events, j);
    var r := Run(first, events);
    QuietExactly(r, j);
    JobFacts(r, j);
    if Measure(s.cfg.maxTaskAttempts, r.jobs.items[j]) == 0 {
      NothingLeft(s.cfg.maxTaskAttempts, r.jobs.items[j], r.nodes.items.Keys);
    }
  }
}
