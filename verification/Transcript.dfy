/** From the request to the answer: what each worker is asked, and what becomes of what the
    workers said, over every run of a job. */
module Transcript {
  import opened Collections
  import opened Protocol
  import opened JobCore
  import opened Coordinator
  import opened RunProofs
  import opened Safety
  import opened Traces
  import opened Records
  import opened Submission
  import opened Termination

  // ---- what was said ----

  /** The words about task t of job j: tokens add up, a final answer replaces them unless
      it is empty. */
  function Said(events: seq<Event>, j: JobId, t: TaskId): string {
    if events == [] then ""
    else Hear(events[|events| - 1], j, t, Said(events[..|events| - 1], j, t))
  }

  function Hear(e: Event, j: JobId, t: TaskId, before: string): string {
    match e
    case TaskToken(i, u, _, token) => if i == j && u == t then before + token else before
    case TaskCompleted(i, u, _, output, _) => if i == j && u == t && output != "" then output else before
    case _ => before
  }

  function TextOf(job: Job, t: TaskId): string {
    if t < |job.tasks| then job.tasks[t].output else ""
  }

  lemma CarriedText(a: Job, b: Job, t: TaskId)
    requires TextCarries(a, b)
    ensures TextOf(b, t) == TextOf(a, t)
  {
    if t < |a.tasks| { assert SameText(a.tasks[t], b.tasks[t]); }
  }

  // ---- what was asked ----

  /** No task changes its question; at most a reduce is added. */
  ghost predicate QuestionsCarry(a: Job, b: Job) {
    && b.request == a.request && |a.tasks| <= |b.tasks|
    && (forall t | 0 <= t < |a.tasks| ::
          b.tasks[t].phase == a.tasks[t].phase && b.tasks[t].messages == a.tasks[t].messages)
    && (forall t | |a.tasks| <= t < |b.tasks| :: b.tasks[t].phase == ReducePhase)
  }

  lemma QuestionsTrans(a: Job, b: Job, c: Job)
    requires QuestionsCarry(a, b) && QuestionsCarry(b, c)
    ensures QuestionsCarry(a, c)
  {
  }

  lemma TextQuestions(a: Job, b: Job)
    requires TextCarries(a, b) && b.request == a.request
    ensures QuestionsCarry(a, b)
  {
    forall t | 0 <= t < |a.tasks|
      ensures b.tasks[t].phase == a.tasks[t].phase && b.tasks[t].messages == a.tasks[t].messages
    {
      assert SameText(a.tasks[t], b.tasks[t]);
    }
  }

  /** One step, seen from one job: its words are as heard, its questions are kept. */
  ghost predicate Listens(s: State, e: Event, j: JobId, t: TaskId, after: Job)
    requires j in s.jobs.items
  {
    && TextOf(after, t) == Hear(e, j, t, TextOf(s.jobs.items[j], t))
    && QuestionsCarry(s.jobs.items[j], after)
  }

  lemma TextListens(s: State, e: Event, j: JobId, t: TaskId, after: Job)
    requires j in s.jobs.items && TextCarries(s.jobs.items[j], after) && after.request == s.jobs.items[j].request
    requires !((e.TaskToken? || e.TaskCompleted?) && e.job == j)
    ensures Listens(s, e, j, t, after)
  {
    hide TextCarries, QuestionsCarry;
    CarriedText(s.jobs.items[j], after, t);
    TextQuestions(s.jobs.items[j], after);
  }

  lemma RecordListens(c: Ctx, e: Event, t: TaskId)
    requires Traced(c) && e.TaskCompleted? && Due(c.job, e)
    ensures TextOf(Outcome(c, e).job, t) == Hear(e, e.job, t, TextOf(c.job, t))
    ensures QuestionsCarry(c.job, Outcome(c, e).job)
  {
    hide Pump, Traced, TextCarries, LogCarries, NoteResult, FreeSlot;
    var d := Record(c, e.task, e.sender, e.output, e.metrics);
    RecordTraces(c, e.task, e.sender, e.output, e.metrics);
    PumpTraces(d);
    CarriedText(d.job, Pump(d).job, t);
    CarriesRequest(d, Pump(d));
    TextQuestions(d.job, Pump(d).job);
    QuestionsTrans(c.job, d.job, Pump(d).job);
  }

  lemma OutcomeListens(s: State, e: Event, t: TaskId)
    requires TracedState(s) && AboutOneJob(e) && e.job in s.jobs.items && Due(s.jobs.items[e.job], e)
    ensures Listens(s, e, e.job, t, Outcome(CtxOf(s, s.jobs.items[e.job]), e).job)
  {
    hide TracedState, Traced, LogCarries, TextCarries, Outcome, QuestionsCarry, Due;
    var c := CtxOf(s, s.jobs.items[e.job]);
    JobTraced(s, e.job);
    if e.TaskCompleted? {
      RecordListens(c, e, t);
    } else if e.TaskToken? {
      TokenListens(c, e, t);
    } else {
      OutcomeTraces(c, e);
      CarriesRequest(c, Outcome(c, e));
      TextListens(s, e, e.job, t, Outcome(c, e).job);
    }
  }

  lemma TokenListens(c: Ctx, e: Event, t: TaskId)
    requires e.TaskToken? && Due(c.job, e)
    ensures TextOf(Outcome(c, e).job, t) == Hear(e, e.job, t, TextOf(c.job, t))
    ensures QuestionsCarry(c.job, Outcome(c, e).job)
  {
  }

  // ---- losses and sweeps ----

  ghost predicate JobCarried(s: State, r: State, j: JobId)
    requires j in s.jobs.items
  {
    j in r.jobs.items && TextCarries(s.jobs.items[j], r.jobs.items[j])
    && r.jobs.items[j].request == s.jobs.items[j].request
  }

  lemma PutCarried(s: State, i: JobId, d: Ctx, r: State, j: JobId)
    requires i in s.jobs.items && j in s.jobs.items && Carries(CtxOf(s, s.jobs.items[i]), d)
    requires JobCarried(Put(s, i, d), r, j)
    ensures JobCarried(s, r, j)
  {
    hide LogCarries, TextCarries;
    CarriesRequest(CtxOf(s, s.jobs.items[i]), d);
    if i == j { TextCarriesTrans(s.jobs.items[j], d.job, r.jobs.items[j]); }
  }

  lemma SelfCarried(s: State, j: JobId)
    requires j in s.jobs.items
    ensures JobCarried(s, s, j)
  {
  }

  lemma {:induction false} LoseCarried(s: State, k: nat, n: NodeId, j: JobId)
    requires TracedState(s) && j in s.jobs.items
    ensures JobCarried(s, LoseFrom(s, k, n), j)
    decreases |s.jobs.keys| - k
  {
    hide NodeLost, Traced, LogCarries, TextCarries, TracedState, JobCarried;
    SelfCarried(s, j);
    if k < |s.jobs.keys| && s.jobs.keys[k] in s.jobs.items {
      var i := s.jobs.keys[k];
      var c := CtxOf(s, s.jobs.items[i]);
      JobTraced(s, i);
      LossTraces(c, n);
      PutTraced(s, i, NodeLost(c, n));
      LoseCarried(Put(s, i, NodeLost(c, n)), k + 1, n, j);
      PutCarried(s, i, NodeLost(c, n), LoseFrom(s, k, n), j);
    }
  }

  lemma {:induction false} SweepCarried(s: State, k: nat, j: JobId)
    requires TracedState(s) && j in s.jobs.items
    ensures JobCarried(s, SweepJobs(s, k), j)
    decreases |s.jobs.keys| - k
  {
    hide Sweep, Traced, LogCarries, TextCarries, TracedState, JobCarried;
    SelfCarried(s, j);
    if k < |s.jobs.keys| && s.jobs.keys[k] in s.jobs.items {
      var i := s.jobs.keys[k];
      var c := CtxOf(s, s.jobs.items[i]);
      JobTraced(s, i);
      SweepAllTraces(c);
      PutTraced(s, i, Sweep(c));
      SweepCarried(Put(s, i, Sweep(c)), k + 1, j);
      PutCarried(s, i, Sweep(c), SweepJobs(s, k), j);
    }
  }

  // ---- runs ----

  lemma StepListens(s: State, e: Event, j: JobId, t: TaskId)
    requires TracedState(s) && Admissible(s, e) && j in s.jobs.items && !(e.Submit? && e.job == j)
    ensures j in Step(s, e).jobs.items && Listens(s, e, j, t, Step(s, e).jobs.items[j])
  {
    hide TracedState, TextCarries, QuestionsCarry, Admissible, TotalLoad, LoseFrom, SweepJobs, Start, NextCursor;
    if AboutOneJob(e) && e.job in s.jobs.items {
      hide Step, Outcome, Listens, Due;
      AdmissibleDue(s, e);
      StepIsPut(s, e.job, e);
      if e.job == j { OutcomeListens(s, e, t); } else { OtherListens(s, e, j, t); }
    } else {
      if e.NodeDropped? {
        var r := s.(nodes := s.nodes.Delete(e.node));
        NodesTraced(s, r);
        LoseCarried(r, 0, e.node, j);
      } else if e.SweepDue? {
        SweepCarried(s, 0, j);
      } else {
        SelfCarried(s, j);
      }
      TextListens(s, e, j, t, Step(s, e).jobs.items[j]);
    }
  }

  lemma OtherListens(s: State, e: Event, j: JobId, t: TaskId)
    requires j in s.jobs.items && AboutOneJob(e) && e.job != j
    ensures Listens(s, e, j, t, s.jobs.items[j])
  {
  }

  /** In every run each task's text is what its workers said, and no question changes. */
  lemma {:induction false} RunListens(s: State, events: seq<Event>, j: JobId, t: TaskId)
    requires TracedState(s) && AdmissibleRun(s, events) && Undisturbed(events, j)
    requires j in s.jobs.items && TextOf(s.jobs.items[j], t) == ""
    ensures var r := Run(s, events);
            && j in r.jobs.items && TextOf(r.jobs.items[j], t) == Said(events, j, t)
            && QuestionsCarry(s.jobs.items[j], r.jobs.items[j])
    decreases |events|
  {
    hide TracedState, Step, Admissible, AdmissibleRun, QuestionsCarry, Hear, TextOf;
    if events == [] {
      SameQuestions(s.jobs.items[j]);
    } else {
      var front, last := events[..|events| - 1], events[|events| - 1];
      RunFront(s, events);
      RunTraced(s, front);
      RunListens(s, front, j, t);
      StepListens(Run(s, front), last, j, t);
      QuestionsTrans(s.jobs.items[j], Run(s, front).jobs.items[j], Run(s, events).jobs.items[j]);
    }
  }

  lemma SameQuestions(job: Job)
    ensures QuestionsCarry(job, job)
  {
  }

  // ---- from the submission on ----

  /** A worker is asked the conversation of a chat, or the instruction and its own item. */
  ghost predicate AsksRight(request: JobRequest, tasks: seq<Task>, t: TaskId)
    requires t < |tasks|
  {
    if request.kind == Chat then tasks[t].messages == request.messages
    else
      && |tasks[t].messages| == 1 && tasks[t].messages[0].role == "user"
      && tasks[t].messages[0].content ==
           request.itemInstruction + "\n\n" + (if t < |request.items| then request.items[t] else "")
  }

  lemma PlannedAsks(c: Ctx, cursor: nat, t: TaskId)
    requires c.job == NewJob(c.job.serial, c.job.request) && t < |Submission.Planned(c, cursor).job.tasks|
    ensures AsksRight(c.job.request, Submission.Planned(c, cursor).job.tasks, t)
    ensures Submission.Planned(c, cursor).job.tasks[t].phase != ReducePhase
  {
    hide Decide, DealAll;
  }

  lemma ChatPlan(c: Ctx, cursor: nat)
    requires c.job == NewJob(c.job.serial, c.job.request) && c.job.request.kind == Chat
    ensures |Submission.Planned(c, cursor).job.tasks| <= 1
  {
    hide Decide, DealAll;
  }

  ghost function PlanOf(s: State, request: JobRequest): Job {
    Submission.Planned(CtxOf(s, NewJob(s.nextSerial, request)), s.cursor).job
  }

  lemma FromPlan(s: State, j: JobId, request: JobRequest, events: seq<Event>, t: TaskId)
    requires TracedState(s) && Undisturbed(events, j)
    requires AdmissibleRun(SubmitJob(s, j, request), events)
    ensures var r := Run(SubmitJob(s, j, request), events);
            && j in r.jobs.items && r.jobs.items[j].request == request
            && TextOf(r.jobs.items[j], t) == Said(events, j, t)
            && QuestionsCarry(PlanOf(s, request), r.jobs.items[j])
  {
    hide TracedState, SubmitJob, AdmissibleRun, Undisturbed, Run, TextCarries, Said, Submission.Planned;
    var first := SubmitJob(s, j, request);
    var plan := PlanOf(s, request);
    SubmitTraced(s, j, request);
    UntouchedText(plan, t);
    CarriedText(plan, first.jobs.items[j], t);
    RunListens(first, events, j, t);
    TextQuestions(plan, first.jobs.items[j]);
    QuestionsTrans(plan, first.jobs.items[j], Run(first, events).jobs.items[j]);
  }

  lemma UntouchedText(job: Job, t: TaskId)
    requires Untouched(job.tasks)
    ensures TextOf(job, t) == ""
  {
  }

  /** Over every run of a job: each task but the reduce was asked about its own item of the
      request, or the chat, and the text of every task is what its workers said. */
  lemma AskedAndHeard(s: State, j: JobId, request: JobRequest, events: seq<Event>, t: TaskId)
    requires TracedState(s) && Undisturbed(events, j)
    requires AdmissibleRun(SubmitJob(s, j, request), events)
    ensures var r := Run(SubmitJob(s, j, request), events);
            && j in r.jobs.items && r.jobs.items[j].request == request
            && (t < |r.jobs.items[j].tasks| ==>
                  && r.jobs.items[j].tasks[t].output == Said(events, j, t)
                  && (r.jobs.items[j].tasks[t].phase != ReducePhase ==> AsksRight(request, r.jobs.items[j].tasks, t)))
  {
    hide TracedState, SubmitJob, AdmissibleRun, Undisturbed, Run, Said, AsksRight, Submission.Planned;
    FromPlan(s, j, request, events, t);
    var plan, job := PlanOf(s, request), Run(SubmitJob(s, j, request), events).jobs.items[j];
    if t < |plan.tasks| {
      PlannedAsks(CtxOf(s, NewJob(s.nextSerial, request)), s.cursor, t);
      AsksSame(request, plan.tasks, job.tasks, t);
    }
  }

  lemma AsksSame(request: JobRequest, a: seq<Task>, b: seq<Task>, t: TaskId)
    requires t < |a| && t < |b| && b[t].messages == a[t].messages && AsksRight(request, a, t)
    ensures AsksRight(request, b, t)
  {
  }

  // ---- tokens ----

  /** The tokens heard about jobs that were known then. */
  function Tokens(s: State, events: seq<Event>): nat {
    if events == [] then 0
    else
      var front, last := events[..|events| - 1], events[|events| - 1];
      Tokens(s, front) + if last.TaskToken? && last.job in Run(s, front).jobs.items then 1 else 0
  }

  lemma {:induction false} LoseTokens(s: State, k: nat, n: NodeId)
    ensures LoseFrom(s, k, n).tokenCount == s.tokenCount
    decreases |s.jobs.keys| - k
  {
    hide NodeLost;
    if k < |s.jobs.keys| && s.jobs.keys[k] in s.jobs.items {
      LoseTokens(Put(s, s.jobs.keys[k], NodeLost(CtxOf(s, s.jobs.items[s.jobs.keys[k]]), n)), k + 1, n);
    }
  }

  lemma {:induction false} SweepTokens(s: State, k: nat)
    ensures SweepJobs(s, k).tokenCount == s.tokenCount
    decreases |s.jobs.keys| - k
  {
    hide Sweep;
    if k < |s.jobs.keys| && s.jobs.keys[k] in s.jobs.items {
      SweepTokens(Put(s, s.jobs.keys[k], Sweep(CtxOf(s, s.jobs.items[s.jobs.keys[k]]))), k + 1);
    }
  }

  lemma StepTokens(s: State, e: Event)
    requires Admissible(s, e)
    ensures Step(s, e).tokenCount == s.tokenCount + if e.TaskToken? && e.job in s.jobs.items then 1 else 0
  {
    hide LoseFrom, SweepJobs, Start, NextCursor, Accepted, Declined, Token, Done, JobCore.TaskFailed, Cancel, DeferredPump,
         TotalLoad;
    match e
    case NodeDropped(n) => LoseTokens(s.(nodes := s.nodes.Delete(n)), 0, n);
    case SweepDue => SweepTokens(s, 0);
    case _ =>
  }

  /** The coordinator's token counter is the number of tokens heard. */
  lemma {:induction false} TokensCounted(s: State, events: seq<Event>)
    requires AdmissibleRun(s, events)
    ensures Run(s, events).tokenCount == s.tokenCount + Tokens(s, events)
    decreases |events|
  {
    hide Step, Admissible, AdmissibleRun;
    if events != [] {
      RunFront(s, events);
      TokensCounted(s, events[..|events| - 1]);
      StepTokens(Run(s, events[..|events| - 1]), events[|events| - 1]);
    }
  }
}
