/** How a job ends, in terms of its tasks: when, with what status, and with which output. */
module Outcomes {
  import opened Collections
  import opened Protocol
  import opened JobCore
  import opened JobInvariants
  import opened Coordinator
  import opened RunProofs
  import opened Safety
  import opened Records
  import opened Submission
  import opened Termination
  import opened Guarantees
  import opened TextLaws
  import opened Transcript
  import Scheduler

  // ---- which output ----

  lemma OnlyReduce(max: int, job: Job, reach: set<NodeId>, r: TaskId)
    requires TasksOk(max, job, reach) && r < |job.tasks| && job.tasks[r].phase == ReducePhase
    ensures FindReduce(job.tasks) == Some(r)
  {
    assert TaskOk(max, job, r, reach);
    var first := FindReduce(job.tasks);
    if first.Some? { assert TaskOk(max, job, first.value, reach); }
  }

  /** The output of a completed job is its reduce's answer if that is more than spaces. */
  lemma ReduceIsOutput(s: State, j: JobId, r: TaskId)
    requires StateInv(s) && j in s.jobs.items && s.jobs.items[j].status == JobCompleted
    requires r < |s.jobs.items[j].tasks| && s.jobs.items[j].tasks[r].phase == ReducePhase
    requires s.jobs.items[j].tasks[r].status == Completed && Trim(s.jobs.items[j].tasks[r].output) != ""
    ensures s.jobs.items[j].output == Trim(s.jobs.items[j].tasks[r].output)
  {
    hide StateInv, TasksOk, ReduceOk, Trim, FindReduce;
    JobFacts(s, j);
    OnlyReduce(s.cfg.maxTaskAttempts, s.jobs.items[j], s.nodes.items.Keys, r);
  }

  /** Otherwise it is the outputs of the successful maps, of which there is at least one. */
  lemma MapsAreOutput(s: State, j: JobId)
    requires StateInv(s) && j in s.jobs.items && s.jobs.items[j].status == JobCompleted
    requires !UsableReduce(s.jobs.items[j])
    ensures MapOutputs(s.jobs.items[j].tasks) != []
    ensures s.jobs.items[j].output == Join(MapOutputs(s.jobs.items[j].tasks), "\n\n")
  {
    hide StateInv, TasksOk, ReduceOk, UsableReduce, MapOutputs, Join, FinalOutput;
    JobFacts(s, j);
    PlainOutput(s.jobs.items[j]);
  }

  lemma ChatHasOneTask(s: State, j: JobId)
    requires StateInv(s) && j in s.jobs.items && s.jobs.items[j].request.kind == Chat
    ensures forall t | 0 <= t < |s.jobs.items[j].tasks| :: s.jobs.items[j].tasks[t].phase != ReducePhase
  {
    hide StateInv, TerminalOk, MapOutputs;
    JobFacts(s, j);
    var job := s.jobs.items[j];
    forall t | 0 <= t < |job.tasks|
      ensures job.tasks[t].phase != ReducePhase
    {
      assert TaskOk(s.cfg.maxTaskAttempts, job, t, s.nodes.items.Keys);
    }
  }

  lemma OneOutput(task: Task)
    requires MapOutputs([task]) != []
    ensures MapOutputs([task]) == [Trim(task.output)] && Join([Trim(task.output)], "\n\n") == Trim(task.output)
  {
    hide Trim;
    assert [task][1..] == [];
  }

  /** A completed chat answers with what its workers said about it, trimmed. */
  lemma ChatAnswers(s: State, j: JobId, request: JobRequest, events: seq<Event>)
    requires StateInv(s) && TracedState(s) && s.cfg.maxTaskAttempts >= 1 && Admissible(s, Submit(j, request))
    requires AdmissibleRun(SubmitJob(s, j, request), events) && Undisturbed(events, j) && request.kind == Chat
    ensures var r := Run(SubmitJob(s, j, request), events);
            && j in r.jobs.items
            && (r.jobs.items[j].status == JobCompleted ==> r.jobs.items[j].output == Trim(Said(events, j, 0)))
  {
    hide StateInv, TracedState, SubmitJob, AdmissibleRun, Undisturbed, Run, Said, Admissible, Trim, MapOutputs, Join;
    var first := SubmitJob(s, j, request);
    assert Step(s, Submit(j, request)) == first by { SubmitStepIs(s, j, request); }
    StepOk(s, Submit(j, request));
    CfgKept(s, Submit(j, request));
    RunOk(first, events);
    AskedAndHeard(s, j, request, events, 0);
    var r := Run(first, events);
    if r.jobs.items[j].status == JobCompleted {
      ChatHasOneTask(r, j);
      NoReduce(r.jobs.items[j]);
      MapsAreOutput(r, j);
      ChatTasks(s, j, request, events);
      var tasks := r.jobs.items[j].tasks;
      assert tasks == [tasks[0]];
      OneOutput(tasks[0]);
    }
  }

  lemma SubmitStepIs(s: State, j: JobId, request: JobRequest)
    ensures Step(s, Submit(j, request)) == SubmitJob(s, j, request)
  {
    hide SubmitJob;
  }

  lemma NoReduce(job: Job)
    requires forall t | 0 <= t < |job.tasks| :: job.tasks[t].phase != ReducePhase
    ensures !UsableReduce(job)
  {
  }

  lemma ChatTasks(s: State, j: JobId, request: JobRequest, events: seq<Event>)
    requires TracedState(s) && AdmissibleRun(SubmitJob(s, j, request), events) && Undisturbed(events, j)
    requires request.kind == Chat && j in Run(SubmitJob(s, j, request), events).jobs.items
    requires var job := Run(SubmitJob(s, j, request), events).jobs.items[j];
             && MapOutputs(job.tasks) != []
             && forall t | 0 <= t < |job.tasks| :: job.tasks[t].phase != ReducePhase
    ensures |Run(SubmitJob(s, j, request), events).jobs.items[j].tasks| == 1
  {
    hide TracedState, SubmitJob, AdmissibleRun, Undisturbed, Run, Submission.Planned, Said;
    FromPlan(s, j, request, events, 0);
    ChatPlan(CtxOf(s, NewJob(s.nextSerial, request)), s.cursor);
    NothingToJoin(Run(SubmitJob(s, j, request), events).jobs.items[j]);
  }

  lemma NothingToJoin(job: Job)
    ensures MapOutputs(job.tasks) != [] ==> job.tasks != []
  {
  }

  // ---- what the reduce is asked ----

  /** The reduce is asked the instruction, and the outputs of the successful maps under
      their numbers from one on. */
  lemma ReduceAsks(s: State, j: JobId)
    requires StateInv(s) && j in s.jobs.items && s.jobs.items[j].reduceDispatched
    ensures var job := s.jobs.items[j];
            var outputs := MapOutputs(job.tasks);
            && job.tasks != [] && |outputs| >= 2
            && exists parts: seq<string> ::
                 && |parts| == |outputs|
                 && (forall i | 0 <= i < |parts| :: parts[i] == "[" + Digits(i + 1) + "] " + outputs[i])
                 && job.tasks[|job.tasks| - 1].messages
                      == [ChatMessage("user", job.request.reduceInstruction + "\n\n" + Join(parts, "\n\n"))]
  {
    hide StateInv, TasksOk, TerminalOk, MapOutputs, Numbered, Join, Digits;
    JobFacts(s, j);
    var outputs := MapOutputs(s.jobs.items[j].tasks);
    var parts := Numbered(outputs, 1);
    NumberedLength(outputs, 1);
    forall i | 0 <= i < |parts|
      ensures parts[i] == "[" + Digits(i + 1) + "] " + outputs[i]
    {
      NumberedAt(outputs, 1, i);
    }
  }

  // ---- when ----

  ghost predicate MapDone(tasks: seq<Task>, t: TaskId) {
    t < |tasks| && tasks[t].phase != ReducePhase && tasks[t].status == Completed
  }

  ghost predicate MapsOver(tasks: seq<Task>) {
    forall t | 0 <= t < |tasks| && tasks[t].phase != ReducePhase ::
      tasks[t].status == Completed || tasks[t].status == Failed
  }

  lemma DoneShift(tasks: seq<Task>, t: TaskId)
    requires tasks != []
    ensures MapDone(tasks[1..], t) <==> MapDone(tasks, t + 1)
  {
  }

  lemma {:induction false} OutputsSome(tasks: seq<Task>)
    ensures MapOutputs(tasks) != [] <==> exists t: TaskId :: MapDone(tasks, t)
  {
    hide Trim;
    if tasks != [] && !MapDone(tasks, 0) {
      OutputsSome(tasks[1..]);
      if t: TaskId :| MapDone(tasks[1..], t) { DoneShift(tasks, t); }
      if t: TaskId :| MapDone(tasks, t) { DoneShift(tasks, t - 1); }
    }
  }

  lemma OutputsCons(tasks: seq<Task>)
    requires tasks != []
    ensures |MapOutputs(tasks)| == |MapOutputs(tasks[1..])| + if MapDone(tasks, 0) then 1 else 0
  {
    hide Trim;
  }

  ghost predicate TwoDone(tasks: seq<Task>) {
    exists t: TaskId, u: TaskId :: t < u && MapDone(tasks, t) && MapDone(tasks, u)
  }

  lemma TwoShift(tasks: seq<Task>)
    requires tasks != []
    ensures TwoDone(tasks) <==>
              TwoDone(tasks[1..]) || (MapDone(tasks, 0) && exists t: TaskId :: MapDone(tasks[1..], t))
  {
    hide MapDone;
    var rest := tasks[1..];
    if t: TaskId, u: TaskId :| t < u && MapDone(tasks, t) && MapDone(tasks, u) {
      DoneShift(tasks, u - 1);
      if t > 0 { DoneShift(tasks, t - 1); }
    }
    if t: TaskId, u: TaskId :| t < u && MapDone(rest, t) && MapDone(rest, u) {
      DoneShift(tasks, t);
      DoneShift(tasks, u);
    }
    if t: TaskId :| MapDone(rest, t) { DoneShift(tasks, t); }
  }

  lemma {:induction false} OutputsTwo(tasks: seq<Task>)
    ensures |MapOutputs(tasks)| >= 2 <==> TwoDone(tasks)
  {
    hide MapDone, TwoDone, MapOutputs;
    if tasks == [] {
      NoneDone();
    } else {
      OutputsCons(tasks);
      OutputsSome(tasks[1..]);
      OutputsTwo(tasks[1..]);
      TwoShift(tasks);
    }
  }

  lemma NoneDone()
    ensures !TwoDone([]) && MapOutputs([]) == []
  {
  }

  /** Some machine could take the reduce right now. */
  ghost predicate Reducible(c: Ctx) {
    exists n :: n in c.nodes.items && Scheduler.Eligible(c.cfg, c.nodes.items[n], c.job.request.model, false, false)
  }

  ghost predicate AsksReduce(c: Ctx) {
    && c.job.request.kind == Batch && !AllSpace(c.job.request.reduceInstruction)
    && TwoDone(c.job.tasks)
  }

  ghost predicate ReduceOpen(job: Job) {
    exists r :: 0 <= r < |job.tasks| && job.tasks[r].phase == ReducePhase && !job.tasks[r].Finished()
  }

  lemma ReducerExists(c: Ctx)
    requires c.nodes.Valid()
    ensures Scheduler.PickReduceNode(c.cfg, Scheduler.Views(c.nodes), c.job.request.model).Some? <==> Reducible(c)
  {
    hide Scheduler.PickReduceNode, Scheduler.Views, Scheduler.Eligible;
    var views := Scheduler.Views(c.nodes);
    if Reducible(c) {
      var n :| n in c.nodes.items && Scheduler.Eligible(c.cfg, c.nodes.items[n], c.job.request.model, false, false);
      Scheduler.ViewOf(c.nodes, n);
    }
  }

  lemma WantsExactly(c: Ctx)
    ensures WantsReduce(c.job) <==> AsksReduce(c)
  {
    hide Trim, MapOutputs, AllSpace, TwoDone;
    OutputsTwo(c.job.tasks);
    BlankExactly(c.job.request.reduceInstruction);
  }

  lemma OpenExactly(c: Ctx, reach: set<NodeId>, loose: set<TaskId>)
    requires Inv(c, reach, loose)
    ensures ReduceOpen(c.job) <==>
              FindReduce(c.job.tasks).Some? && !c.job.tasks[FindReduce(c.job.tasks).value].Finished()
  {
    hide Conserved, Reachable, ReduceOk, PipelineOk, TerminalOk, TokensOk, LogOk, Covered, FindReduce;
    if ReduceOpen(c.job) {
      var r :| 0 <= r < |c.job.tasks| && c.job.tasks[r].phase == ReducePhase && !c.job.tasks[r].Finished();
      OnlyReduce(c.cfg.maxTaskAttempts, c.job, reach, r);
    }
  }

  /** The end-of-job check of a running job: it waits while a map is open; fails without a
      successful one; asks for a reduce, once, if the request wants one of two or more
      outputs and a machine is free for it; waits for an open reduce; and completes. */
  lemma FinishDecides(c: Ctx, reach: set<NodeId>)
    requires Inv(c, reach, {}) && c.job.Active()
    ensures var d := MaybeFinish(c);
            if !MapsOver(c.job.tasks) then d == c
            else if !exists t: TaskId :: MapDone(c.job.tasks, t) then
              d.job == c.job.(status := JobFailed) && d.nodes == c.nodes
            else if AsksReduce(c) && !c.job.reduceDispatched && Reducible(c) then
              d.job.reduceDispatched && |d.job.tasks| == |c.job.tasks| + 1
            else if ReduceOpen(c.job) then d == c
            else
              && d.job == c.job.(status := JobCompleted, output := d.job.output)
              && d.completedCount == c.completedCount + 1
  {
    hide Inv, Dispatch, MapOutputs, FinalOutput, WantsReduce, AsksReduce, ReducePrompt, Reducible, MapDone, FindReduce,
         ReduceOpen, Scheduler.PickReduceNode, Scheduler.Views;
    OutputsSome(c.job.tasks);
    NodesAreValid(c, reach);
    ReducerExists(c);
    WantsExactly(c);
    OpenExactly(c, reach, {});
    PendingExactly(c.job.tasks);
  }

  lemma PendingExactly(tasks: seq<Task>)
    ensures MapsPending(tasks) <==> !MapsOver(tasks)
  {
  }

  lemma NodesAreValid(c: Ctx, reach: set<NodeId>)
    requires Inv(c, reach, {})
    ensures c.nodes.Valid()
  {
  }
}
