/** The answer limit is reached: three items and their reduce, one attempt each, four
    answers. */
module LimitRun {
  import opened Collections
  import opened Protocol
  import opened Scheduler
  import opened JobCore
  import opened Coordinator
  import opened RunProofs
  import opened Safety
  import opened JobLiveness
  import opened RunLiveness
  import opened JobEvents
  import opened Termination
  import opened StuckRun

  const DONE := "done"

  function Finished1(t: TaskId, n: NodeId): Task
    requires t < 3
  {
    Out(t, n).(status := TaskStatus.Completed, output := DONE, metrics := Some(METRICS))
  }

  /** The first machine has gone on to the second item. */
  function OneLeft(): Ctx {
    Ctx(CFG, 0, JobWith([Finished1(0, 0), Out(1, 0), Finished1(2, 1)], Queues2([], [])), Two(BUSY, IDLE),
        SENDS + [Assignment(0, 1, 0, 0, 1, 0)], 0)
  }

  /** All items are done, the reduce is not sent yet. */
  function AllDone(): Ctx {
    OneLeft().(job := JobWith([Finished1(0, 0), Finished1(1, 0), Finished1(2, 1)], Queues2([], [])),
               nodes := Two(IDLE, IDLE))
  }

  function Recorded(): Ctx {
    Ctx(CFG, 0, JobWith([Finished1(0, 0), Fresh(1), Finished1(2, 1)], Queues2([1], [])), Two(IDLE, IDLE), SENDS, 0)
  }

  /** A result without a measured speed only frees the slot. */
  lemma SlotFreed()
    ensures NoteResult(FreeSlot(Two(BUSY, IDLE), Some(0)), 0, METRICS) == Two(IDLE, IDLE)
  {
  }

  lemma ItemRecorded()
    ensures Record(HalfDone(), 0, 0, DONE, METRICS) == Recorded()
  {
    hide Fresh, FreeSlot, NoteResult, Two;
    SlotFreed();
    var d := Record(HalfDone(), 0, 0, DONE, METRICS);
    assert d.job.tasks == Recorded().job.tasks;
  }

  lemma SlotUsed()
    ensures Two(IDLE, IDLE).Set(0, IDLE.(activeTasks := 1)) == Two(BUSY, IDLE)
  {
  }

  lemma ItemAssigned()
    ensures Assign(Recorded().(job := Recorded().job.(queues := Queues2([], []))), 1, 0) == OneLeft()
  {
    hide Fresh, Out;
    SentTask(1, 0);
    SlotUsed();
    var d := Assign(Recorded().(job := Recorded().job.(queues := Queues2([], []))), 1, 0);
    assert d.job.tasks == OneLeft().job.tasks;
  }

  lemma ItemSent()
    ensures Drain(Recorded(), 0, 1) == OneLeft()
  {
    hide Drain, Fresh, Out, Assign;
    assert [1] == [1] + [];
    SendOne(Recorded(), 0, 1, []);
    assert Queues2([1], []).Set(0, []) == Queues2([], []);
    ItemAssigned();
  }

  lemma NothingToSteal(e: Ctx)
    requires e.job.queues == Queues2([], [])
    ensures Steal(e, STEAL_ROUNDS) == e
  {
    hide FirstIdle, Dispatch;
    assert LongQueues([0, 1], e.job.queues) == LongQueues([1], e.job.queues) by { assert [0, 1][1..] == [1]; }
    assert LongQueues([1], e.job.queues) == LongQueues([], e.job.queues) by { assert [1][1..] == []; }
    assert !CanSteal(e);
  }

  lemma SecondAnswer()
    ensures Done(HalfDone(), 0, 0, DONE, METRICS) == OneLeft()
  {
    hide Dispatch, Drain, MaybeFinish, Steal, FirstIdle, Record;
    ItemRecorded();
    ItemSent();
    var c, d := Recorded(), OneLeft();
    NoQueue(d, 1);
    assert DrainAll(c, 0, 4, false) == DrainAll(d, 1, 3, false) == DrainAll(d, 2, 2, false) == d;
    NothingToSteal(d);
    NotYet(d, 1);
  }

  lemma NotYet(d: Ctx, t: TaskId)
    requires t < |d.job.tasks| && d.job.tasks[t].phase == MapPhase && d.job.tasks[t].InFlight()
    ensures MaybeFinish(d) == d
  {
    assert MapsPending(d.job.tasks);
  }

  lemma LastRecorded()
    ensures Record(OneLeft(), 1, 0, DONE, METRICS) == AllDone()
  {
    hide Fresh, FreeSlot, NoteResult, Two;
    SlotFreed();
    var d := Record(OneLeft(), 1, 0, DONE, METRICS);
    assert d.job.tasks == AllDone().job.tasks;
  }

  lemma NothingPending()
    ensures !MapsPending(AllDone().job.tasks)
  {
    var tasks := AllDone().job.tasks;
    forall t | 0 <= t < |tasks|
      ensures tasks[t].Finished()
    {
    }
  }

  lemma ThreeOutputs()
    ensures |MapOutputs(AllDone().job.tasks)| == 3
  {
    hide JobCore.Trim;
    var tasks := AllDone().job.tasks;
    assert tasks[1..] == [Finished1(1, 0), Finished1(2, 1)];
    assert tasks[1..][1..] == [Finished1(2, 1)];
    assert tasks[1..][1..][1..] == [];
  }

  lemma ReduceWanted()
    ensures MapOutputs(AllDone().job.tasks) != [] && WantsReduce(AllDone().job)
  {
    hide JobCore.Trim, MapOutputs;
    ThreeOutputs();
    SumStays();
  }

  lemma SumStays()
    ensures JobCore.Trim(REQUEST.reduceInstruction) != ""
  {
    assert !IsSpace('s') && !IsSpace('m');
  }

  /** The items are done and the reduce is out. */
  function Reducing(): Ctx {
    Done(OneLeft(), 1, 0, DONE, METRICS)
  }

  /** The third answer sends the reduce to one of the two machines. */
  lemma ThirdAnswer() returns (n: NodeId)
    ensures AnswerDue(Reducing().job, 3, n) && Reducing().cfg == CFG && Reducing().now == 0
  {
    hide Dispatch, Drain, Steal, Record, PickReduceNode, Views, WantsReduce, MapsPending, MapOutputs, ReducePrompt;
    LastRecorded();
    ReduceWanted();
    NothingPending();
    var c := AllDone();
    NoQueue(c, 0);
    NoQueue(c, 1);
    assert DrainAll(c, 0, 4, false) == DrainAll(c, 1, 3, false) == DrainAll(c, 2, 2, false) == c;
    NothingToSteal(c);
    ReducerFound();
    n := PickReduceNode(CFG, Views(c.nodes), REQUEST.model).value.nodeId;
    assert MaybeFinish(c) == Dispatch(StartReduce(c), 3, n);
    ReduceSent(n);
  }

  lemma ReducerFound()
    ensures var r := PickReduceNode(CFG, Views(Two(IDLE, IDLE)), REQUEST.model);
            r.Some? && r.value.nodeId in Two(IDLE, IDLE).items
  {
    hide PickReduceNode, Views, Eligible;
    ViewsOfTwo();
    IdleIsEligible();
    assert NodeView(0, IDLE) in Views(Two(IDLE, IDLE));
  }

  lemma ReduceSent(n: NodeId)
    requires n in Two(IDLE, IDLE).items
    ensures var d := Dispatch(StartReduce(AllDone()), 3, n); AnswerDue(d.job, 3, n) && d.cfg == CFG && d.now == 0
  {
    hide Requeue, ReducePrompt;
  }

  // ---- the run ----

  function Ready(): State {
    Run(Start0(CFG, 0), [NodeJoined(0, IDLE), NodeJoined(1, IDLE)])
  }

  function FourAnswers(n: NodeId): seq<Event> {
    [Event.TaskCompleted(7, 2, 1, DONE, METRICS), Event.TaskCompleted(7, 0, 0, DONE, METRICS),
     Event.TaskCompleted(7, 1, 0, DONE, METRICS), Event.TaskCompleted(7, 3, n, DONE, METRICS)]
  }

  lemma FirstStates(n: NodeId)
    ensures var first, events := SubmitJob(Ready(), 7, REQUEST), FourAnswers(n);
            && Ready().cfg == CFG
            && Run(first, events[..0]) == WithJob(Started())
            && Run(first, events[..1]) == WithJob(HalfDone())
            && Run(first, events[..2]) == WithJob(OneLeft())
  {
    hide Step, Started, HalfDone, OneLeft, Done, SubmitJob;
    var first, events := SubmitJob(Ready(), 7, REQUEST), FourAnswers(n);
    ReadyIs();
    assert Step(Ready(), Event.Submit(7, REQUEST)) == first by { SubmitStep(); }
    Submits();
    assert events[..0] == [];
    RunOne(first, events, 0);
    RunOne(first, events, 1);
    Answered();
    SecondAnswerStep();
  }

  lemma ReadyIs()
    ensures Ready() == Start0(CFG, 0).(nodes := Two(IDLE, IDLE))
  {
    hide Step;
    var events := [NodeJoined(0, IDLE), NodeJoined(1, IDLE)];
    assert events[..2] == events && events[..0] == [];
    RunOne(Start0(CFG, 0), events, 0);
    RunOne(Start0(CFG, 0), events, 1);
    Joins();
  }

  lemma SubmitStep()
    ensures Step(Ready(), Event.Submit(7, REQUEST)) == SubmitJob(Ready(), 7, REQUEST)
  {
    hide SubmitJob, Ready;
  }

  lemma SecondAnswerStep()
    ensures Step(WithJob(HalfDone()), Event.TaskCompleted(7, 0, 0, DONE, METRICS)) == WithJob(OneLeft())
  {
    hide Done;
    SecondAnswer();
    StepsOfJob(HalfDone(), OneLeft());
  }

  lemma ThirdAnswerStep()
    requires Reducing().cfg == CFG && Reducing().now == 0
    ensures Step(WithJob(OneLeft()), Event.TaskCompleted(7, 1, 0, DONE, METRICS)) == WithJob(Reducing())
  {
    hide Done;
    StepsOfJob(OneLeft(), Reducing());
  }

  lemma OneLeftDue()
    ensures AnswerDue(HalfDone().job, 0, 0) && AnswerDue(OneLeft().job, 1, 0)
  {
  }

  /** Four answers, each from the worker that owes it. */
  lemma FourDue(n: NodeId)
    requires AnswerDue(Reducing().job, 3, n) && Reducing().cfg == CFG && Reducing().now == 0
    ensures AdmissibleRun(SubmitJob(Ready(), 7, REQUEST), FourAnswers(n))
  {
    hide Step, Run, Started, HalfDone, OneLeft, Reducing, AnswerDue, SubmitJob, Ready;
    var first, events := SubmitJob(Ready(), 7, REQUEST), FourAnswers(n);
    FirstStates(n);
    RunOne(first, events, 2);
    ThirdAnswerStep();
    AnswersAreDue();
    OneLeftDue();
    assert Admissible(Run(first, events[..0]), events[0]);
    assert Admissible(Run(first, events[..1]), events[1]);
    assert Admissible(Run(first, events[..2]), events[2]);
    assert Admissible(Run(first, events[..3]), events[3]);
  }

  lemma CountOne(events: seq<Event>, k: nat)
    requires k < |events| && events[k].TaskCompleted? && events[k].job == 7
    ensures Answers(events[..k + 1], 7) == Answers(events[..k], 7) + 1
  {
    assert events[..k + 1][..k] == events[..k];
  }

  lemma FourCounted(n: NodeId)
    ensures Answers(FourAnswers(n), 7) == 4
  {
    hide Answers;
    var events := FourAnswers(n);
    CountOne(events, 0);
    CountOne(events, 1);
    CountOne(events, 2);
    CountOne(events, 3);
    assert events[..4] == events && events[..0] == [];
    NoneCounted();
  }

  lemma NoneCounted()
    ensures Answers([], 7) == 0
  {
  }

  lemma LimitIsFour()
    ensures AnswerLimit(CFG, REQUEST) == 4
  {
    hide JobCore.Trim;
    SumStays();
  }

  ghost predicate EndedAt(s: State, j: JobId) {
    j in s.jobs.items && s.jobs.items[j].Terminal()
  }

  /** A job that gets every answer its limit allows, and has ended with the last one. */
  lemma LimitReached()
    ensures exists n :: var first, events := SubmitJob(Ready(), 7, REQUEST), FourAnswers(n);
              && AdmissibleRun(first, events) && Undisturbed(events, 7)
              && Answers(events, 7) == AnswerLimit(CFG, REQUEST)
              && EndedAt(Run(first, events), 7)
  {
    hide Run, Reducing, SubmitJob, AdmissibleRun, AnswerLimit, Answers, Ready;
    var n := ThirdAnswer();
    FourDue(n);
    FourCounted(n);
    LimitIsFour();
    ReadyOk();
    EveryAnsweredRunEnds(Ready(), 7, REQUEST, FourAnswers(n));
  }

  lemma ReadyOk()
    ensures StateInv(Ready()) && Ready().cfg == CFG && Admissible(Ready(), Event.Submit(7, REQUEST))
  {
    hide StateInv;
    ReadyIs();
    Joins();
    var s := Start0(CFG, 0);
    StartOk(CFG, 0);
    StepOk(s, NodeJoined(0, IDLE));
    assert Step(s, NodeJoined(0, IDLE)).nodes.items.Keys == {0};
    CfgKept(s, NodeJoined(0, IDLE));
    StepOk(Step(s, NodeJoined(0, IDLE)), NodeJoined(1, IDLE));
  }

  // ---- both ends of a run ----

  function Rejected(): seq<Event> {
    [Event.TaskCompleted(7, 2, 1, DONE, METRICS), Event.TaskRejected(7, 0, 0)]
  }

  lemma RejectedRun()
    ensures var first, events := SubmitJob(Ready(), 7, REQUEST), Rejected();
            AdmissibleRun(first, events) && Run(first, events) == WithJob(Declined(HalfDone(), 0))
  {
    hide Step, Run, Started, HalfDone, Declined, AnswerDue, SubmitJob, Ready;
    var first, events := SubmitJob(Ready(), 7, REQUEST), Rejected();
    FirstStates(0);
    assert events[..0] == FourAnswers(0)[..0] && events[..1] == FourAnswers(0)[..1] && events[..2] == events;
    RunOne(first, events, 1);
    Answered();
    AnswersAreDue();
    assert Admissible(Run(first, events[..0]), events[0]);
    assert Admissible(Run(first, events[..1]), events[1]);
  }

  lemma ReadyRests()
    ensures Resting(Ready()) && SocketsOpen(Ready())
  {
    hide Step;
    ReadyIs();
  }

  /** A run that meets every assumption of `RunLiveness.EndsUnlessStuck`, stranded or ended. */
  ghost predicate Leads(events: seq<Event>, stuck: bool) {
    var first := SubmitJob(Ready(), 7, REQUEST);
    && AdmissibleRun(first, events) && SteadyRun(events)
    && (Stuck(first, events, 7) <==> stuck)
    && (EndedAt(Run(first, events), 7) <==> !stuck)
  }

  lemma RejectedLeads()
    ensures Leads(Rejected(), true)
  {
    hide Stuck, Run, Declined, HalfDone, SubmitJob, AdmissibleRun, Ready, Resting, SocketsOpen, StateInv;
    ReadyOk();
    ReadyRests();
    RejectedRun();
    StrandedByRejection();
    EndsUnlessStuck(Ready(), 7, REQUEST, Rejected());
    NotLive(Declined(HalfDone(), 0).job);
  }

  lemma CompletedLeads(n: NodeId)
    requires AdmissibleRun(SubmitJob(Ready(), 7, REQUEST), FourAnswers(n))
    requires EndedAt(Run(SubmitJob(Ready(), 7, REQUEST), FourAnswers(n)), 7)
    ensures Leads(FourAnswers(n), false)
  {
    hide Stuck, Run, SubmitJob, AdmissibleRun, Ready, Resting, SocketsOpen, StateInv;
    ReadyOk();
    ReadyRests();
    EndsUnlessStuck(Ready(), 7, REQUEST, FourAnswers(n));
  }

  /** One submission, two runs: in one a rejection strands the job, in the other every
      answer is a completion and the job ends. */
  lemma EitherWay()
    ensures StateInv(Ready()) && Resting(Ready()) && SocketsOpen(Ready())
    ensures (exists events :: Leads(events, true)) && (exists events :: Leads(events, false))
  {
    hide Leads, Run, SubmitJob, AdmissibleRun, AnswerLimit, Answers, Ready, Resting, SocketsOpen, StateInv;
    ReadyOk();
    ReadyRests();
    RejectedLeads();
    LimitReached();
    var n :| AdmissibleRun(SubmitJob(Ready(), 7, REQUEST), FourAnswers(n))
             && EndedAt(Run(SubmitJob(Ready(), 7, REQUEST), FourAnswers(n)), 7);
    CompletedLeads(n);
  }
}
