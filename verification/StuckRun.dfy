/** A short run that leaves a job stuck: two machines, three items, one attempt each. */
module StuckRun {
  import opened Collections
  import opened Protocol
  import opened Sorting
  import opened Scheduler
  import opened JobCore
  import opened Submission
  import opened Coordinator
  import opened Safety
  import opened JobEvents
  import opened JobLiveness
  import Analyzer
  import Allocation

  const CFG := Config(1, 1000, 4, true, true, true)

  const IDLE := RegisteredNode(0,
    Profile(DesktopWorker, 1.0, 4096, 1.0, Runtime(true, ["m"], [], None)),
    GovernorReport(GovernorState.Available, 0.8, 1, 0.0, false), NO_METRICS, [], 0, true, true)

  const BUSY := IDLE.(activeTasks := 1)

  const REQUEST := JobRequest(Batch, ModelEntry("m", 1000), RoundRobin, [], ["a", "b", "c"], "", "sum")

  function Two(a: RegisteredNode, b: RegisteredNode): Nodes {
    OrderedMap([0, 1], map[0 := a, 1 := b])
  }

  function Queues2(q: seq<TaskId>, r: seq<TaskId>): Queues {
    OrderedMap([0, 1], map[0 := q, 1 := r])
  }

  // ---- planning ----

  lemma ViewsOfTwo()
    ensures Views(Two(IDLE, IDLE)) == [NodeView(0, IDLE), NodeView(1, IDLE)]
  {
    var nodes := Two(IDLE, IDLE);
    assert nodes.keys[1..] == [1] && nodes.keys[1..][1..] == [];
    assert Listed(nodes.keys, nodes.items) == [NodeView(0, IDLE)] + ([NodeView(1, IDLE)] + Listed([], nodes.items));
    AlreadySorted([NodeView(0, IDLE), NodeView(1, IDLE)], ByThroughput);
  }

  lemma IdleIsEligible()
    ensures Eligible(CFG, IDLE, REQUEST.model, false, false)
  {
  }

  lemma EligibleOfTwo()
    ensures EligibleNodes(CFG, [NodeView(0, IDLE), NodeView(1, IDLE)], REQUEST.model, false, false)
         == [NodeView(0, IDLE), NodeView(1, IDLE)]
  {
    hide Eligible;
    IdleIsEligible();
    var views, last := [NodeView(0, IDLE), NodeView(1, IDLE)], [NodeView(1, IDLE)];
    assert views[1..] == last && last[1..] == [];
    assert EligibleNodes(CFG, last, REQUEST.model, false, false) == last;
  }

  lemma ClusterOfTwo()
    ensures ClusterFor(RoundRobin, [NodeView(0, IDLE), NodeView(1, IDLE)], REQUEST.model, true, 3, 0)
         == Cluster([0, 1], map[0 := 0.5, 1 := 0.5])
  {
    hide StableSort, EffectiveScore;
    var eligible := [NodeView(0, IDLE), NodeView(1, IDLE)];
    var candidates := ToCandidates(eligible, REQUEST.model);
    AlreadySorted(candidates, ById);
    var chosen := Rotate(candidates, 0, 2);
    assert chosen == candidates;
    assert chosen[..1] == [chosen[0]] && chosen[..1][..0] == [];
    assert EvenShares(chosen, 0.5) == EvenShares(chosen[..1], 0.5)[1 := 0.5];
    assert Ids(chosen) == [0, 1];
  }

  function QuotasOfTwo(): seq<Allocation.Quota> {
    [Allocation.Quota(0, 1.5), Allocation.Quota(1, 1.5)]
  }

  lemma FloorsOfTwo()
    ensures Allocation.FloorSum(QuotasOfTwo()) == 2
    ensures Allocation.FloorCounts(QuotasOfTwo()) == map[0 := 1, 1 := 1]
  {
    var first := [Allocation.Quota(0, 1.5)];
    assert QuotasOfTwo()[..1] == first && first[..0] == [];
    assert Allocation.FloorSum(first) == 1;
    assert Allocation.FloorCounts(first) == map[0 := 1];
  }

  lemma ExtraOfTwo()
    ensures Allocation.TopUp(map[0 := 1, 1 := 1], QuotasOfTwo(), 0, 1) == map[0 := 2, 1 := 1]
  {
    assert Allocation.TopUp(map[0 := 2, 1 := 1], QuotasOfTwo(), 1, 0) == map[0 := 2, 1 := 1];
  }

  lemma CountsOfTwo()
    ensures Allocation.Allocate([0, 1], map[0 := 0.5, 1 := 0.5], 3) == map[0 := 2, 1 := 1]
  {
    hide Allocation.FloorSum, Allocation.FloorCounts, Allocation.TopUp, StableSort;
    assert Allocation.Quotas([0, 1], map[0 := 0.5, 1 := 0.5], 3) == QuotasOfTwo();
    FloorsOfTwo();
    AlreadySorted(QuotasOfTwo(), Allocation.ByRemainder);
    ExtraOfTwo();
  }

  lemma DealtToTwo(counts: Allocation.Counts)
    requires counts == map[0 := 2, 1 := 1]
    ensures Deal([0, 1], counts, 3, Dealt(EmptyMap(), 0)) == Dealt(Queues2([0, 1], [2]), 3)
  {
    assert Range(0, 2) == [0, 1] && Range(2, 3) == [2];
    assert [] + [0] == [0] && [0] + [1] == [0, 1];
    var first := DealOne(0, counts, 3, Dealt(EmptyMap(), 0));
    assert first == Dealt(OrderedMap([0], map[0 := [0, 1]]), 2);
    var second := DealOne(1, counts, 3, first);
    assert second == Dealt(Queues2([0, 1], [2]), 3);
    assert [0, 1][1..] == [1] && [1][1..] == [];
    assert Deal([1], counts, 3, first) == Deal([], counts, 3, second);
  }

  lemma QueuesOfTwo()
    ensures DealAll(Cluster([0, 1], map[0 := 0.5, 1 := 0.5]), 3) == Queues2([0, 1], [2])
  {
    hide Deal, Allocation.Allocate;
    CountsOfTwo();
    DealtToTwo(map[0 := 2, 1 := 1]);
  }

  function Fresh(t: TaskId): Task
    requires t < 3
  {
    NewTask(t, MapPhase, ItemMessages(REQUEST, REQUEST.items[t]))
  }

  function JobWith(tasks: seq<Task>, queues: Queues): Job {
    Job(0, REQUEST, JobRunning, None, tasks, queues, "", 0, false, 0)
  }

  lemma DecisionForTwo()
    ensures Decide(CFG, REQUEST, Two(IDLE, IDLE), 0)
         == Decision(Analyzer.Analysis(TaskParallel, 2, 3), Cluster([0, 1], map[0 := 0.5, 1 := 0.5]), None)
  {
    hide Views, EligibleNodes, ClusterFor;
    ViewsOfTwo();
    EligibleOfTwo();
    ClusterOfTwo();
    Analyzer.EligibleFit(CFG, Views(Two(IDLE, IDLE)), REQUEST.model);
  }

  /** The job as planned: two items for the first machine, one for the second. */
  lemma PlannedForTwo(c: Ctx)
    requires c.cfg == CFG && c.nodes == Two(IDLE, IDLE) && c.job == NewJob(0, REQUEST)
    ensures Submission.Planned(c, 0)
         == c.(job := JobWith([Fresh(0), Fresh(1), Fresh(2)], Queues2([0, 1], [2])))
  {
    hide Decide, DealAll;
    DecisionForTwo();
    QueuesOfTwo();
    assert ItemTasks(REQUEST) == [Fresh(0), Fresh(1), Fresh(2)];
  }

  // ---- running ----

  function Out(t: TaskId, n: NodeId): Task
    requires t < 3
  {
    Fresh(t).(status := TaskStatus.Assigned, nodeId := Some(n), attempts := 1, assignedAtMs := Some(0), triedNodes := {n})
  }

  const METRICS := TaskMetrics(0, 0.0, 0.0)

  const SENDS := [Assignment(0, 0, 0, 0, 1, 0), Assignment(0, 2, 1, 0, 1, 0)]

  /** Both machines busy, the second item waiting behind the first. */
  function Started(): Ctx {
    Ctx(CFG, 0, JobWith([Out(0, 0), Fresh(1), Out(2, 1)], Queues2([1], [])), Two(BUSY, BUSY), SENDS, 0)
  }

  /** The second machine is done. */
  function HalfDone(): Ctx {
    var done := Out(2, 1).(status := TaskStatus.Completed, output := "done", metrics := Some(METRICS));
    Started().(job := JobWith([Out(0, 0), Fresh(1), done], Queues2([1], [])), nodes := Two(BUSY, IDLE))
  }

  lemma SendOne(c: Ctx, n: NodeId, t: TaskId, rest: seq<TaskId>)
    requires QueueOf(c.job.queues, n) == [t] + rest && t < |c.job.tasks|
    requires n in c.nodes.items && c.nodes.items[n].socketOpen
    ensures Drain(c, n, 1) == Assign(c.(job := c.job.(queues := c.job.queues.Set(n, rest))), t, n)
  {
    hide Dispatch, Assign;
    assert ([t] + rest)[1..] == rest;
    OpenDispatch(Shift(c, n), t, n);
    NoSlots(Assign(Shift(c, n), t, n), n);
  }

  function PlannedCtx(): Ctx {
    Ctx(CFG, 0, JobWith([Fresh(0), Fresh(1), Fresh(2)], Queues2([0, 1], [2])), Two(IDLE, IDLE), [], 0)
  }

  function FirstOut(): Ctx {
    Ctx(CFG, 0, JobWith([Out(0, 0), Fresh(1), Fresh(2)], Queues2([1], [2])), Two(BUSY, IDLE), [SENDS[0]], 0)
  }

  lemma SentTask(t: TaskId, n: NodeId)
    requires t < 3
    ensures var task := Fresh(t);
            task.(status := TaskStatus.Assigned, nodeId := Some(n), attempts := task.attempts + 1, assignedAtMs := Some(0),
                  triedNodes := task.triedNodes + {n}) == Out(t, n)
  {
    assert Fresh(t).triedNodes + {n} == {n};
  }

  lemma FirstAssigned()
    ensures Assign(PlannedCtx().(job := PlannedCtx().job.(queues := Queues2([1], [2]))), 0, 0) == FirstOut()
  {
    hide Fresh, Out;
    SentTask(0, 0);
    var d := Assign(PlannedCtx().(job := PlannedCtx().job.(queues := Queues2([1], [2]))), 0, 0);
    assert d.job.tasks == FirstOut().job.tasks;
    assert d.nodes == FirstOut().nodes && d.log == FirstOut().log;
  }

  lemma FirstSend()
    ensures Drain(PlannedCtx(), 0, 1) == FirstOut()
  {
    hide Drain, Fresh, Out, Assign;
    assert [0, 1] == [0] + [1];
    SendOne(PlannedCtx(), 0, 0, [1]);
    assert Queues2([0, 1], [2]).Set(0, [1]) == Queues2([1], [2]);
    FirstAssigned();
  }

  lemma SecondAssigned()
    ensures Assign(FirstOut().(job := FirstOut().job.(queues := Queues2([1], []))), 2, 1) == Started()
  {
    hide Fresh, Out;
    SentTask(2, 1);
    var d := Assign(FirstOut().(job := FirstOut().job.(queues := Queues2([1], []))), 2, 1);
    assert d.job.tasks == Started().job.tasks;
    assert d.nodes == Started().nodes && d.log == Started().log;
  }

  lemma SecondSend()
    ensures Drain(FirstOut(), 1, 1) == Started()
  {
    hide Drain, Fresh, Out, Assign;
    assert [2] == [2] + [];
    SendOne(FirstOut(), 1, 2, []);
    assert Queues2([1], [2]).Set(1, []) == Queues2([1], []);
    SecondAssigned();
  }

  lemma StartedByPump()
    ensures Pump(PlannedCtx()) == Started()
  {
    hide Dispatch, Drain, MaybeFinish, Steal;
    FirstSend();
    SecondSend();
    var c, d, e := PlannedCtx(), FirstOut(), Started();
    assert DrainAll(c, 0, 4, false) == DrainAll(d, 1, 3, false) == DrainAll(e, 2, 2, false) == e;
    NothingMore(e);
  }

  /** Nothing to steal, and a map task is pending. */
  lemma NothingMore(e: Ctx)
    requires e.job.queues == Queues2([1], []) && |e.job.tasks| == 3 && e.job.tasks[1] == Fresh(1)
    ensures MaybeFinish(Steal(e, STEAL_ROUNDS)) == e
  {
    hide FirstIdle, Dispatch;
    assert Donor(e.job.queues).None? by {
      assert LongQueues([0, 1], e.job.queues) == LongQueues([1], e.job.queues) by { assert [0, 1][1..] == [1]; }
      assert LongQueues([1], e.job.queues) == LongQueues([], e.job.queues) by { assert [1][1..] == []; }
    }
    assert !CanSteal(e);
    Pending(e, 1);
  }

  lemma HalfDoneByAnswer()
    ensures Done(Started(), 2, 1, "done", METRICS) == HalfDone()
  {
    hide Dispatch, Drain, MaybeFinish, Steal, FirstIdle;
    var c := Record(Started(), 2, 1, "done", METRICS);
    assert c == HalfDone();
    NoSlots(c, 0);
    NoQueue(c, 1);
    assert DrainAll(c, 0, 4, false) == DrainAll(c, 1, 3, false) == DrainAll(c, 2, 2, false) == c;
    NothingMore(c);
  }

  lemma NoSlots(c: Ctx, n: NodeId)
    ensures Drain(c, n, 0) == c
  {
  }

  lemma NoQueue(c: Ctx, n: NodeId)
    requires QueueOf(c.job.queues, n) == []
    ensures forall slots :: Drain(c, n, slots) == c
  {
  }

  lemma StrandedByRejection()
    ensures Stranded(Declined(HalfDone(), 0), 1, 0) && Declined(HalfDone(), 0).job.deferred == 0
  {
    hide MaybeFinish;
    var d := Release(HalfDone(), 0, Failed);
    assert d.job.tasks[1] == Fresh(1);
    Pending(d, 1);
    IdleIsEligible();
    assert d.nodes.items[0] == IDLE;
  }

  // ---- the run ----

  function Events(): seq<Event> {
    [NodeJoined(0, IDLE), NodeJoined(1, IDLE), Event.Submit(7, REQUEST),
     Event.TaskCompleted(7, 2, 1, "done", METRICS), Event.TaskRejected(7, 0, 0)]
  }

  lemma RunOne(s: State, events: seq<Event>, k: nat)
    requires k < |events|
    ensures Run(s, events[..k + 1]) == Step(Run(s, events[..k]), events[k])
  {
    hide Step;
    assert events[..k + 1][..k] == events[..k];
  }

  function WithJob(c: Ctx): State {
    State(c.cfg, c.now, OrderedMap([7], map[7 := c.job]), c.nodes, c.log, c.completedCount, 0, 1, 1, [])
  }

  lemma Joins()
    ensures Step(Step(Start0(CFG, 0), NodeJoined(0, IDLE)), NodeJoined(1, IDLE))
         == Start0(CFG, 0).(nodes := Two(IDLE, IDLE))
  {
    hide LoseFrom, SweepJobs, SubmitJob, Accepted, Declined, Token, Done, JobCore.TaskFailed, Cancel,
         DeferredPump;
    assert [] + [0] == [0] && [0] + [1] == [0, 1];
  }

  lemma Submits()
    ensures Step(Start0(CFG, 0).(nodes := Two(IDLE, IDLE)), Event.Submit(7, REQUEST)) == WithJob(Started())
  {
    hide Pump, Submission.Planned, Decide;
    var s := Start0(CFG, 0).(nodes := Two(IDLE, IDLE));
    PlannedForTwo(CtxOf(s, NewJob(0, REQUEST)));
    StartedByPump();
    DecisionForTwo();
    assert [] + [7] == [7];
  }

  lemma StepsOfJob(c: Ctx, d: Ctx)
    requires d.cfg == c.cfg && d.now == c.now
    ensures CtxOf(WithJob(c), c.job) == c && Put(WithJob(c), 7, d) == WithJob(d)
  {
  }

  lemma Answered()
    ensures Step(WithJob(Started()), Event.TaskCompleted(7, 2, 1, "done", METRICS)) == WithJob(HalfDone())
    ensures Step(WithJob(HalfDone()), Event.TaskRejected(7, 0, 0)) == WithJob(Declined(HalfDone(), 0))
  {
    hide Done, Declined;
    HalfDoneByAnswer();
    StepsOfJob(Started(), HalfDone());
    DeclinedFrame();
    StepsOfJob(HalfDone(), Declined(HalfDone(), 0));
  }

  lemma DeclinedFrame()
    ensures Declined(HalfDone(), 0).cfg == CFG && Declined(HalfDone(), 0).now == 0
  {
    hide MaybeFinish;
    var d := Release(HalfDone(), 0, Failed);
    assert d.job.tasks[1] == Fresh(1);
    Pending(d, 1);
  }

  lemma AnswersAreDue()
    ensures AnswerDue(Started().job, 2, 1) && AnswerDue(HalfDone().job, 0, 0)
  {
  }

  /** The five states the run goes through after its start. */
  lemma States()
    ensures var s0, events := Start0(CFG, 0), Events();
            && Run(s0, events[..0]) == s0
            && Run(s0, events[..1]) == Step(s0, events[0])
            && Run(s0, events[..2]) == s0.(nodes := Two(IDLE, IDLE))
            && Run(s0, events[..3]) == WithJob(Started())
            && Run(s0, events[..4]) == WithJob(HalfDone())
            && Run(s0, events) == WithJob(Declined(HalfDone(), 0))
  {
    hide Step, Declined, Started, HalfDone;
    var s0, events := Start0(CFG, 0), Events();
    assert events[..0] == [] && events[..5] == events;
    RunOne(s0, events, 0);
    RunOne(s0, events, 1);
    RunOne(s0, events, 2);
    RunOne(s0, events, 3);
    RunOne(s0, events, 4);
    Joins();
    Submits();
    Answered();
  }

  /** A run that meets every assumption and leaves a job unfinished, with nobody working on
      it, no pump scheduled, and an item waiting behind an idle machine that could take it. */
  lemma JobGetsStuck()
    ensures AdmissibleRun(Start0(CFG, 0), Events())
    ensures var s := Run(Start0(CFG, 0), Events());
            && 7 in s.jobs.items && s.jobs.items[7].deferred == 0
            && Stranded(CtxOf(s, s.jobs.items[7]), 1, 0)
  {
    hide Run, Declined, Stranded, Started, HalfDone, AnswerDue;
    States();
    AnswersAreDue();
    StrandedByRejection();
    DeclinedFrame();
    StepsOfJob(Declined(HalfDone(), 0), Declined(HalfDone(), 0));
    assert Step(Start0(CFG, 0), Events()[0]).nodes.items.Keys == {0};
  }
}
