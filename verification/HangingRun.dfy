/** Two submissions worth knowing about: one whose pump never ends, and one that drops an
    item. */
module HangingRun {
  import opened Collections
  import opened Protocol
  import opened Sorting
  import opened Scheduler
  import opened Choices
  import opened JobCore
  import opened JobInvariants
  import opened Submission
  import opened SubmissionProofs
  import opened Coordinator
  import opened RunProofs
  import opened Safety
  import opened PumpWalk
  import Analyzer
  import Clusters
  import Pipeline
  import PipelineProofs

  const CFG := Config(3, 1000, 4, true, true, true)

  lemma OneView(node: RegisteredNode)
    ensures Views(OrderedMap([0], map[0 := node])) == [NodeView(0, node)]
  {
    var nodes := OrderedMap([0], map[0 := node]);
    assert nodes.keys[1..] == [];
    assert Listed(nodes.keys, nodes.items) == [NodeView(0, node)] + Listed([], nodes.items);
    AlreadySorted([NodeView(0, node)], ByThroughput);
  }

  // ---- a pump that never ends ----

  /** Too small for the model on its own, willing to hold layers, and closing its socket. */
  const HOST := RegisteredNode(0,
    Profile(DesktopWorker, 1.0, 0, 1.0, Runtime(true, ["m"], [], Some(RpcProfile(Some("host:1"), 2048.0, true, "")))),
    GovernorReport(GovernorState.Available, 0.8, 1, 0.0, false), NO_METRICS, [], 0, true, false)

  const CHAT := JobRequest(Chat, ModelEntry("m", 1000), Adaptive, [ChatMessage("user", "hello")], [], "", "")

  const CANDIDATE := Pipeline.PipelineCandidate(0, "host:1", 2048, 1.0, true)

  lemma HostIsCandidate()
    ensures Pipeline.CandidatesOf([NodeView(0, HOST)], None) == [CANDIDATE]
    ensures Pipeline.NeededMB(CHAT.model) == 1150
  {
    var views := [NodeView(0, HOST)];
    assert views[1..] == [];
    assert Pipeline.Joins(HOST, None);
    assert Pipeline.AsCandidate(views[0], None) == CANDIDATE;
  }

  /** The planner makes the host the head. */
  lemma HostIsHead()
    ensures var plan := Pipeline.PlanPipeline([NodeView(0, HOST)], CHAT.model, None, 4);
            plan.Some? && plan.value.headNodeId == 0
  {
    hide Pipeline.PlanPipeline, Pipeline.CandidatesOf, Pipeline.NeededMB, Pool;
    var views := [NodeView(0, HOST)];
    HostIsCandidate();
    var all := [CANDIDATE];
    PoolOfSeq(all, Pipeline.Free);
    assert all[1..] == [];
    assert PipelineProofs.Feasible(Pipeline.CandidatesOf(views, None), 1150, multiset(all));
    PipelineProofs.PlanIsFound(views, CHAT.model, None, 4, multiset(all));
    Pipeline.HeadIsCandidate(views, CHAT.model, None, 4);
  }

  function OneHost(): Nodes {
    OrderedMap([0], map[0 := HOST])
  }

  lemma HostDecision()
    ensures var plan := Pipeline.PlanPipeline([NodeView(0, HOST)], CHAT.model, None, 4);
            var d := Decide(CFG, CHAT, OneHost(), 0);
            d.analysis.strategy == ModelParallel && d.cluster.nodeIds == [0] && d.pipeline == plan
  {
    hide Pipeline.PlanPipeline, Views, ClusterFor;
    OneView(HOST);
    HostIsHead();
    assert [NodeView(0, HOST)][1..] == [];
    assert EligibleNodes(CFG, [NodeView(0, HOST)], CHAT.model, false, false) == [];
  }

  lemma HostJoins()
    ensures Step(Start0(CFG, 0), NodeJoined(0, HOST)) == Start0(CFG, 0).(nodes := OneHost())
    ensures StateInv(Start0(CFG, 0).(nodes := OneHost()))
  {
    hide StateOk;
    assert [] + [0] == [0];
    StartOk(CFG, 0);
    StepOk(Start0(CFG, 0), NodeJoined(0, HOST));
  }

  function Submitted(): Ctx {
    Ctx(CFG, 0, NewJob(0, CHAT), OneHost(), [], 0)
  }

  lemma HostPlanned()
    ensures var p := Submission.Planned(Submitted(), 0);
            && p.nodes == OneHost() && p.cfg == CFG && p.job.request == CHAT && p.job.pipeline.Some?
            && QueueOf(p.job.queues, 0) == [0]
  {
    hide Decide, Pipeline.PlanPipeline;
    HostDecision();
    HostIsHead();
  }

  lemma HostPlannedOk()
    ensures Inv(Submission.Planned(Submitted(), 0), {0}, {})
  {
    hide Submission.Planned, StateOk, Inv;
    var s := Start0(CFG, 0).(nodes := OneHost());
    HostJoins();
    LogFacts(s);
    PlannedOk(Submitted(), 0, {0});
  }

  /** A chat for a model that needs a pipeline, submitted while the only machine is still
      registered but its socket is closing: the pump of that very submission never ends. */
  lemma SubmissionHangs()
    ensures var s := Step(Start0(CFG, 0), NodeJoined(0, HOST));
            var p := Submission.Planned(CtxOf(s, NewJob(s.nextSerial, CHAT)), s.cursor);
            && Admissible(Start0(CFG, 0), NodeJoined(0, HOST)) && Admissible(s, Event.Submit(7, CHAT))
            && Spins(p) && forall m :: !Walk(Place(p, 0), m).Over()
  {
    hide Submission.Planned, Inv, Step, Walk, Spins;
    HostJoins();
    HostPlanned();
    HostPlannedOk();
    var p := Submission.Planned(Submitted(), 0);
    PlannedSpins(p);
    forall m
      ensures !Walk(Place(p, 0), m).Over()
    {
      SpinsForever(p, m, {0});
    }
  }

  lemma PlannedSpins(p: Ctx)
    requires p.nodes == OneHost() && p.cfg == CFG && p.job.request == CHAT && p.job.pipeline.Some?
    requires QueueOf(p.job.queues, 0) == [0]
    ensures Spins(p)
  {
    hide Pipeline.PlanPipeline, Views;
    OneView(HOST);
    HostIsHead();
    assert RebuildsAt(p, 0);
  }

  // ---- a batch cut to its first item ----

  const DESKTOP := HOST.(socketOpen := true, profile := HOST.profile.(usableMemoryMB := 4096))

  const BATCH := JobRequest(Batch, ModelEntry("m", 1000), Adaptive, [], ["a", "b"], "", "")

  lemma DesktopIsEligible()
    ensures EligibleNodes(CFG, [NodeView(0, DESKTOP)], BATCH.model, false, false) == [NodeView(0, DESKTOP)]
  {
    assert [NodeView(0, DESKTOP)][1..] == [];
    assert Eligible(CFG, DESKTOP, BATCH.model, false, false);
  }

  /** Two items and one eligible machine: one task is made, for the first item. */
  lemma SecondItemIsDropped(c: Ctx)
    requires c.cfg == CFG && c.nodes == OrderedMap([0], map[0 := DESKTOP]) && c.job == NewJob(0, BATCH)
    ensures var job := Submission.Planned(c, 0).job;
            job.Active() && job.tasks == [NewTask(0, MapPhase, ItemMessages(BATCH, "a"))]
  {
    hide Views, ClusterFor, EligibleNodes, Pipeline.PlanPipeline, DealAll;
    OneView(DESKTOP);
    DesktopIsEligible();
    Analyzer.StrategyDecided(CFG, BATCH, Views(c.nodes));
    var analysis := Analyzer.AnalyzeWorkload(CFG, BATCH, [NodeView(0, DESKTOP)], Views(c.nodes));
    Clusters.ClusterForms(CFG, c.nodes, Adaptive, BATCH.model, analysis.strategy == TaskParallel, analysis.unitCount, 0);
  }
}
