/** Who gets a job, in the machines' own terms: the reasons a machine is passed over, when a
    job can be placed at all, and whose turn it is. */
module Placement {
  import opened Collections
  import opened Protocol
  import opened Sorting
  import opened Scheduler
  import opened Analyzer
  import opened JobCore
  import opened Submission
  import opened SubmissionProofs
  import opened Clusters
  import opened Choices
  import Pipeline
  import PipelineProofs

  // ---- one machine ----

  /** The reasons for passing a machine over, one a line. */
  ghost predicate Refuses(cfg: Config, n: RegisteredNode, model: Model) {
    || !n.online
    || n.profile.kind == Client
    || (n.profile.kind == BrowserContributor && !cfg.allowBrowserContributors)
    || n.governor.manualPause
    || n.governor.state == Paused
    || 50.0 * n.governor.capacity <= 1.0
    || (n.activeTasks > 0 && n.activeTasks >= n.governor.maxConcurrentTasks)
    || 4 * n.profile.usableMemoryMB < 5 * model.q4SizeMB
    || !n.profile.runtime.ready
    || (n.profile.runtime.supportedModels != [] && model.id !in n.profile.runtime.supportedModels)
    || model.id !in n.profile.runtime.loadedModels
  }

  lemma EligibleUnlessRefused(cfg: Config, n: RegisteredNode, model: Model)
    ensures Eligible(cfg, n, model, false, false) <==> !Refuses(cfg, n, model)
  {
  }

  /** A machine that is busy or lacks the model may still get a task back to wait for it;
      for every other reason it is passed over then too. */
  lemma CapableUnlessRefused(cfg: Config, n: RegisteredNode, model: Model, warm: bool)
    ensures var loaded := n.profile.runtime.loadedModels + if warm then [] else [model.id];
            var runtime := n.profile.runtime.(loadedModels := loaded);
            var idle := n.(activeTasks := 0, profile := n.profile.(runtime := runtime));
            Eligible(cfg, n, model, true, !warm) <==> !Refuses(cfg, idle, model)
  {
  }

  // ---- one job ----

  ghost predicate AllRefuse(c: Ctx) {
    forall n :: n in c.nodes.items ==> Refuses(c.cfg, c.nodes.items[n], c.job.request.model)
  }

  lemma NobodyEligible(c: Ctx)
    requires c.nodes.Valid()
    ensures EligibleNodes(c.cfg, Views(c.nodes), c.job.request.model, false, false) == [] <==> AllRefuse(c)
  {
    hide Views, Eligible, Refuses, EligibleNodes;
    var eligible := EligibleNodes(c.cfg, Views(c.nodes), c.job.request.model, false, false);
    forall n | n in c.nodes.items
      ensures NodeView(n, c.nodes.items[n]) in eligible <==> !Refuses(c.cfg, c.nodes.items[n], c.job.request.model)
    {
      ViewOf(c.nodes, n);
      EligibleUnlessRefused(c.cfg, c.nodes.items[n], c.job.request.model);
    }
    if eligible != [] { assert eligible[0] in eligible; }
  }

  /** Some choice of at most `maxPipelineMembers` offered machines holds the model. */
  ghost predicate Splittable(c: Ctx) {
    exists m: multiset<Pipeline.PipelineCandidate> ::
      |m| <= c.cfg.maxPipelineMembers && m <= multiset(Pipeline.CandidatesOf(Views(c.nodes), None))
      && Pool(m, Pipeline.Free) >= Pipeline.NeededMB(c.job.request.model)
  }

  lemma SplittableExactly(c: Ctx)
    ensures var plan := Pipeline.PlanPipeline(Views(c.nodes), c.job.request.model, None, c.cfg.maxPipelineMembers);
            plan.Some? <==> Splittable(c)
  {
    hide Views, Pipeline.PlanPipeline, Pipeline.CandidatesOf, Pipeline.NeededMB, Pool;
    PipelineProofs.PlanIffFeasible(Views(c.nodes), c.job.request.model, None, c.cfg.maxPipelineMembers);
    var candidates := Pipeline.CandidatesOf(Views(c.nodes), None);
    var needed := Pipeline.NeededMB(c.job.request.model);
    if m: multiset<Pipeline.PipelineCandidate> :|
        |m| <= c.cfg.maxPipelineMembers && m <= multiset(candidates) && Pool(m, Pipeline.Free) >= needed {
      assert PipelineProofs.Feasible(candidates, needed, m);
    }
  }

  /** A submitted job fails at once if and only if every machine has a reason, and it is not
      a chat that may be split over machines that together hold the model. */
  lemma PlacedExactly(c: Ctx, cursor: nat)
    requires c.job == NewJob(c.job.serial, c.job.request) && c.nodes.Valid()
    ensures var p := Submission.Planned(c, cursor);
            p.job.status == JobFailed <==>
              AllRefuse(c) && !(c.job.request.kind == Chat && c.cfg.enableModelParallel && Splittable(c))
  {
    hide Views, ClusterFor, Pipeline.PlanPipeline, EligibleNodes, AllRefuse, Splittable, SumShares, BuildTasks,
         AnalyzeWorkload;
    var views, request := Views(c.nodes), c.job.request;
    var eligible := EligibleNodes(c.cfg, views, request.model, false, false);
    var analysis := AnalyzeWorkload(c.cfg, request, eligible, views);
    NobodyEligible(c);
    SplittableExactly(c);
    StrategyDecided(c.cfg, request, views);
    ClusterForms(c.cfg, c.nodes, request.policy, request.model, analysis.strategy == TaskParallel, analysis.unitCount,
                 cursor);
  }

  lemma ClusterMember(policy: Policy, eligible: seq<NodeView>, model: Model, fanOut: bool, units: nat, cursor: nat,
                      n: NodeId)
    requires Distinct(Keys(eligible, NameOf))
    requires n in ClusterFor(policy, eligible, model, fanOut, units, cursor).nodeIds
    ensures exists v :: v in eligible && v.nodeId == n
  {
    hide ChosenFor, SharesFor, ToCandidate;
    var unitCount := if units < 1 then 1 else units;
    var candidates := ToCandidates(eligible, model);
    assert Ids(candidates) == Keys(eligible, NameOf);
    ChosenPicked(policy, candidates, fanOut, unitCount, cursor);
    var chosen := ChosenFor(policy, candidates, fanOut, unitCount, cursor);
    var i :| 0 <= i < |chosen| && Ids(chosen)[i] == n;
    assert chosen[i] in candidates;
    var k :| 0 <= k < |candidates| && candidates[k] == chosen[i];
    assert eligible[k] in eligible && eligible[k].nodeId == n;
  }

  /** No machine is given a queue against a reason. */
  lemma QueuedOnWilling(c: Ctx, cursor: nat, n: NodeId)
    requires c.job == NewJob(c.job.serial, c.job.request) && c.nodes.Valid()
    requires var p := Submission.Planned(c, cursor); n in p.job.queues.keys && p.job.pipeline.None?
    ensures n in c.nodes.items && !Refuses(c.cfg, c.nodes.items[n], c.job.request.model)
  {
    hide Views, ClusterFor, Pipeline.PlanPipeline, Eligible, Refuses, BuildTasks, AnalyzeWorkload, ClusterOk;
    var views, request := Views(c.nodes), c.job.request;
    var eligible := EligibleNodes(c.cfg, views, request.model, false, false);
    var analysis := AnalyzeWorkload(c.cfg, request, eligible, views);
    var d := Decide(c.cfg, request, c.nodes, cursor);
    DecideOk(c.cfg, request, c.nodes, cursor);
    BuildTasksOk(c.job, d.analysis.strategy, d.cluster);
    EligibleDistinct(c.cfg, c.nodes, request.model, false, false);
    ClusterMember(request.policy, eligible, request.model, analysis.strategy == TaskParallel, analysis.unitCount,
                  cursor, n);
    var v :| v in eligible && v.nodeId == n;
    EligibleUnlessRefused(c.cfg, v.node, request.model);
  }

  // ---- whose turn it is ----

  lemma NoWholeTurn(n: nat, d: int, i: nat, r: nat)
    requires i < n && r < n && i == d * n + r
    ensures d == 0
  {
    MultipleOf(d, n);
    MultipleOf(-d, n);
  }

  lemma SameRemainder(n: nat, q: nat, i: nat)
    requires i < n
    ensures (n * q + i) % n == i
  {
    var x := n * q + i;
    assert x == n * (x / n) + x % n;
    assert i == (x / n - q) * n + x % n;
    NoWholeTurn(n, x / n - q, i, x % n);
  }

  /** The step at which position i of a ring of n comes round, counted from the cursor. */
  function StepsTo(cursor: nat, i: nat, n: nat): (k: nat)
    requires i < n
    ensures k < n
  {
    var r := cursor % n;
    if i >= r then i - r else i + n - r
  }

  lemma RingReaches(cursor: nat, i: nat, n: nat)
    requires i < n
    ensures (cursor + StepsTo(cursor, i, n)) % n == i
  {
    var q, r := cursor / n, cursor % n;
    assert cursor == n * q + r;
    if i >= r {
      SameRemainder(n, q, i);
    } else {
      assert cursor + StepsTo(cursor, i, n) == n * (q + 1) + i;
      SameRemainder(n, q + 1, i);
    }
  }

  /** Who is chosen for a single-machine job, i jobs after the cursor. */
  function Turn(candidates: seq<Candidate>, cursor: nat, i: nat): seq<Candidate>
    requires candidates != []
  {
    ChosenFor(RoundRobin, candidates, false, 1, cursor + i)
  }

  lemma TurnRotates(candidates: seq<Candidate>, cursor: nat)
    requires candidates != []
    ensures ChosenFor(RoundRobin, candidates, false, 1, cursor) == Rotate(StableSort(candidates, ById), cursor, 1)
  {
    hide StableSort, Rotate, Scheduler.Trim, Take, EffectiveScore;
  }

  lemma TurnIs(candidates: seq<Candidate>, cursor: nat)
    requires candidates != []
    ensures ChosenFor(RoundRobin, candidates, false, 1, cursor)
         == [StableSort(candidates, ById)[cursor % |StableSort(candidates, ById)|]]
  {
    hide StableSort, ChosenFor, Rotate;
    TurnRotates(candidates, cursor);
    OneSeat(StableSort(candidates, ById), cursor);
  }

  lemma OneSeat(ordered: seq<Candidate>, cursor: nat)
    requires ordered != []
    ensures Rotate(ordered, cursor, 1) == [ordered[cursor % |ordered|]]
  {
    assert Rotate(ordered, cursor, 1)[0] == ordered[(cursor + 0) % |ordered|];
  }

  lemma TurnAt(candidates: seq<Candidate>, cursor: nat, i: nat)
    requires candidates != []
    ensures Turn(candidates, cursor, i) == ChosenFor(RoundRobin, candidates, false, 1, cursor + i)
  {
    hide ChosenFor;
  }

  lemma SameSeat(ordered: seq<Candidate>, x: nat, y: nat)
    requires Distinct(Ids(ordered)) && x < |ordered| && y < |ordered| && ordered[x] == ordered[y]
    ensures x == y
  {
    assert Ids(ordered)[x] == Ids(ordered)[y];
  }

  /** Round-robin is fair: over as many jobs in a row as there are machines, each machine is
      the one chosen exactly once. */
  lemma EachHasItsTurn(candidates: seq<Candidate>, cursor: nat, d: Candidate) returns (k: nat)
    requires candidates != [] && Distinct(Ids(candidates)) && d in candidates
    ensures k < |candidates|
    ensures forall i | 0 <= i < |candidates| :: Turn(candidates, cursor, i) == [d] <==> i == k
  {
    hide StableSort, Turn, Distinct;
    var ordered, n := StableSort(candidates, ById), |candidates|;
    SameElements(ordered, candidates);
    SortDistinct(candidates, ById);
    var at :| 0 <= at < n && ordered[at] == d;
    k := StepsTo(cursor, at, n);
    RingReaches(cursor, at, n);
    forall i | 0 <= i < n
      ensures Turn(candidates, cursor, i) == [d] <==> i == k
    {
      TurnIs(candidates, cursor + i);
      assert Turn(candidates, cursor, i) == [ordered[(cursor + i) % n]] by { TurnAt(candidates, cursor, i); }
      if i < k { WrapDistinct(cursor + i, cursor + k, n); }
      if k < i { WrapDistinct(cursor + k, cursor + i, n); }
      if ordered[(cursor + i) % n] == d { SameSeat(ordered, (cursor + i) % n, at); }
    }
  }

  // ---- one offer to a pipeline ----

  /** The reasons for not asking a machine to hold a part of a model. */
  ghost predicate Declines(n: RegisteredNode) {
    || !n.online
    || n.profile.runtime.rpc.None?
    || n.profile.runtime.rpc.value.endpoint.None?
    || n.profile.runtime.rpc.value.endpoint.value == ""
    || n.governor.manualPause
    || n.governor.state == Paused
    || 50.0 * n.governor.capacity <= 1.0
    || n.profile.runtime.rpc.value.offeredMemoryMB < 256.0
  }

  ghost predicate OfferOf(v: NodeView, c: Pipeline.PipelineCandidate)
    requires v.node.profile.runtime.rpc.Some?
  {
    var rpc := v.node.profile.runtime.rpc.value;
    && c.nodeId == v.nodeId && Some(c.endpoint) == rpc.endpoint && c.canHead == rpc.canHead
    && c.freeMB as real <= rpc.offeredMemoryMB < c.freeMB as real + 1.0
    && c.latencyMs == (if v.node.profile.latencyMs >= 0.1 then v.node.profile.latencyMs else 0.1)
  }

  /** The candidates are exactly the offers of the machines without a reason. */
  lemma {:induction false} OffersExactly(views: seq<NodeView>, c: Pipeline.PipelineCandidate)
    ensures c in Pipeline.CandidatesOf(views, None) <==>
              exists v :: v in views && !Declines(v.node) && OfferOf(v, c)
  {
    if views != [] {
      OffersExactly(views[1..], c);
      OneOffer(views[0], c);
      if v :| v in views && !Declines(v.node) && OfferOf(v, c) {
        assert v == views[0] || v in views[1..];
      }
      if v :| v in views[1..] && !Declines(v.node) && OfferOf(v, c) { assert v in views; }
      if !Declines(views[0].node) && OfferOf(views[0], c) { assert views[0] in views; }
    }
  }

  lemma OneOffer(v: NodeView, c: Pipeline.PipelineCandidate)
    ensures Pipeline.Joins(v.node, None) <==> !Declines(v.node)
    ensures Pipeline.Joins(v.node, None) ==> (c == Pipeline.AsCandidate(v, None) <==> OfferOf(v, c))
  {
  }

  /** A model needs its size and 15% more, to the nearest megabyte. */
  lemma NeedExactly(model: Model)
    ensures 115 * model.q4SizeMB - 50 <= 100 * Pipeline.NeededMB(model) <= 115 * model.q4SizeMB + 50
  {
  }

  lemma MemberShares(chosen: seq<Pipeline.PipelineCandidate>, capacity: nat, needed: nat, i: nat, k: nat)
    requires capacity > 0 && i < |chosen| && k < |chosen|
    ensures var members := Pipeline.MembersOf(chosen, capacity, needed);
            && members[i].nodeId == chosen[i].nodeId && members[i].endpoint == chosen[i].endpoint
            && members[i].share * chosen[k].freeMB as real == members[k].share * chosen[i].freeMB as real
  {
    CrossShares(chosen[i].freeMB as real, chosen[k].freeMB as real, capacity as real);
  }

  lemma CrossShares(x: real, y: real, whole: real)
    requires whole > 0.0
    ensures x / whole * y == y / whole * x
  {
    assert x / whole * y == x * y / whole;
  }

  /** A plan names its chain of machines in order, what they pool, and for each its share of
      the need to the nearest megabyte; its head is the best-linked of those that hold the
      weight file, or of all. */
  lemma PlanSays(views: seq<NodeView>, model: Model, maxMembers: int)
    requires Pipeline.PlanPipeline(views, model, None, maxMembers).Some?
    ensures var plan := Pipeline.PlanPipeline(views, model, None, maxMembers).value;
            var chain := PipelineProofs.Chain(views, model, None, maxMembers);
            && chain != [] && |plan.members| == |chain| && plan.pooledMemoryMB == Sum(chain, Pipeline.Free)
            && (forall i | 0 <= i < |chain| ::
                  plan.members[i].nodeId == chain[i].nodeId && plan.members[i].endpoint == chain[i].endpoint)
            && (forall i, k | 0 <= i < |chain| && 0 <= k < |chain| ::
                  plan.members[i].share * chain[k].freeMB as real == plan.members[k].share * chain[i].freeMB as real)
            && (forall i, k | 0 <= i < k < |chain| :: chain[i].latencyMs <= chain[k].latencyMs)
            && exists h :: h in chain && plan.headNodeId == h.nodeId
                 && forall c | c in chain :: (c.canHead ==> h.canHead) && (c.canHead == h.canHead ==> h.latencyMs <= c.latencyMs)
  {
    hide Pipeline.PlanPipeline, PipelineProofs.Chain, Sum, Pipeline.PickHead, Pipeline.MembersOf;
    var chain := PipelineProofs.Chain(views, model, None, maxMembers);
    PipelineProofs.PlanShape(views, model, None, maxMembers);
    forall i, k | 0 <= i < |chain| && 0 <= k < |chain|
      ensures var m := Pipeline.MembersOf(chain, Sum(chain, Pipeline.Free), Pipeline.NeededMB(model));
              && m[i].nodeId == chain[i].nodeId && m[i].endpoint == chain[i].endpoint
              && m[i].share * chain[k].freeMB as real == m[k].share * chain[i].freeMB as real
    {
      MemberShares(chain, Sum(chain, Pipeline.Free), Pipeline.NeededMB(model), i, k);
    }
    ChainAscends(views, model, maxMembers);
    assert Pipeline.PickHead(chain) in chain;
  }

  lemma ChainAscends(views: seq<NodeView>, model: Model, maxMembers: int)
    ensures var chain := PipelineProofs.Chain(views, model, None, maxMembers);
            forall i, k | 0 <= i < k < |chain| :: chain[i].latencyMs <= chain[k].latencyMs
  {
    hide StableSort, PipelineProofs.Taken;
    var taken := PipelineProofs.Taken(Pipeline.CandidatesOf(views, None), Pipeline.NeededMB(model), maxMembers);
    var chain := PipelineProofs.Chain(views, model, None, maxMembers);
    SortSorts(taken, Pipeline.BestLink);
    forall i, k | 0 <= i < k < |chain|
      ensures chain[i].latencyMs <= chain[k].latencyMs
    {
      assert !Pipeline.BestLink(chain[k]).Ahead(Pipeline.BestLink(chain[i]));
    }
  }

  /** The round-robin cursor moves on by one with every job, except a chat that is split. */
  lemma CursorMoves(c: Ctx, cursor: nat)
    requires c.nodes.Valid()
    ensures NextCursor(c.cfg, c.job.request, c.nodes, cursor) ==
      if AllRefuse(c) && c.job.request.kind == Chat && c.cfg.enableModelParallel && Splittable(c) then cursor
      else cursor + 1
  {
    hide Views, Pipeline.PlanPipeline, EligibleNodes, AllRefuse, Splittable, AnalyzeWorkload, ClusterFor;
    NobodyEligible(c);
    SplittableExactly(c);
    StrategyDecided(c.cfg, c.job.request, Views(c.nodes));
  }
}
