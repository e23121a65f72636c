/** Cluster Scheduler: who may run a job, who is asked to, and with what share. */
module Scheduler {
  import opened Collections
  import opened Protocol
  import opened Sorting

  type Weight = w: real | w >= 0.0

  datatype CandidateRecord = CandidateRecord(view: NodeView, throughput: real, latencyMs: real, warm: bool)

  type Candidate = c: CandidateRecord | c.throughput >= 0.01 && c.latencyMs >= 0.1
    witness CandidateRecord(NodeView(0, RegisteredNode(0,
      Profile(Client, 0.0, 0, 0.0, Runtime(false, [], [], None)),
      GovernorReport(Idle, 0.0, 0, 0.0, false), NO_METRICS, [], 0, false, false)), 0.01, 0.1, false)

  datatype Cluster = Cluster(nodeIds: seq<NodeId>, shares: map<NodeId, real>)

  const EMPTY_CLUSTER := Cluster([], map[])

  /** Every registered node, fastest first. */
  function Views(nodes: OrderedMap<NodeId, RegisteredNode>): (r: seq<NodeView>)
    ensures forall v :: v in r ==> v.nodeId in nodes.items && v.node == nodes.items[v.nodeId]
  {
    var listed := Listed(nodes.keys, nodes.items);
    var r := StableSort(listed, ByThroughput);
    SameElements(r, listed);
    r
  }

  function ByThroughput(v: NodeView): Rank {
    Rank(-v.node.Throughput(), 0.0)
  }

  function Listed(keys: seq<NodeId>, items: map<NodeId, RegisteredNode>): (r: seq<NodeView>)
    ensures forall v :: v in r <==> v.nodeId in keys && v.nodeId in items && v.node == items[v.nodeId]
    ensures Distinct(keys) ==> forall i, j | 0 <= i < j < |r| :: r[i].nodeId != r[j].nodeId
  {
    if keys == [] then []
    else
      var rest := Listed(keys[1..], items);
      assert Distinct(keys) ==> forall v | v in rest :: v.nodeId != keys[0];
      if keys[0] in items then [NodeView(keys[0], items[keys[0]])] + rest else rest
  }

  /** Every node is in the view. */
  lemma ViewOf(nodes: OrderedMap<NodeId, RegisteredNode>, n: NodeId)
    requires nodes.Valid() && n in nodes.items
    ensures NodeView(n, nodes.items[n]) in Views(nodes)
  {
    var listed := Listed(nodes.keys, nodes.items);
    SameElements(Views(nodes), listed);
    assert NodeView(n, nodes.items[n]) in listed;
  }

  predicate Eligible(cfg: Config, n: RegisteredNode, model: Model, allowBusy: bool, allowCold: bool) {
    && n.online
    && n.profile.kind != Client
    && (n.profile.kind == BrowserContributor ==> cfg.allowBrowserContributors)
    && !n.governor.manualPause
    && n.governor.state != Paused
    && n.governor.capacity > 0.02
    && (allowBusy || n.Free())
    && n.profile.usableMemoryMB as real >= model.q4SizeMB as real * 1.25
    && n.profile.runtime.ready
    && (n.profile.runtime.supportedModels != [] ==> model.id in n.profile.runtime.supportedModels)
    && (allowCold || model.id in n.profile.runtime.loadedModels)
  }

  function EligibleNodes(cfg: Config, views: seq<NodeView>, model: Model, allowBusy: bool,
                         allowCold: bool): (r: seq<NodeView>)
    ensures forall v :: v in r <==> v in views && Eligible(cfg, v.node, model, allowBusy, allowCold)
  {
    if views == [] then []
    else
      var rest := EligibleNodes(cfg, views[1..], model, allowBusy, allowCold);
      if Eligible(cfg, views[0].node, model, allowBusy, allowCold) then [views[0]] + rest else rest
  }

  function MaxReal(a: real, b: real): real {
    if a >= b then a else b
  }

  function ToCandidate(v: NodeView, model: Model): Candidate {
    CandidateRecord(v, MaxReal(v.node.Throughput(), 0.01), MaxReal(v.node.profile.latencyMs, 0.1),
                    model.id in v.node.profile.runtime.loadedModels)
  }

  function ToCandidates(views: seq<NodeView>, model: Model): (r: seq<Candidate>)
    ensures |r| == |views|
    ensures forall i | 0 <= i < |r| :: r[i].view == views[i]
  {
    seq(|views|, i requires 0 <= i < |views| => ToCandidate(views[i], model))
  }

  lemma ProductPositive(a: real, b: real)
    requires a > 0.0 && b > 0.0
    ensures a * b > 0.0
  {
  }

  /** 1 / (1 + weight * latency / 100) */
  function LatencyPenalty(latencyMs: real, networkWeight: Weight): (r: real)
    requires latencyMs > 0.0
    ensures r > 0.0
  {
    var slowdown := 1.0 + networkWeight * (latencyMs / 100.0);
    assert slowdown >= 1.0 by {
      if networkWeight > 0.0 { ProductPositive(networkWeight, latencyMs / 100.0); }
    }
    1.0 / slowdown
  }

  function EffectiveScore(c: Candidate, networkWeight: Weight): (r: real)
    ensures r > 0.0
  {
    var warmBonus := if c.warm then 1.0 else 0.75;
    var penalty := LatencyPenalty(c.latencyMs, networkWeight);
    var tierFactor := if c.view.node.profile.kind == DesktopWorker then 1.0 else 0.6;
    ProductPositive(c.throughput, warmBonus);
    ProductPositive(c.throughput * warmBonus, penalty);
    ProductPositive(c.throughput * warmBonus * penalty, tierFactor);
    c.throughput * warmBonus * penalty * tierFactor
  }

  function ByScore(networkWeight: Weight): Candidate -> Rank {
    (c: Candidate) => Rank(-EffectiveScore(c, networkWeight), 0.0)
  }

  /** The strongest candidate, or none. */
  function PickSingle(candidates: seq<Candidate>, networkWeight: Weight): (r: Option<Candidate>)
    ensures r.Some? <==> candidates != []
    ensures r.Some? ==> r.value in candidates
  {
    if candidates == [] then None
    else
      var sorted := StableSort(candidates, ByScore(networkWeight));
      SameElements(sorted, candidates);
      Some(sorted[0])
  }

  predicate IsDesktop(v: NodeView) {
    v.node.profile.kind == DesktopWorker
  }

  function Desktops(views: seq<NodeView>): (r: seq<NodeView>)
    ensures forall v :: v in r <==> v in views && IsDesktop(v)
  {
    if views == [] then []
    else if IsDesktop(views[0]) then [views[0]] + Desktops(views[1..])
    else Desktops(views[1..])
  }

  /** The reduce goes to one eligible node with a free slot, a native one if preferred. */
  function PickReduceNode(cfg: Config, views: seq<NodeView>, model: Model): (r: Option<NodeView>)
    ensures r.Some? <==> exists v :: v in views && Eligible(cfg, v.node, model, false, false)
    ensures r.Some? ==> r.value in views && Eligible(cfg, r.value.node, model, false, false)
    ensures r.Some? && cfg.preferDesktopForReduce && !IsDesktop(r.value) ==>
              forall v :: v in views && Eligible(cfg, v.node, model, false, false) ==> !IsDesktop(v)
  {
    var eligible := EligibleNodes(cfg, views, model, false, false);
    var desktops := Desktops(eligible);
    var pool := if cfg.preferDesktopForReduce && desktops != [] then desktops else eligible;
    assert eligible != [] ==> eligible[0] in eligible;
    assert forall v :: v in desktops ==> |desktops| > 0;
    match PickSingle(ToCandidates(pool, model), 1.5)
    case None => None
    case Some(c) =>
      assert c.view in pool;
      Some(c.view)
  }

  // ---- forming a cluster ----

  function TotalScore(chosen: seq<Candidate>, networkWeight: Weight): (r: real)
    ensures r >= 0.0 && (chosen != [] ==> r > 0.0)
  {
    if chosen == [] then 0.0
    else TotalScore(chosen[..|chosen| - 1], networkWeight) + EffectiveScore(chosen[|chosen| - 1], networkWeight)
  }

  function Ids(chosen: seq<Candidate>): (r: seq<NodeId>)
    ensures |r| == |chosen|
    ensures forall i | 0 <= i < |r| :: r[i] == chosen[i].view.nodeId
  {
    seq(|chosen|, i requires 0 <= i < |chosen| => chosen[i].view.nodeId)
  }

  /** Each chosen node's score over `total`. */
  function SharesOver(chosen: seq<Candidate>, networkWeight: Weight, total: real): (r: map<NodeId, real>)
    requires total > 0.0
    ensures forall n :: n in r <==> n in Ids(chosen)
  {
    if chosen == [] then map[]
    else
      var front, last := chosen[..|chosen| - 1], chosen[|chosen| - 1];
      assert Ids(chosen) == Ids(front) + [last.view.nodeId];
      SharesOver(front, networkWeight, total)[last.view.nodeId := EffectiveScore(last, networkWeight) / total]
  }

  function SharesFrom(chosen: seq<Candidate>, networkWeight: Weight): (r: map<NodeId, real>)
    ensures forall n :: n in r <==> n in Ids(chosen)
  {
    SharesOver(chosen, networkWeight, if chosen == [] then 1.0 else TotalScore(chosen, networkWeight))
  }

  function EvenShares(chosen: seq<Candidate>, even: real): (r: map<NodeId, real>)
    ensures forall n :: n in r <==> n in Ids(chosen)
    ensures forall n :: n in r ==> r[n] == even
  {
    if chosen == [] then map[]
    else
      var front, last := chosen[..|chosen| - 1], chosen[|chosen| - 1];
      assert Ids(chosen) == Ids(front) + [last.view.nodeId];
      EvenShares(front, even)[last.view.nodeId := even]
  }

  /** A candidate that adds less than this part of the aggregate so far is skipped. */
  const MIN_BENEFIT := 0.08

  /** The adaptive cut-off over the rest of a ranking, with `taken` chosen so far. */
  function Trim(ranked: seq<Candidate>, taken: nat, aggregate: real, unitCount: nat,
                networkWeight: Weight): (r: seq<Candidate>)
  {
    if ranked == [] || taken >= unitCount then []
    else
      var score := EffectiveScore(ranked[0], networkWeight);
      if taken > 0 && score < aggregate * MIN_BENEFIT then Trim(ranked[1..], taken, aggregate, unitCount, networkWeight)
      else [ranked[0]] + Trim(ranked[1..], taken + 1, aggregate + score, unitCount, networkWeight)
  }

  /** `count` candidates from the cursor on, wrapping around. */
  function Rotate(ordered: seq<Candidate>, cursor: nat, count: nat): (r: seq<Candidate>)
    requires ordered != []
    ensures |r| == count
  {
    seq(count, i requires 0 <= i < count => ordered[(cursor + i) % |ordered|])
  }

  function Take(ranked: seq<Candidate>, n: nat): (r: seq<Candidate>)
    ensures |r| == if n < |ranked| then n else |ranked|
  {
    if n < |ranked| then ranked[..n] else ranked
  }

  function ByThroughputPrior(c: Candidate): Rank { Rank(-c.throughput, 0.0) }
  function ById(c: Candidate): Rank { Rank(c.view.nodeId as real, 0.0) }

  function BySpareMemory(c: Candidate): Rank {
    Rank(-(c.view.node.profile.usableMemoryMB as real * c.view.node.governor.capacity), 0.0)
  }

  /** Who is chosen, best first. */
  function ChosenFor(policy: Policy, candidates: seq<Candidate>, fanOut: bool, unitCount: nat,
                     cursor: nat): (r: seq<Candidate>)
    requires candidates != [] && unitCount >= 1
  {
    var width := if fanOut then unitCount else 1;
    match policy
    case BestNode => Take(StableSort(candidates, ByScore(1.0)), 1)
    case ComputeOnly => Take(StableSort(candidates, ByThroughputPrior), width)
    case NetworkAware => Take(StableSort(candidates, ByScore(2.5)), width)
    case ResourceAware => Take(StableSort(candidates, BySpareMemory), width)
    case RoundRobin =>
      Rotate(StableSort(candidates, ById), cursor, if width < |candidates| then width else |candidates|)
    case Adaptive =>
      var ranked := StableSort(candidates, ByScore(1.5));
      if fanOut then Trim(ranked, 0, 0.0, unitCount, 1.5) else Take(ranked, 1)
  }

  function SharesFor(policy: Policy, chosen: seq<Candidate>, fanOut: bool): (r: map<NodeId, real>)
    requires chosen != []
    ensures forall n :: n in r <==> n in Ids(chosen)
  {
    match policy
    case BestNode => EvenShares(chosen, 1.0)
    case ComputeOnly => SharesFrom(chosen, 0.0)
    case NetworkAware => SharesFrom(chosen, 2.5)
    case ResourceAware => SharesFrom(chosen, 1.0)
    case RoundRobin => EvenShares(chosen, 1.0 / |chosen| as real)
    case Adaptive => if fanOut then SharesFrom(chosen, 1.5) else EvenShares(chosen, 1.0)
  }

  function ClusterFor(policy: Policy, eligible: seq<NodeView>, model: Model, fanOut: bool, units: nat,
                      cursor: nat): (r: Cluster)
  {
    if eligible == [] then EMPTY_CLUSTER
    else
      var unitCount := if units < 1 then 1 else units;
      var chosen := ChosenFor(policy, ToCandidates(eligible, model), fanOut, unitCount, cursor);
      if chosen == [] then EMPTY_CLUSTER else Cluster(Ids(chosen), SharesFor(policy, chosen, fanOut))
  }
}
