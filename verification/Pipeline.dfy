/** Pipeline Planner: the fewest machines whose pooled memory holds one model. */
module Pipeline {
  import opened Collections
  import opened Protocol
  import opened Sorting
  import opened Choices

  /** Below this a member contributes less than the round-trip it costs. */
  const MIN_USEFUL_SHARE_MB := 256.0

  datatype PipelineCandidate = PipelineCandidate(nodeId: NodeId, endpoint: string, freeMB: nat, latencyMs: real,
                                                 canHead: bool)

  datatype PipelineMember = PipelineMember(nodeId: NodeId, endpoint: string, share: real, assignedMB: int)

  datatype PipelinePlan = PipelinePlan(headNodeId: NodeId, members: seq<PipelineMember>, pooledMemoryMB: nat)

  /** The file size plus 15% for the KV cache and activations. */
  function NeededMB(model: Model): (r: nat)
    ensures r >= 1
  {
    Round(model.q4SizeMB as real * 1.15)
  }

  predicate Joins(n: RegisteredNode, build: Option<string>) {
    && n.online
    && n.profile.runtime.rpc.Some?
    && n.profile.runtime.rpc.value.endpoint.Some?
    && n.profile.runtime.rpc.value.endpoint.value != ""
    && !n.governor.manualPause
    && n.governor.state != Paused
    && n.governor.capacity > 0.02
    && (build.Some? && build.value != "" && n.profile.runtime.rpc.value.build != "" ==>
          n.profile.runtime.rpc.value.build == build.value)
    && n.profile.runtime.rpc.value.offeredMemoryMB >= MIN_USEFUL_SHARE_MB
  }

  function AsCandidate(v: NodeView, build: Option<string>): (r: PipelineCandidate)
    requires Joins(v.node, build)
    ensures r.freeMB >= 256
  {
    var rpc := v.node.profile.runtime.rpc.value;
    var latency := v.node.profile.latencyMs;
    PipelineCandidate(v.nodeId, rpc.endpoint.value, rpc.offeredMemoryMB.Floor,
                      if latency >= 0.1 then latency else 0.1, rpc.canHead)
  }

  /** Nodes that can host part of a model right now. */
  function CandidatesOf(views: seq<NodeView>, build: Option<string>): (r: seq<PipelineCandidate>)
    ensures forall c :: c in r ==> c.freeMB >= 256
  {
    if views == [] then []
    else
      var rest := CandidatesOf(views[1..], build);
      if Joins(views[0].node, build) then [AsCandidate(views[0], build)] + rest else rest
  }

  lemma {:induction false} CandidateSource(views: seq<NodeView>, build: Option<string>, c: PipelineCandidate)
    requires c in CandidatesOf(views, build)
    ensures exists v :: v in views && v.nodeId == c.nodeId && Joins(v.node, build) && c == AsCandidate(v, build)
  {
    if Joins(views[0].node, build) && c == AsCandidate(views[0], build) {
      assert views[0] in views;
    } else {
      CandidateSource(views[1..], build, c);
      var v :| v in views[1..] && v.nodeId == c.nodeId && Joins(v.node, build) && c == AsCandidate(v, build);
      assert v in views;
    }
  }

  function Free(c: PipelineCandidate): nat {
    c.freeMB
  }

  /** Most memory first, better link on a tie. */
  function MemoryFirst(c: PipelineCandidate): Rank {
    Rank(-(c.freeMB as real), c.latencyMs)
  }

  function BestLink(c: PipelineCandidate): Rank {
    Rank(c.latencyMs, 0.0)
  }

  /** Take from the front of the ranking until the model fits or the cap is reached. */
  function Greedy(ranked: seq<PipelineCandidate>, needed: int, maxMembers: int): (r: seq<PipelineCandidate>) {
    if ranked == [] || needed <= 0 || maxMembers <= 0 then []
    else [ranked[0]] + Greedy(ranked[1..], needed - ranked[0].freeMB, maxMembers - 1)
  }

  /** The chosen members in chain order, or none when they do not pool enough. */
  function Choose(candidates: seq<PipelineCandidate>, needed: nat,
                  maxMembers: int): (r: Option<seq<PipelineCandidate>>) {
    var chosen := Greedy(StableSort(candidates, MemoryFirst), needed, maxMembers);
    if Sum(chosen, Free) < needed then None else Some(StableSort(chosen, BestLink))
  }

  function CanHead(s: seq<PipelineCandidate>): (r: seq<PipelineCandidate>)
    ensures forall c :: c in r <==> c in s && c.canHead
  {
    if s == [] then []
    else if s[0].canHead then [s[0]] + CanHead(s[1..])
    else CanHead(s[1..])
  }

  /** The best-linked member among those that hold the weight file, else among all. */
  function PickHead(chosen: seq<PipelineCandidate>): (r: PipelineCandidate)
    requires chosen != []
    ensures r in chosen
    ensures (exists c :: c in chosen && c.canHead) ==> r.canHead
    ensures forall c :: c in chosen && c.canHead == r.canHead ==> r.latencyMs <= c.latencyMs
  {
    var willing := CanHead(chosen);
    var pool := if willing != [] then willing else chosen;
    var sorted := StableSort(pool, BestLink);
    SameElements(sorted, pool);
    SortSorts(pool, BestLink);
    assert forall c :: c in pool ==> sorted[0].latencyMs <= c.latencyMs by {
      forall c | c in pool
        ensures sorted[0].latencyMs <= c.latencyMs
      {
        assert c in sorted;
        var i :| 0 <= i < |sorted| && sorted[i] == c;
        if i > 0 { assert !BestLink(sorted[i]).Ahead(BestLink(sorted[0])); }
      }
    }
    assert willing == [] ==> forall c | c in chosen :: !c.canHead;
    sorted[0]
  }

  function MemberOf(c: PipelineCandidate, capacity: nat, needed: nat): PipelineMember
    requires capacity > 0
  {
    var share := c.freeMB as real / capacity as real;
    PipelineMember(c.nodeId, c.endpoint, share, Round(share * needed as real))
  }

  function MembersOf(chosen: seq<PipelineCandidate>, capacity: nat, needed: nat): (r: seq<PipelineMember>)
    requires capacity > 0
    ensures |r| == |chosen|
  {
    seq(|chosen|, i requires 0 <= i < |chosen| => MemberOf(chosen[i], capacity, needed))
  }

  function PlanFor(chosen: seq<PipelineCandidate>, needed: nat): PipelinePlan
    requires chosen != [] && Sum(chosen, Free) > 0
  {
    PipelinePlan(PickHead(chosen).nodeId, MembersOf(chosen, Sum(chosen, Free), needed), Sum(chosen, Free))
  }

  /** Each member's share, by node. */
  function SharesOf(plan: PipelinePlan): map<NodeId, real> {
    ShareMap(plan.members)
  }

  function ShareMap(members: seq<PipelineMember>): map<NodeId, real> {
    if members == [] then map[]
    else
      var last := members[|members| - 1];
      ShareMap(members[..|members| - 1])[last.nodeId := last.share]
  }

  lemma ChosenPools(candidates: seq<PipelineCandidate>, needed: nat, maxMembers: int)
    requires needed >= 1
    ensures var r := Choose(candidates, needed, maxMembers);
            r.Some? ==> r.value != [] && Sum(r.value, Free) >= needed
  {
    var chosen := Greedy(StableSort(candidates, MemoryFirst), needed, maxMembers);
    PoolOfSeq(chosen, Free);
    PoolOfSeq(StableSort(chosen, BestLink), Free);
  }

  function PlanPipeline(views: seq<NodeView>, model: Model, build: Option<string>,
                        maxMembers: int): (r: Option<PipelinePlan>)
  {
    var needed := NeededMB(model);
    var candidates := CandidatesOf(views, build);
    if candidates == [] then None
    else if Sum(candidates, Free) < needed then None
    else
      ChosenPools(candidates, needed, maxMembers);
      match Choose(candidates, needed, maxMembers)
      case None => None
      case Some(chosen) => Some(PlanFor(chosen, needed))
  }

  lemma {:induction false} GreedyFromRanking(ranked: seq<PipelineCandidate>, needed: int, maxMembers: int)
    ensures forall c :: c in Greedy(ranked, needed, maxMembers) ==> c in ranked
  {
    if !(ranked == [] || needed <= 0 || maxMembers <= 0) {
      GreedyFromRanking(ranked[1..], needed - ranked[0].freeMB, maxMembers - 1);
    }
  }

  /** The head is one of the machines that were offered. */
  lemma HeadIsCandidate(views: seq<NodeView>, model: Model, build: Option<string>, maxMembers: int)
    requires PlanPipeline(views, model, build, maxMembers).Some?
    ensures exists v :: v in views && v.nodeId == PlanPipeline(views, model, build, maxMembers).value.headNodeId
  {
    var candidates := CandidatesOf(views, build);
    var ranked := StableSort(candidates, MemoryFirst);
    var chosen := Greedy(ranked, NeededMB(model), maxMembers);
    GreedyFromRanking(ranked, NeededMB(model), maxMembers);
    SameElements(ranked, candidates);
    SameElements(StableSort(chosen, BestLink), chosen);
    ChosenPools(candidates, NeededMB(model), maxMembers);
    var head := PickHead(StableSort(chosen, BestLink));
    assert head in chosen;
    assert head in candidates;
    CandidateSource(views, build, head);
  }
}
