/** Cluster formation with the loops of the source, proved against `Scheduler.ClusterFor`. */
module Forming {
  import opened Protocol
  import opened Sorting
  import opened Scheduler

  method TrimUnproductive(ranked: seq<Candidate>, unitCount: nat, w: Weight) returns (chosen: seq<Candidate>)
    ensures chosen == Trim(ranked, 0, 0.0, unitCount, w)
  {
    hide EffectiveScore;
    chosen := [];
    var aggregate := 0.0;
    for i := 0 to |ranked|
      invariant chosen + Trim(ranked[i..], |chosen|, aggregate, unitCount, w) == Trim(ranked, 0, 0.0, unitCount, w)
    {
      if |chosen| >= unitCount { break; }
      assert ranked[i..][1..] == ranked[i + 1..];
      var score := EffectiveScore(ranked[i], w);
      if |chosen| > 0 && score < aggregate * MIN_BENEFIT { continue; }
      chosen := chosen + [ranked[i]];
      aggregate := aggregate + score;
    }
  }

  method TakeTurns(ordered: seq<Candidate>, cursor: nat, count: nat) returns (chosen: seq<Candidate>)
    requires ordered != []
    ensures chosen == Rotate(ordered, cursor, count)
  {
    chosen := [];
    for i := 0 to count
      invariant |chosen| == i && forall k | 0 <= k < i :: chosen[k] == ordered[(cursor + k) % |ordered|]
    {
      chosen := chosen + [ordered[(cursor + i) % |ordered|]];
    }
  }

  method ShareOut(chosen: seq<Candidate>, w: Weight) returns (shares: map<NodeId, real>)
    ensures shares == SharesFrom(chosen, w)
  {
    hide EffectiveScore;
    var total := 0.0;
    for i := 0 to |chosen|
      invariant total == TotalScore(chosen[..i], w)
    {
      assert chosen[..i + 1][..i] == chosen[..i];
      total := total + EffectiveScore(chosen[i], w);
    }
    assert chosen[..|chosen|] == chosen;
    if total == 0.0 { total := 1.0; }
    shares := map[];
    for i := 0 to |chosen|
      invariant shares == SharesOver(chosen[..i], w, total)
    {
      assert chosen[..i + 1][..i] == chosen[..i];
      shares := shares[chosen[i].view.nodeId := EffectiveScore(chosen[i], w) / total];
    }
  }

  method ShareEvenly(chosen: seq<Candidate>, even: real) returns (shares: map<NodeId, real>)
    ensures shares == EvenShares(chosen, even)
  {
    shares := map[];
    for i := 0 to |chosen|
      invariant shares == EvenShares(chosen[..i], even)
    {
      assert chosen[..i + 1][..i] == chosen[..i];
      shares := shares[chosen[i].view.nodeId := even];
    }
    assert chosen[..|chosen|] == chosen;
  }

  method FormCluster(policy: Policy, eligible: seq<NodeView>, model: Model, fanOut: bool, units: nat, cursor: nat)
    returns (cluster: Cluster)
    ensures cluster == ClusterFor(policy, eligible, model, fanOut, units, cursor)
  {
    hide EffectiveScore, StableSort, Trim, Rotate, SharesFrom, EvenShares;
    if eligible == [] { return EMPTY_CLUSTER; }
    var candidates := ToCandidates(eligible, model);
    var unitCount := if units < 1 then 1 else units;
    var width := if fanOut then unitCount else 1;
    var chosen: seq<Candidate>;
    match policy {
      case BestNode => chosen := Take(StableSort(candidates, ByScore(1.0)), 1);
      case ComputeOnly => chosen := Take(StableSort(candidates, ByThroughputPrior), width);
      case NetworkAware => chosen := Take(StableSort(candidates, ByScore(2.5)), width);
      case ResourceAware => chosen := Take(StableSort(candidates, BySpareMemory), width);
      case RoundRobin =>
        var ordered := StableSort(candidates, ById);
        chosen := TakeTurns(ordered, cursor, if width < |ordered| then width else |ordered|);
      case Adaptive =>
        var ranked := StableSort(candidates, ByScore(1.5));
        if fanOut {
          chosen := TrimUnproductive(ranked, unitCount, 1.5);
        } else {
          chosen := Take(ranked, 1);
        }
    }
    if chosen == [] { return EMPTY_CLUSTER; }
    var shares := SharesBy(policy, chosen, fanOut);
    return Cluster(Ids(chosen), shares);
  }

  method SharesBy(policy: Policy, chosen: seq<Candidate>, fanOut: bool) returns (shares: map<NodeId, real>)
    requires chosen != []
    ensures shares == SharesFor(policy, chosen, fanOut)
  {
    hide SharesFrom, EvenShares;
    match policy {
      case BestNode => shares := ShareEvenly(chosen, 1.0);
      case ComputeOnly => shares := ShareOut(chosen, 0.0);
      case NetworkAware => shares := ShareOut(chosen, 2.5);
      case ResourceAware => shares := ShareOut(chosen, 1.0);
      case RoundRobin => shares := ShareEvenly(chosen, 1.0 / |chosen| as real);
      case Adaptive =>
        if fanOut {
          shares := ShareOut(chosen, 1.5);
        } else {
          shares := ShareEvenly(chosen, 1.0);
        }
    }
  }
}
