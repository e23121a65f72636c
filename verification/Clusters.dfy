/** What the cluster formation guarantees: distinct eligible nodes, shares that sum to
    one, and an adaptive cut that is a short prefix of the ranking. */
module Clusters {
  import opened Collections
  import opened Protocol
  import opened Reals
  import opened Sorting
  import opened Scheduler

  // ---- the adaptive cut ----

  ghost predicate Descending(ranked: seq<Candidate>, w: Weight) {
    forall i, j | 0 <= i < j < |ranked| :: EffectiveScore(ranked[i], w) >= EffectiveScore(ranked[j], w)
  }

  /** Once a candidate is skipped, every later one is. */
  lemma {:induction false} SkipIsFinal(ranked: seq<Candidate>, taken: nat, aggregate: real, unitCount: nat, w: Weight)
    requires taken > 0
    requires forall i | 0 <= i < |ranked| :: EffectiveScore(ranked[i], w) < aggregate * MIN_BENEFIT
    ensures Trim(ranked, taken, aggregate, unitCount, w) == []
  {
    if ranked != [] && taken < unitCount {
      SkipIsFinal(ranked[1..], taken, aggregate, unitCount, w);
    }
  }

  /** The aggregate score of the first `k` of a ranking. */
  function Aggregate(ranked: seq<Candidate>, k: nat, w: Weight): real
    requires k <= |ranked|
  {
    if k == 0 then 0.0 else Aggregate(ranked, k - 1, w) + EffectiveScore(ranked[k - 1], w)
  }

  /** Candidate k adds at least 8% to those before it. */
  ghost predicate EarnsItsPlace(ranked: seq<Candidate>, k: nat, w: Weight)
    requires k < |ranked|
  {
    k == 0 || EffectiveScore(ranked[k], w) >= Aggregate(ranked, k, w) * 0.08
  }

  /** If candidate k does not earn its place, nobody from k on does. */
  lemma SkipRest(ranked: seq<Candidate>, k: nat, unitCount: nat, w: Weight)
    requires Descending(ranked, w) && k < |ranked| && !EarnsItsPlace(ranked, k, w)
    ensures Trim(ranked[k..], k, Aggregate(ranked, k, w), unitCount, w) == []
  {
    hide EffectiveScore, Aggregate;
    forall i | 0 <= i < |ranked[k..]|
      ensures EffectiveScore(ranked[k..][i], w) < Aggregate(ranked, k, w) * 0.08
    {
      assert ranked[k..][i] == ranked[k + i];
    }
    SkipIsFinal(ranked[k..], k, Aggregate(ranked, k, w), unitCount, w);
  }

  /** If it does, it is taken and the rest is decided with it in the aggregate. */
  lemma KeepOne(ranked: seq<Candidate>, k: nat, unitCount: nat, w: Weight)
    requires k < |ranked| && k < unitCount && EarnsItsPlace(ranked, k, w)
    ensures Trim(ranked[k..], k, Aggregate(ranked, k, w), unitCount, w)
         == [ranked[k]] + Trim(ranked[k + 1..], k + 1, Aggregate(ranked, k + 1, w), unitCount, w)
  {
  }

  lemma {:induction false} TrimFrom(ranked: seq<Candidate>, k: nat, unitCount: nat, w: Weight)
    requires Descending(ranked, w) && k <= |ranked| && k <= unitCount
    ensures var kept := Trim(ranked[k..], k, Aggregate(ranked, k, w), unitCount, w);
            var end := k + |kept|;
            && end <= |ranked| && kept == ranked[k..end] && end <= unitCount
            && (forall i | k <= i < end :: EarnsItsPlace(ranked, i, w))
            && (end < |ranked| && end < unitCount ==> !EarnsItsPlace(ranked, end, w))
    decreases |ranked| - k
  {
    if k == |ranked| || k == unitCount {
    } else {
      hide Trim, EarnsItsPlace, Aggregate, Descending;
      if EarnsItsPlace(ranked, k, w) {
        KeepOne(ranked, k, unitCount, w);
        TrimFrom(ranked, k + 1, unitCount, w);
        var end := k + |Trim(ranked[k..], k, Aggregate(ranked, k, w), unitCount, w)|;
        assert ranked[k..end] == [ranked[k]] + ranked[k + 1..end];
      } else {
        SkipRest(ranked, k, unitCount, w);
      }
    }
  }

  /** A descending ranking outweighs a later entry as often as there are entries before it. */
  lemma {:induction false} AggregateAtLeast(ranked: seq<Candidate>, k: nat, floor: real, w: Weight)
    requires k <= |ranked| && forall i | 0 <= i < k :: EffectiveScore(ranked[i], w) >= floor
    ensures Aggregate(ranked, k, w) >= k as real * floor
  {
    hide EffectiveScore;
    if k > 0 {
      AggregateAtLeast(ranked, k - 1, floor, w);
      assert k as real * floor == (k - 1) as real * floor + floor;
    }
  }

  /** The adaptive trim: a prefix of the ranking, of at most 13 nodes and at most one node
      a work unit, that stops exactly where the next node would add under 8%. */
  lemma TrimIsShortPrefix(ranked: seq<Candidate>, unitCount: nat, w: Weight)
    requires Descending(ranked, w)
    ensures var n := |Trim(ranked, 0, 0.0, unitCount, w)|;
            && n <= |ranked| && n <= unitCount && n <= 13
            && Trim(ranked, 0, 0.0, unitCount, w) == ranked[..n]
            && (forall i | 0 <= i < n :: EarnsItsPlace(ranked, i, w))
            && (n < |ranked| && n < unitCount ==> !EarnsItsPlace(ranked, n, w))
  {
    hide EffectiveScore;
    TrimFrom(ranked, 0, unitCount, w);
    assert ranked[0..] == ranked;
    var kept := Trim(ranked, 0, 0.0, unitCount, w);
    if |kept| > 13 {
      AtMostThirteen(ranked, w);
    }
  }

  /** A fourteenth node is never worth 8% of thirteen that are each at least as fast. */
  lemma AtMostThirteen(ranked: seq<Candidate>, w: Weight)
    requires Descending(ranked, w) && |ranked| > 13
    ensures !EarnsItsPlace(ranked, 13, w)
  {
    assert EffectiveScore(ranked[13], w) > 0.0;
    AggregateAtLeast(ranked, 13, EffectiveScore(ranked[13], w), w);
  }

  // ---- what a good score rewards ----

  lemma ProductGrows(a: real, b: real, x: real, y: real)
    requires 0.0 <= a <= b && 0.0 <= x <= y
    ensures 0.0 <= a * x <= b * y
  {
    assert b * y - a * x == b * (y - x) + (b - a) * x;
  }

  lemma PenaltyFalls(near: real, far: real, w: Weight)
    requires 0.0 < near <= far
    ensures LatencyPenalty(far, w) <= LatencyPenalty(near, w)
  {
    ProductGrows(w, w, near / 100.0, far / 100.0);
    InverseFalls(1.0 + w * (near / 100.0), 1.0 + w * (far / 100.0));
  }

  lemma InverseFalls(x: real, y: real)
    requires 0.0 < x <= y
    ensures 1.0 / y <= 1.0 / x
  {
    ProductGrows(1.0 / y, 1.0 / y, x, y);
    assert 1.0 / y * y == 1.0 && 1.0 / x * x == 1.0;
    assert (1.0 / x - 1.0 / y) * x == 1.0 - 1.0 / y * x;
  }

  /** At least as fast, at least as close, warm if the other is and native if the other is:
      the score is at least as good, whatever the weight of the network. */
  lemma ScoreRewards(a: Candidate, b: Candidate, w: Weight)
    requires a.throughput <= b.throughput && b.latencyMs <= a.latencyMs
    requires a.warm ==> b.warm
    requires IsDesktop(a.view) ==> IsDesktop(b.view)
    ensures EffectiveScore(a, w) <= EffectiveScore(b, w)
  {
    hide LatencyPenalty;
    var warmA, warmB := if a.warm then 1.0 else 0.75, if b.warm then 1.0 else 0.75;
    var tierA, tierB := if IsDesktop(a.view) then 1.0 else 0.6, if IsDesktop(b.view) then 1.0 else 0.6;
    var penaltyA, penaltyB := LatencyPenalty(a.latencyMs, w), LatencyPenalty(b.latencyMs, w);
    PenaltyFalls(b.latencyMs, a.latencyMs, w);
    ProductGrows(a.throughput, b.throughput, warmA, warmB);
    ProductGrows(a.throughput * warmA, b.throughput * warmB, penaltyA, penaltyB);
    ProductGrows(a.throughput * warmA * penaltyA, b.throughput * warmB * penaltyB, tierA, tierB);
  }

  // ---- distinct nodes ----

  function NameOf(v: NodeView): NodeId { v.nodeId }
  function NameOfCandidate(c: Candidate): NodeId { c.view.nodeId }

  lemma {:induction false} EligibleKeys(cfg: Config, views: seq<NodeView>, model: Model, busy: bool, cold: bool)
    requires Distinct(Keys(views, NameOf))
    ensures var r := EligibleNodes(cfg, views, model, busy, cold);
            Distinct(Keys(r, NameOf)) && forall k :: k in Keys(r, NameOf) ==> k in Keys(views, NameOf)
  {
    hide Eligible, Keys, Distinct;
    if views != [] {
      var own, rest := views[0].nodeId, EligibleNodes(cfg, views[1..], model, busy, cold);
      KeysCons(views, NameOf);
      DistinctCons(own, Keys(views[1..], NameOf));
      EligibleKeys(cfg, views[1..], model, busy, cold);
      KeysCons([views[0]] + rest, NameOf);
      assert ([views[0]] + rest)[1..] == rest;
      DistinctCons(own, Keys(rest, NameOf));
    }
  }

  /** The eligible nodes are distinct registered nodes. */
  lemma EligibleDistinct(cfg: Config, nodes: OrderedMap<NodeId, RegisteredNode>, model: Model, busy: bool, cold: bool)
    requires nodes.Valid()
    ensures var r := EligibleNodes(cfg, Views(nodes), model, busy, cold);
            Distinct(Keys(r, NameOf)) && forall v | v in r :: v.nodeId in nodes.items
  {
    hide Eligible;
    var listed := Listed(nodes.keys, nodes.items);
    assert Distinct(Keys(listed, NameOf));
    SortKeys(listed, NameOf, ByThroughput);
    EligibleKeys(cfg, Views(nodes), model, busy, cold);
  }

  // ---- the chosen candidates ----

  lemma IdsAreKeys(s: seq<Candidate>)
    ensures Keys(s, NameOfCandidate) == Ids(s)
  {
  }

  /** Sorting candidates keeps their nodes distinct. */
  lemma SortDistinct(s: seq<Candidate>, rank: Candidate -> Rank)
    requires Distinct(Ids(s))
    ensures Distinct(Ids(StableSort(s, rank)))
    ensures forall c | c in StableSort(s, rank) :: c in s
  {
    IdsAreKeys(s);
    IdsAreKeys(StableSort(s, rank));
    SortKeys(s, NameOfCandidate, rank);
    SameElements(StableSort(s, rank), s);
  }

  lemma MultipleOf(d: int, n: nat)
    ensures d >= 1 ==> d * n >= n
    ensures d <= 0 ==> d * n <= 0
  {
    if d >= 1 {
      assert d * n == n + (d - 1) * n;
    }
  }

  /** Fewer than n steps around a ring of n never come back to the start. */
  lemma WrapDistinct(a: nat, b: nat, n: nat)
    requires a < b < a + n
    ensures a % n != b % n
  {
    var d := b / n - a / n;
    assert a == n * (a / n) + a % n && b == n * (b / n) + b % n;
    assert b - a == d * n + (b % n - a % n);
    MultipleOf(d, n);
  }

  lemma RotateDistinct(s: seq<Candidate>, cursor: nat, count: nat)
    requires s != [] && count <= |s| && Distinct(Ids(s))
    ensures Distinct(Ids(Rotate(s, cursor, count)))
  {
    var r := Rotate(s, cursor, count);
    forall i, j | 0 <= i < j < |r|
      ensures Ids(r)[i] != Ids(r)[j]
    {
      WrapDistinct(cursor + i, cursor + j, |s|);
    }
  }

  lemma PrefixDistinct(s: seq<Candidate>, n: nat)
    requires n <= |s| && Distinct(Ids(s))
    ensures Distinct(Ids(s[..n]))
  {
  }

  lemma SortDescends(s: seq<Candidate>, w: Weight)
    ensures Descending(StableSort(s, ByScore(w)), w)
  {
    hide EffectiveScore;
    var sorted := StableSort(s, ByScore(w));
    SortSorts(s, ByScore(w));
    forall i, j | 0 <= i < j < |sorted|
      ensures EffectiveScore(sorted[i], w) >= EffectiveScore(sorted[j], w)
    {
      assert !ByScore(w)(sorted[j]).Ahead(ByScore(w)(sorted[i]));
    }
  }

  ghost predicate Picked(chosen: seq<Candidate>, candidates: seq<Candidate>, width: nat) {
    && chosen != [] && |chosen| <= width
    && Distinct(Ids(chosen))
    && forall c | c in chosen :: c in candidates
  }

  lemma TakeTop(candidates: seq<Candidate>, rank: Candidate -> Rank, width: nat)
    requires candidates != [] && Distinct(Ids(candidates)) && width >= 1
    ensures Picked(Take(StableSort(candidates, rank), width), candidates, width)
  {
    var sorted := StableSort(candidates, rank);
    var n := if width < |sorted| then width else |sorted|;
    SortDistinct(candidates, rank);
    PrefixDistinct(sorted, n);
    assert Take(sorted, width) == sorted[..n];
  }

  /** Every policy picks at least one distinct candidate, and never more than its width. */
  lemma ChosenPicked(policy: Policy, candidates: seq<Candidate>, fanOut: bool, unitCount: nat, cursor: nat)
    requires candidates != [] && unitCount >= 1 && Distinct(Ids(candidates))
    ensures Picked(ChosenFor(policy, candidates, fanOut, unitCount, cursor), candidates, if fanOut then unitCount else 1)
    ensures policy == BestNode ==> |ChosenFor(policy, candidates, fanOut, unitCount, cursor)| == 1
  {
    var width := if fanOut then unitCount else 1;
    match policy
    case BestNode => TakeTop(candidates, ByScore(1.0), 1);
    case ComputeOnly => TakeTop(candidates, ByThroughputPrior, width);
    case NetworkAware => TakeTop(candidates, ByScore(2.5), width);
    case ResourceAware => TakeTop(candidates, BySpareMemory, width);
    case RoundRobin =>
      var sorted := StableSort(candidates, ById);
      var n := if width < |sorted| then width else |sorted|;
      SortDistinct(candidates, ById);
      RotateDistinct(sorted, cursor, n);
    case Adaptive =>
      if fanOut {
        var ranked := StableSort(candidates, ByScore(1.5));
        SortDistinct(candidates, ByScore(1.5));
        SortDescends(candidates, 1.5);
        TrimIsShortPrefix(ranked, unitCount, 1.5);
        PrefixDistinct(ranked, |Trim(ranked, 0, 0.0, unitCount, 1.5)|);
      } else {
        TakeTop(candidates, ByScore(1.5), 1);
      }
  }

  /** What a policy ranks by. */
  function RankFor(policy: Policy): Candidate -> Rank {
    match policy
    case BestNode => ByScore(1.0)
    case ComputeOnly => ByThroughputPrior
    case NetworkAware => ByScore(2.5)
    case ResourceAware => BySpareMemory
    case RoundRobin => ById
    case Adaptive => ByScore(1.5)
  }

  lemma InTheRest(s: seq<Candidate>, n: nat, d: Candidate) returns (j: nat)
    requires n <= |s| && d in s && d !in s[..n]
    ensures n <= j < |s| && s[j] == d
  {
    forall k | 0 <= k < n
      ensures s[k] != d
    {
      assert s[..n][k] in s[..n];
    }
    j :| 0 <= j < |s| && s[j] == d;
  }

  lemma PrefixIsBest(candidates: seq<Candidate>, rank: Candidate -> Rank, n: nat, c: Candidate, d: Candidate)
    requires n <= |candidates| && c in StableSort(candidates, rank)[..n]
    requires d in candidates && d !in StableSort(candidates, rank)[..n]
    ensures !rank(d).Ahead(rank(c))
  {
    hide StableSort, Rank.Ahead;
    var sorted := StableSort(candidates, rank);
    SortSorts(candidates, rank);
    SameElements(sorted, candidates);
    var i :| 0 <= i < n && sorted[i] == c;
    var j := InTheRest(sorted, n, d);
    assert !rank(sorted[j]).Ahead(rank(sorted[i]));
  }

  lemma ChosenIsPrefix(policy: Policy, candidates: seq<Candidate>, fanOut: bool, unitCount: nat, cursor: nat)
    returns (n: nat)
    requires candidates != [] && unitCount >= 1 && policy != RoundRobin
    ensures n <= |candidates|
    ensures ChosenFor(policy, candidates, fanOut, unitCount, cursor) == StableSort(candidates, RankFor(policy))[..n]
  {
    hide StableSort, Trim, Rotate;
    var sorted := StableSort(candidates, RankFor(policy));
    var width := if fanOut && policy != BestNode then unitCount else 1;
    assert sorted[..|sorted|] == sorted;
    if policy == Adaptive && fanOut {
      SortDescends(candidates, 1.5);
      TrimIsShortPrefix(sorted, unitCount, 1.5);
      n := |Trim(sorted, 0, 0.0, unitCount, 1.5)|;
    } else {
      n := if width < |sorted| then width else |sorted|;
    }
  }

  /** Under every policy but the control condition, no machine that was left out ranks
      ahead of one that was chosen. */
  lemma ChosenAreBest(policy: Policy, candidates: seq<Candidate>, fanOut: bool, unitCount: nat, cursor: nat,
                      c: Candidate, d: Candidate)
    requires candidates != [] && unitCount >= 1 && policy != RoundRobin
    requires c in ChosenFor(policy, candidates, fanOut, unitCount, cursor)
    requires d in candidates && d !in ChosenFor(policy, candidates, fanOut, unitCount, cursor)
    ensures !RankFor(policy)(d).Ahead(RankFor(policy)(c))
  {
    hide ChosenFor, StableSort, RankFor;
    var n := ChosenIsPrefix(policy, candidates, fanOut, unitCount, cursor);
    PrefixIsBest(candidates, RankFor(policy), n, c, d);
  }

  /** The reduce goes to the best-scoring machine of its pool. */
  lemma ReduceIsBest(cfg: Config, views: seq<NodeView>, model: Model, v: NodeView)
    requires PickReduceNode(cfg, views, model).Some?
    requires v in views && Eligible(cfg, v.node, model, false, false)
    ensures var r := PickReduceNode(cfg, views, model).value;
            (IsDesktop(v) || !cfg.preferDesktopForReduce || !IsDesktop(r)) ==>
              EffectiveScore(ToCandidate(v, model), 1.5) <= EffectiveScore(ToCandidate(r, model), 1.5)
  {
    hide StableSort, EffectiveScore;
    var eligible := EligibleNodes(cfg, views, model, false, false);
    var desktops := Desktops(eligible);
    var pool := if cfg.preferDesktopForReduce && desktops != [] then desktops else eligible;
    if v in pool {
      BestOfPool(pool, model, v);
    }
  }

  lemma BestOfPool(pool: seq<NodeView>, model: Model, v: NodeView)
    requires v in pool
    ensures var best := PickSingle(ToCandidates(pool, model), 1.5);
            best.Some? && best.value == ToCandidate(best.value.view, model)
            && EffectiveScore(ToCandidate(v, model), 1.5) <= EffectiveScore(best.value, 1.5)
  {
    hide StableSort, EffectiveScore;
    var candidates := ToCandidates(pool, model);
    var i := FirstOfSort(candidates, ByScore(1.5));
    var k :| 0 <= k < |pool| && pool[k] == v;
    assert candidates[k] == ToCandidate(v, model);
    assert !ByScore(1.5)(candidates[k]).Ahead(ByScore(1.5)(candidates[i]));
  }

  // ---- shares ----

  function SumShares(ids: seq<NodeId>, shares: map<NodeId, real>): real
    requires forall n | n in ids :: n in shares
  {
    if ids == [] then 0.0 else SumShares(ids[..|ids| - 1], shares) + shares[ids[|ids| - 1]]
  }

  lemma {:induction false} SumSharesFrame(ids: seq<NodeId>, a: map<NodeId, real>, b: map<NodeId, real>)
    requires forall n | n in ids :: n in a && n in b && a[n] == b[n]
    ensures SumShares(ids, a) == SumShares(ids, b)
  {
    if ids != [] {
      SumSharesFrame(ids[..|ids| - 1], a, b);
    }
  }

  /** Extending a list of distinct ids by one share adds that share. */
  lemma SumSharesPush(ids: seq<NodeId>, shares: map<NodeId, real>, n: NodeId, share: real)
    requires n !in ids && forall m | m in ids :: m in shares
    ensures SumShares(ids + [n], shares[n := share]) == SumShares(ids, shares) + share
  {
    var all := ids + [n];
    assert all[..|all| - 1] == ids;
    SumSharesFrame(ids, shares, shares[n := share]);
  }

  lemma DistinctLast(chosen: seq<Candidate>)
    requires chosen != [] && Distinct(Ids(chosen))
    ensures var front, last := chosen[..|chosen| - 1], chosen[|chosen| - 1];
            Ids(chosen) == Ids(front) + [last.view.nodeId] && Distinct(Ids(front)) && last.view.nodeId !in Ids(front)
  {
  }

  lemma {:induction false} SharesOverSum(chosen: seq<Candidate>, w: Weight, total: real)
    requires total > 0.0 && Distinct(Ids(chosen))
    ensures SumShares(Ids(chosen), SharesOver(chosen, w, total)) == TotalScore(chosen, w) / total
  {
    hide EffectiveScore, SumShares;
    if chosen == [] {
      assert SumShares([], map[]) == 0.0 by { EmptySum(); }
    } else {
      var front, last := chosen[..|chosen| - 1], chosen[|chosen| - 1];
      DistinctLast(chosen);
      SharesOverSum(front, w, total);
      SumSharesPush(Ids(front), SharesOver(front, w, total), last.view.nodeId, EffectiveScore(last, w) / total);
      AddOver(TotalScore(front, w), EffectiveScore(last, w), total);
    }
  }

  lemma EmptySum()
    ensures SumShares([], map[]) == 0.0
  {
  }

  lemma {:induction false} SharesPositive(chosen: seq<Candidate>, w: Weight, total: real)
    requires total > 0.0
    ensures forall n | n in SharesOver(chosen, w, total) :: SharesOver(chosen, w, total)[n] > 0.0
  {
    hide EffectiveScore;
    if chosen != [] {
      SharesPositive(chosen[..|chosen| - 1], w, total);
      assert EffectiveScore(chosen[|chosen| - 1], w) / total > 0.0;
    }
  }

  lemma {:induction false} EvenSum(chosen: seq<Candidate>, even: real)
    requires Distinct(Ids(chosen))
    ensures SumShares(Ids(chosen), EvenShares(chosen, even)) == |chosen| as real * even
  {
    hide SumShares;
    if chosen == [] {
      assert SumShares([], map[]) == 0.0 by { EmptySum(); }
    } else {
      var front, last := chosen[..|chosen| - 1], chosen[|chosen| - 1];
      DistinctLast(chosen);
      EvenSum(front, even);
      SumSharesPush(Ids(front), EvenShares(front, even), last.view.nodeId, even);
      assert |chosen| as real * even == |front| as real * even + even;
    }
  }

  lemma SharesFromSum(chosen: seq<Candidate>, w: Weight)
    requires chosen != [] && Distinct(Ids(chosen))
    ensures SumShares(Ids(chosen), SharesFrom(chosen, w)) == 1.0
    ensures forall n | n in SharesFrom(chosen, w) :: SharesFrom(chosen, w)[n] > 0.0
  {
    hide TotalScore, SharesOver, SumShares;
    var total := TotalScore(chosen, w);
    SharesOverSum(chosen, w, total);
    SharesPositive(chosen, w, total);
    assert total / total == 1.0;
  }

  lemma SharesForSum(policy: Policy, chosen: seq<Candidate>, fanOut: bool)
    requires chosen != [] && Distinct(Ids(chosen))
    requires policy == BestNode || (policy == Adaptive && !fanOut) ==> |chosen| == 1
    ensures SumShares(Ids(chosen), SharesFor(policy, chosen, fanOut)) == 1.0
    ensures forall n | n in SharesFor(policy, chosen, fanOut) :: SharesFor(policy, chosen, fanOut)[n] > 0.0
  {
    hide SumShares, SharesFrom, EffectiveScore;
    match policy
    case BestNode => EvenSum(chosen, 1.0);
    case ComputeOnly => SharesFromSum(chosen, 0.0);
    case NetworkAware => SharesFromSum(chosen, 2.5);
    case ResourceAware => SharesFromSum(chosen, 1.0);
    case RoundRobin => EvenSum(chosen, 1.0 / |chosen| as real);
    case Adaptive =>
      if fanOut { SharesFromSum(chosen, 1.5); } else { EvenSum(chosen, 1.0); }
  }

  /** A cluster of distinct connected nodes with positive shares that sum to exactly one. */
  ghost predicate ClusterOk(cluster: Cluster, nodes: OrderedMap<NodeId, RegisteredNode>) {
    && cluster.nodeIds != []
    && Distinct(cluster.nodeIds)
    && (forall n | n in cluster.nodeIds :: n in nodes.items && n in cluster.shares && cluster.shares[n] > 0.0)
    && SumShares(cluster.nodeIds, cluster.shares) == 1.0
  }

  /** A cluster forms exactly when somebody is eligible, whatever the policy. */
  lemma ClusterForms(cfg: Config, nodes: OrderedMap<NodeId, RegisteredNode>, policy: Policy, model: Model,
                     fanOut: bool, units: nat, cursor: nat)
    requires nodes.Valid()
    ensures var eligible := EligibleNodes(cfg, Views(nodes), model, false, false);
            var cluster := ClusterFor(policy, eligible, model, fanOut, units, cursor);
            && (cluster.nodeIds == [] <==> eligible == [])
            && (eligible != [] ==>
                  ClusterOk(cluster, nodes) && |cluster.nodeIds| <= if fanOut && units > 0 then units else 1)
  {
    hide ChosenFor, SharesFor, SumShares, Views, Eligible;
    var eligible := EligibleNodes(cfg, Views(nodes), model, false, false);
    if eligible != [] {
      EligibleDistinct(cfg, nodes, model, false, false);
      var candidates := ToCandidates(eligible, model);
      assert Ids(candidates) == Keys(eligible, NameOf);
      var unitCount := if units < 1 then 1 else units;
      var chosen := ChosenFor(policy, candidates, fanOut, unitCount, cursor);
      ChosenPicked(policy, candidates, fanOut, unitCount, cursor);
      SharesForSum(policy, chosen, fanOut);
      forall n | n in Ids(chosen)
        ensures n in nodes.items
      {
        var i :| 0 <= i < |chosen| && Ids(chosen)[i] == n;
        assert chosen[i] in candidates;
        assert chosen[i].view in eligible;
      }
    }
  }
}
