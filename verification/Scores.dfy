/** What the score of a machine is, exactly, and what the shares of a cluster owe to it. */
module Scores {
  import opened Collections
  import opened Protocol
  import opened Sorting
  import opened Scheduler
  import opened Clusters

  /** A cold machine counts three quarters, one that is no desktop three fifths. */
  ghost function Standing(c: Candidate): real {
    (if c.warm then 1.0 else 3.0 / 4.0) * (if c.view.node.profile.kind == DesktopWorker then 1.0 else 3.0 / 5.0)
  }

  lemma PenaltyExactly(latencyMs: real, w: Weight)
    requires latencyMs > 0.0
    ensures LatencyPenalty(latencyMs, w) * (100.0 + w * latencyMs) == 100.0
  {
    var slowdown := 1.0 + w * (latencyMs / 100.0);
    assert slowdown > 0.0 by { if w > 0.0 { ProductPositive(w, latencyMs / 100.0); } }
    assert 100.0 + w * latencyMs == 100.0 * slowdown by { assert w * (latencyMs / 100.0) * 100.0 == w * latencyMs; }
    assert LatencyPenalty(latencyMs, w) * slowdown == 1.0;
  }

  lemma Regroup(speed: real, warm: real, penalty: real, tier: real, base: real)
    requires penalty * base == 100.0
    ensures speed * warm * penalty * tier * base == 100.0 * speed * (warm * tier)
  {
    assert speed * warm * penalty * tier * base == speed * (warm * tier) * (penalty * base);
  }

  /** The score of a machine times 100 plus the weighted latency is 100 times its speed, by
      its standing. */
  lemma ScoreExactly(c: Candidate, w: Weight)
    ensures EffectiveScore(c, w) * (100.0 + w * c.latencyMs) == 100.0 * c.throughput * Standing(c)
  {
    hide LatencyPenalty;
    PenaltyExactly(c.latencyMs, w);
    Regroup(c.throughput, if c.warm then 1.0 else 0.75, LatencyPenalty(c.latencyMs, w),
            if c.view.node.profile.kind == DesktopWorker then 1.0 else 0.6, 100.0 + w * c.latencyMs);
  }

  predicate SameKind(a: Candidate, b: Candidate) {
    a.view.node.profile.kind == DesktopWorker <==> b.view.node.profile.kind == DesktopWorker
  }

  lemma BasePositive(latencyMs: real, w: Weight)
    requires latencyMs > 0.0
    ensures 100.0 + w * latencyMs > 0.0
  {
    if w > 0.0 { ProductPositive(w, latencyMs); }
  }

  lemma CancelFactor(x: real, y: real, base: real)
    requires base > 0.0 && x * base == y * base
    ensures x == y
  {
    assert (x - y) * base == 0.0;
  }

  /** Speed counts in proportion. */
  lemma SpeedCounts(a: Candidate, b: Candidate, w: Weight)
    requires a.latencyMs == b.latencyMs && a.warm == b.warm && SameKind(a, b)
    ensures EffectiveScore(a, w) * b.throughput == EffectiveScore(b, w) * a.throughput
  {
    hide EffectiveScore;
    ScoreExactly(a, w);
    ScoreExactly(b, w);
    var base, sa, sb := 100.0 + w * a.latencyMs, EffectiveScore(a, w), EffectiveScore(b, w);
    BasePositive(a.latencyMs, w);
    var x, y := sa * b.throughput, sb * a.throughput;
    assert x * base == sa * base * b.throughput;
    assert y * base == sb * base * a.throughput;
    assert 100.0 * a.throughput * Standing(a) * b.throughput == 100.0 * b.throughput * Standing(a) * a.throughput;
    CancelFactor(x, y, base);
  }

  /** Latency counts against the same product. */
  lemma LatencyCounts(a: Candidate, b: Candidate, w: Weight)
    requires a.throughput == b.throughput && a.warm == b.warm && SameKind(a, b)
    ensures EffectiveScore(a, w) * (100.0 + w * a.latencyMs) == EffectiveScore(b, w) * (100.0 + w * b.latencyMs)
  {
    hide EffectiveScore;
    ScoreExactly(a, w);
    ScoreExactly(b, w);
  }

  /** A machine without the model is worth three quarters of the same one with it, a browser
      three fifths of the same desktop. */
  lemma StandingCounts(a: Candidate, b: Candidate, w: Weight)
    requires a.throughput == b.throughput && a.latencyMs == b.latencyMs
    ensures !a.warm && b.warm && SameKind(a, b) ==> EffectiveScore(a, w) == EffectiveScore(b, w) * 3.0 / 4.0
    ensures a.warm == b.warm && !IsDesktop(a.view) && IsDesktop(b.view) ==>
              EffectiveScore(a, w) == EffectiveScore(b, w) * 3.0 / 5.0
  {
    hide EffectiveScore;
    ScoreExactly(a, w);
    ScoreExactly(b, w);
    var base, sa, sb := 100.0 + w * a.latencyMs, EffectiveScore(a, w), EffectiveScore(b, w);
    BasePositive(a.latencyMs, w);
    if !a.warm && b.warm && SameKind(a, b) {
      StandingProduct(a.throughput, Standing(b), 3.0 / 4.0);
      CancelFactor(sa, sb * (3.0 / 4.0), base);
    }
    if a.warm == b.warm && !IsDesktop(a.view) && IsDesktop(b.view) {
      StandingProduct(a.throughput, Standing(b), 3.0 / 5.0);
      CancelFactor(sa, sb * (3.0 / 5.0), base);
    }
  }

  lemma StandingProduct(speed: real, standing: real, part: real)
    ensures 100.0 * speed * (standing * part) == 100.0 * speed * standing * part
  {
  }

  /** A warm desktop of one token a second, 100 ms away, has half a point at weight one. */
  lemma ScoreAnchor(c: Candidate)
    requires c.throughput == 1.0 && c.latencyMs == 100.0 && c.warm && IsDesktop(c.view)
    ensures EffectiveScore(c, 1.0) == 0.5
  {
    hide EffectiveScore;
    ScoreExactly(c, 1.0);
    CancelFactor(EffectiveScore(c, 1.0), 0.5, 200.0);
  }

  /** Better in one respect and no worse in the others is worth strictly more. */
  lemma ScoreRewardsStrictly(a: Candidate, b: Candidate, w: Weight)
    requires a.throughput <= b.throughput && b.latencyMs <= a.latencyMs
    requires (a.warm ==> b.warm) && (IsDesktop(a.view) ==> IsDesktop(b.view))
    requires a.throughput < b.throughput || (w > 0.0 && b.latencyMs < a.latencyMs)
             || (b.warm && !a.warm) || (IsDesktop(b.view) && !IsDesktop(a.view))
    ensures EffectiveScore(a, w) < EffectiveScore(b, w)
  {
    hide EffectiveScore;
    ScoreExactly(a, w);
    ScoreExactly(b, w);
    var near, far := 100.0 + w * b.latencyMs, 100.0 + w * a.latencyMs;
    BasePositive(b.latencyMs, w);
    ProductGrows(w, w, b.latencyMs, a.latencyMs);
    if w > 0.0 && b.latencyMs < a.latencyMs { ProductPositive(w, a.latencyMs - b.latencyMs); }
    WorkGrows(a.throughput, Standing(a), b.throughput, Standing(b));
    QuotientGrows(EffectiveScore(a, w), far, EffectiveScore(b, w), near);
  }

  lemma WorkGrows(x: real, p: real, y: real, q: real)
    requires 0.0 < x <= y && 0.0 < p <= q
    ensures 100.0 * x * p <= 100.0 * y * q
    ensures x < y || p < q ==> 100.0 * x * p < 100.0 * y * q
  {
    assert y * q - x * p == (y - x) * q + x * (q - p);
    if x < y { ProductPositive(y - x, q); }
    if p < q { ProductPositive(x, q - p); }
  }

  lemma QuotientGrows(s: real, far: real, t: real, near: real)
    requires s > 0.0 && t > 0.0 && 0.0 < near <= far && s * far <= t * near
    requires near < far || s * far < t * near
    ensures s < t
  {
    if near < far { ProductPositive(t, far - near); }
    assert (t - s) * far == t * (far - near) + (t * near - s * far);
    PositiveFactor(t - s, far);
  }

  lemma PositiveFactor(x: real, y: real)
    requires y > 0.0 && x * y > 0.0
    ensures x > 0.0
  {
  }

  // ---- shares ----

  /** A share is the score over the total. */
  lemma {:induction false} ShareAt(chosen: seq<Candidate>, w: Weight, total: real, i: nat)
    requires total > 0.0 && Distinct(Ids(chosen)) && i < |chosen|
    ensures SharesOver(chosen, w, total)[chosen[i].view.nodeId] == EffectiveScore(chosen[i], w) / total
  {
    hide EffectiveScore;
    var front, last := chosen[..|chosen| - 1], chosen[|chosen| - 1];
    DistinctLast(chosen);
    if i < |front| {
      ShareAt(front, w, total, i);
      assert Ids(front)[i] == chosen[i].view.nodeId;
    }
  }

  lemma CrossQuotient(x: real, y: real, p: real, q: real, total: real)
    requires total > 0.0 && x * q == y * p
    ensures x / total * q == y / total * p
  {
    assert x / total * q == x * q / total && y / total * p == y * p / total;
  }

  /** The shares of two members of a cluster are in the ratio of their scores. */
  lemma SharesInRatio(chosen: seq<Candidate>, w: Weight, i: nat, k: nat)
    requires Distinct(Ids(chosen)) && i < |chosen| && k < |chosen|
    ensures var shares := SharesFrom(chosen, w);
            shares[chosen[i].view.nodeId] * EffectiveScore(chosen[k], w)
              == shares[chosen[k].view.nodeId] * EffectiveScore(chosen[i], w)
  {
    hide EffectiveScore, SharesOver, TotalScore;
    var total := TotalScore(chosen, w);
    ShareAt(chosen, w, total, i);
    ShareAt(chosen, w, total, k);
    CrossQuotient(EffectiveScore(chosen[i], w), EffectiveScore(chosen[k], w), EffectiveScore(chosen[i], w),
                  EffectiveScore(chosen[k], w), total);
  }

  /** The weight of the network in each policy that shares by score. */
  ghost predicate SharesByScore(policy: Policy, w: Weight) {
    (policy == Adaptive && w == 1.5) || (policy == NetworkAware && w == 2.5) || (policy == ResourceAware && w == 1.0)
    || (policy == ComputeOnly && w == 0.0)
  }

  lemma RatioOfSpeeds(x: real, y: real, sx: real, sy: real, p: real, q: real)
    requires x * sy == y * sx && sx * q == sy * p && sx > 0.0
    ensures x * q == y * p
  {
    assert x * q * sx == x * (sx * q) == x * (sy * p) == (x * sy) * p == (y * sx) * p == y * p * sx;
    CancelFactor(x * q, y * p, sx);
  }

  /** When work fans out, two machines alike but for their speed get shares in the ratio of
      their speeds; in general the ratio is that of speed by standing over 100 plus the
      weighted latency. */
  lemma SharesFollowSpeed(policy: Policy, w: Weight, candidates: seq<Candidate>, unitCount: nat, cursor: nat,
                          i: nat, k: nat)
    requires candidates != [] && unitCount >= 1 && Distinct(Ids(candidates)) && SharesByScore(policy, w)
    requires var chosen := ChosenFor(policy, candidates, true, unitCount, cursor); i < |chosen| && k < |chosen|
    ensures var chosen := ChosenFor(policy, candidates, true, unitCount, cursor);
            var a, b := chosen[i], chosen[k];
            var shares := SharesFor(policy, chosen, true);
            && a.view.nodeId in shares && b.view.nodeId in shares
            && shares[a.view.nodeId] * (b.throughput * Standing(b) * (100.0 + w * a.latencyMs))
                 == shares[b.view.nodeId] * (a.throughput * Standing(a) * (100.0 + w * b.latencyMs))
            && (a.latencyMs == b.latencyMs && a.warm == b.warm && SameKind(a, b) ==>
                  shares[a.view.nodeId] * b.throughput == shares[b.view.nodeId] * a.throughput)
  {
    hide EffectiveScore, ChosenFor, SharesFrom, SharesFor, Standing;
    var chosen := ChosenFor(policy, candidates, true, unitCount, cursor);
    var a, b := chosen[i], chosen[k];
    ChosenPicked(policy, candidates, true, unitCount, cursor);
    SharesInRatio(chosen, w, i, k);
    SharesAre(policy, w, chosen);
    var shares := SharesFor(policy, chosen, true);
    assert Ids(chosen)[i] == a.view.nodeId && Ids(chosen)[k] == b.view.nodeId;
    AnyRatio(a, b, w, shares[a.view.nodeId], shares[b.view.nodeId]);
    if a.latencyMs == b.latencyMs && a.warm == b.warm && SameKind(a, b) {
      AlikeRatio(a, b, w, shares[a.view.nodeId], shares[b.view.nodeId]);
    }
  }

  lemma SharesAre(policy: Policy, w: Weight, chosen: seq<Candidate>)
    requires chosen != [] && SharesByScore(policy, w)
    ensures SharesFor(policy, chosen, true) == SharesFrom(chosen, w)
  {
    hide SharesFrom;
  }

  lemma AnyRatio(a: Candidate, b: Candidate, w: Weight, x: real, y: real)
    requires x * EffectiveScore(b, w) == y * EffectiveScore(a, w)
    ensures x * (b.throughput * Standing(b) * (100.0 + w * a.latencyMs))
         == y * (a.throughput * Standing(a) * (100.0 + w * b.latencyMs))
  {
    hide EffectiveScore, Standing;
    ScoresCross(a, b, w);
    RatioOfSpeeds(x, y, EffectiveScore(a, w), EffectiveScore(b, w),
                  a.throughput * Standing(a) * (100.0 + w * b.latencyMs),
                  b.throughput * Standing(b) * (100.0 + w * a.latencyMs));
  }

  lemma AlikeRatio(a: Candidate, b: Candidate, w: Weight, x: real, y: real)
    requires a.latencyMs == b.latencyMs && a.warm == b.warm && SameKind(a, b)
    requires x * EffectiveScore(b, w) == y * EffectiveScore(a, w)
    ensures x * b.throughput == y * a.throughput
  {
    hide EffectiveScore;
    SpeedCounts(a, b, w);
    RatioOfSpeeds(x, y, EffectiveScore(a, w), EffectiveScore(b, w), a.throughput, b.throughput);
  }

  lemma ScoresCross(a: Candidate, b: Candidate, w: Weight)
    ensures EffectiveScore(a, w) * (b.throughput * Standing(b) * (100.0 + w * a.latencyMs))
         == EffectiveScore(b, w) * (a.throughput * Standing(a) * (100.0 + w * b.latencyMs))
  {
    hide EffectiveScore, Standing;
    ScoreExactly(a, w);
    ScoreExactly(b, w);
    CrossOut(EffectiveScore(a, w), 100.0 + w * a.latencyMs, a.throughput * Standing(a),
             EffectiveScore(b, w), 100.0 + w * b.latencyMs, b.throughput * Standing(b));
  }

  lemma CrossOut(s: real, x: real, p: real, t: real, y: real, q: real)
    requires s * x == 100.0 * p && t * y == 100.0 * q
    ensures s * (q * x) == t * (p * y)
  {
    assert s * (q * x) == (s * x) * q && t * (p * y) == (t * y) * p;
  }

  /** What a machine was measured at, or what its hardware suggests while nothing was. */
  ghost function SpeedOf(node: RegisteredNode): real {
    if node.metrics.tokensPerSecond.Some? && node.metrics.tokensPerSecond.value > 0.0
    then node.metrics.tokensPerSecond.value
    else node.profile.throughputPrior
  }

  lemma CandidateExactly(v: NodeView, model: Model)
    ensures var c := ToCandidate(v, model);
            && c.view == v && c.throughput == (if SpeedOf(v.node) >= 0.01 then SpeedOf(v.node) else 0.01)
            && c.latencyMs == (if v.node.profile.latencyMs >= 0.1 then v.node.profile.latencyMs else 0.1)
            && (c.warm <==> model.id in v.node.profile.runtime.loadedModels)
  {
  }

  /** Two desktops that hold the model and are equally far away. */
  predicate Alike(a: RegisteredNode, b: RegisteredNode, model: Model) {
    && a.profile.kind == DesktopWorker && b.profile.kind == DesktopWorker
    && model.id in a.profile.runtime.loadedModels && model.id in b.profile.runtime.loadedModels
    && a.profile.latencyMs == b.profile.latencyMs
  }

  lemma FindChosen(policy: Policy, candidates: seq<Candidate>, unitCount: nat, cursor: nat, n: NodeId) returns (i: nat)
    requires candidates != [] && unitCount >= 1 && Distinct(Ids(candidates))
    requires n in Ids(ChosenFor(policy, candidates, true, unitCount, cursor))
    ensures var chosen := ChosenFor(policy, candidates, true, unitCount, cursor);
            i < |chosen| && chosen[i].view.nodeId == n && chosen[i] in candidates
  {
    hide ChosenFor;
    ChosenPicked(policy, candidates, true, unitCount, cursor);
    var chosen := ChosenFor(policy, candidates, true, unitCount, cursor);
    i :| 0 <= i < |chosen| && Ids(chosen)[i] == n;
  }

  lemma SameCandidate(eligible: seq<NodeView>, model: Model, v: NodeView, c: Candidate)
    requires Distinct(Keys(eligible, NameOf)) && v in eligible && c in ToCandidates(eligible, model)
    requires c.view.nodeId == v.nodeId
    ensures c == ToCandidate(v, model)
  {
    var i :| 0 <= i < |eligible| && ToCandidates(eligible, model)[i] == c;
    var k :| 0 <= k < |eligible| && eligible[k] == v;
    assert Keys(eligible, NameOf)[i] == Keys(eligible, NameOf)[k];
  }

  /** In the cluster of a fanned-out batch, two alike machines get work in proportion to
      their speeds. */
  lemma ClusterSharesFollowSpeed(policy: Policy, w: Weight, eligible: seq<NodeView>, model: Model, units: nat,
                                 cursor: nat, a: NodeView, b: NodeView)
    requires Distinct(Keys(eligible, NameOf)) && a in eligible && b in eligible && SharesByScore(policy, w)
    requires Alike(a.node, b.node, model) && SpeedOf(a.node) >= 0.01 && SpeedOf(b.node) >= 0.01
    requires var cluster := ClusterFor(policy, eligible, model, true, units, cursor);
             a.nodeId in cluster.nodeIds && b.nodeId in cluster.nodeIds
    ensures var shares := ClusterFor(policy, eligible, model, true, units, cursor).shares;
            && a.nodeId in shares && b.nodeId in shares
            && shares[a.nodeId] * SpeedOf(b.node) == shares[b.nodeId] * SpeedOf(a.node)
  {
    hide ChosenFor, SharesFor, ToCandidate, Standing, SpeedOf;
    var unitCount := if units < 1 then 1 else units;
    var candidates := ToCandidates(eligible, model);
    assert Ids(candidates) == Keys(eligible, NameOf);
    var i := FindChosen(policy, candidates, unitCount, cursor, a.nodeId);
    var k := FindChosen(policy, candidates, unitCount, cursor, b.nodeId);
    var chosen := ChosenFor(policy, candidates, true, unitCount, cursor);
    SameCandidate(eligible, model, a, chosen[i]);
    SameCandidate(eligible, model, b, chosen[k]);
    CandidateExactly(a, model);
    CandidateExactly(b, model);
    SharesFollowSpeed(policy, w, candidates, unitCount, cursor, i, k);
  }

  // ---- rankings ----

  /** What each policy looks for, in the machines' own numbers. */
  ghost function Merit(policy: Policy, c: Candidate): real
    requires policy != RoundRobin
  {
    match policy
    case ComputeOnly => c.throughput
    case ResourceAware => c.view.node.profile.usableMemoryMB as real * c.view.node.governor.capacity
    case BestNode => Worth(c, 1.0)
    case NetworkAware => Worth(c, 2.5)
    case Adaptive => Worth(c, 1.5)
  }

  ghost function Worth(c: Candidate, w: Weight): real {
    BasePositive(c.latencyMs, w);
    100.0 * c.throughput * Standing(c) / (100.0 + w * c.latencyMs)
  }

  lemma WorthIsScore(c: Candidate, w: Weight)
    ensures Worth(c, w) == EffectiveScore(c, w)
  {
    hide EffectiveScore, Standing;
    ScoreExactly(c, w);
    var base := 100.0 + w * c.latencyMs;
    BasePositive(c.latencyMs, w);
    CancelFactor(Worth(c, w), EffectiveScore(c, w), base);
  }

  /** No machine that was left out has more of what the policy looks for. */
  lemma ChosenHaveMost(policy: Policy, candidates: seq<Candidate>, fanOut: bool, unitCount: nat, cursor: nat,
                       c: Candidate, d: Candidate)
    requires candidates != [] && unitCount >= 1 && policy != RoundRobin
    requires c in ChosenFor(policy, candidates, fanOut, unitCount, cursor)
    requires d in candidates && d !in ChosenFor(policy, candidates, fanOut, unitCount, cursor)
    ensures Merit(policy, d) <= Merit(policy, c)
  {
    hide ChosenFor, EffectiveScore, Worth;
    ChosenAreBest(policy, candidates, fanOut, unitCount, cursor, c, d);
    WorthIsScore(c, 1.0);
    WorthIsScore(c, 1.5);
    WorthIsScore(c, 2.5);
    WorthIsScore(d, 1.0);
    WorthIsScore(d, 1.5);
    WorthIsScore(d, 2.5);
  }

  /** The reduce goes to the machine worth most in its pool. */
  lemma ReduceHasMost(cfg: Config, views: seq<NodeView>, model: Model, v: NodeView)
    requires PickReduceNode(cfg, views, model).Some?
    requires v in views && Eligible(cfg, v.node, model, false, false)
    ensures var r := PickReduceNode(cfg, views, model).value;
            (IsDesktop(v) || !cfg.preferDesktopForReduce || !IsDesktop(r)) ==>
              Worth(ToCandidate(v, model), 1.5) <= Worth(ToCandidate(r, model), 1.5)
  {
    hide PickReduceNode, EffectiveScore, Worth, Eligible, ToCandidate;
    ReduceIsBest(cfg, views, model, v);
    WorthIsScore(ToCandidate(v, model), 1.5);
    WorthIsScore(ToCandidate(PickReduceNode(cfg, views, model).value, model), 1.5);
  }
}
