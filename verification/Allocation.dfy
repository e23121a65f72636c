/** Largest-remainder allocation: shares become whole task counts. */
module Allocation {
  import opened Collections
  import opened Protocol
  import opened Reals
  import opened Sorting
  import opened Clusters

  /** A node with its exact quota. */
  datatype Quota = Quota(id: NodeId, value: real) {
    function Floor(): int { value.Floor }
    function Remainder(): real { value - value.Floor as real }
  }

  function ShareOf(shares: map<NodeId, real>, id: NodeId): real {
    if id in shares then shares[id] else 0.0
  }

  function Quotas(ids: seq<NodeId>, shares: map<NodeId, real>, total: nat): (r: seq<Quota>)
    ensures |r| == |ids| && forall i | 0 <= i < |r| :: r[i].id == ids[i]
  {
    seq(|ids|, i requires 0 <= i < |ids| => Quota(ids[i], ShareOf(shares, ids[i]) * total as real))
  }

  function ByRemainder(q: Quota): Rank {
    Rank(-q.Remainder(), 0.0)
  }

  type Counts = map<NodeId, int>

  function CountOf(counts: Counts, id: NodeId): int {
    if id in counts then counts[id] else 0
  }

  function FloorCounts(quotas: seq<Quota>): (r: Counts) {
    if quotas == [] then map[]
    else FloorCounts(quotas[..|quotas| - 1])[quotas[|quotas| - 1].id := quotas[|quotas| - 1].Floor()]
  }

  function FloorSum(quotas: seq<Quota>): int {
    if quotas == [] then 0 else FloorSum(quotas[..|quotas| - 1]) + quotas[|quotas| - 1].Floor()
  }

  /** Hand out `left` more, one each in ranking order from position i, wrapping around. */
  function TopUp(counts: Counts, ranked: seq<Quota>, i: nat, left: nat): (r: Counts)
    requires ranked != []
    decreases left
  {
    if left == 0 then counts
    else
      var id := ranked[i % |ranked|].id;
      TopUp(counts[id := CountOf(counts, id) + 1], ranked, i + 1, left - 1)
  }

  function Allocate(ids: seq<NodeId>, shares: map<NodeId, real>, total: nat): (r: Counts) {
    var quotas := Quotas(ids, shares, total);
    var left := total - FloorSum(quotas);
    if ids == [] || left <= 0 then FloorCounts(quotas)
    else TopUp(FloorCounts(quotas), StableSort(quotas, ByRemainder), 0, left)
  }

  /** The loops of the source. */
  method AllocateByShare(ids: seq<NodeId>, shares: map<NodeId, real>, total: nat) returns (out: Counts)
    ensures out == Allocate(ids, shares, total)
  {
    var exact := Quotas(ids, shares, total);
    out := map[];
    var placed := 0;
    for k := 0 to |exact|
      invariant out == FloorCounts(exact[..k]) && placed == FloorSum(exact[..k])
    {
      assert exact[..k + 1][..k] == exact[..k];
      var floor := exact[k].Floor();
      out := out[exact[k].id := floor];
      placed := placed + floor;
    }
    assert exact[..|exact|] == exact;
    var remainders := StableSort(exact, ByRemainder);
    if placed < total && |remainders| > 0 {
      var i := 0;
      while placed < total
        invariant placed <= total
        invariant TopUp(out, remainders, i, total - placed) == Allocate(ids, shares, total)
      {
        var entry := remainders[i % |remainders|];
        out := out[entry.id := CountOf(out, entry.id) + 1];
        placed := placed + 1;
        i := i + 1;
      }
    }
  }

  // ---- totals ----

  function CountSum(quotas: seq<Quota>, counts: Counts): int {
    if quotas == [] then 0 else CountSum(quotas[..|quotas| - 1], counts) + CountOf(counts, quotas[|quotas| - 1].id)
  }

  function IdOf(q: Quota): NodeId { q.id }

  function QIds(quotas: seq<Quota>): (r: seq<NodeId>)
    ensures |r| == |quotas| && forall i | 0 <= i < |r| :: r[i] == quotas[i].id
  {
    Keys(quotas, IdOf)
  }

  lemma {:induction false} CountSumSet(quotas: seq<Quota>, counts: Counts, id: NodeId, x: int)
    requires Distinct(QIds(quotas))
    ensures CountSum(quotas, counts[id := x])
         == CountSum(quotas, counts) + if id in QIds(quotas) then x - CountOf(counts, id) else 0
  {
    if quotas != [] {
      var front, last := quotas[..|quotas| - 1], quotas[|quotas| - 1];
      assert QIds(quotas) == QIds(front) + [last.id];
      CountSumSet(front, counts, id, x);
    }
  }

  lemma {:induction false} FloorsSum(quotas: seq<Quota>)
    requires Distinct(QIds(quotas))
    ensures CountSum(quotas, FloorCounts(quotas)) == FloorSum(quotas)
  {
    if quotas != [] {
      var front, last := quotas[..|quotas| - 1], quotas[|quotas| - 1];
      assert QIds(quotas) == QIds(front) + [last.id];
      FloorsSum(front);
      CountSumSet(front, FloorCounts(front), last.id, last.Floor());
    }
  }

  lemma {:induction false} FloorAt(quotas: seq<Quota>, k: nat)
    requires k < |quotas| && Distinct(QIds(quotas))
    ensures CountOf(FloorCounts(quotas), quotas[k].id) == quotas[k].Floor()
  {
    var front, last := quotas[..|quotas| - 1], quotas[|quotas| - 1];
    assert QIds(quotas) == QIds(front) + [last.id];
    if k < |front| {
      FloorAt(front, k);
    }
  }

  /** Topping up adds exactly what was left, however often it wraps. */
  lemma {:induction false} TopUpTotal(quotas: seq<Quota>, counts: Counts, ranked: seq<Quota>, i: nat, left: nat)
    requires ranked != [] && Distinct(QIds(quotas))
    requires forall k | 0 <= k < |ranked| :: ranked[k].id in QIds(quotas)
    ensures CountSum(quotas, TopUp(counts, ranked, i, left)) == CountSum(quotas, counts) + left
    decreases left
  {
    if left > 0 {
      var id := ranked[i % |ranked|].id;
      CountSumSet(quotas, counts, id, CountOf(counts, id) + 1);
      TopUpTotal(quotas, counts[id := CountOf(counts, id) + 1], ranked, i + 1, left - 1);
    }
  }

  /** The ranking lists the same distinct nodes. */
  lemma RankedIds(quotas: seq<Quota>, ranked: seq<Quota>)
    requires Distinct(QIds(quotas)) && ranked == StableSort(quotas, ByRemainder)
    ensures Distinct(QIds(ranked))
    ensures forall k | 0 <= k < |ranked| :: ranked[k].id in QIds(quotas)
  {
    SortKeys(quotas, IdOf, ByRemainder);
    assert forall k | 0 <= k < |ranked| :: ranked[k].id == QIds(ranked)[k];
  }

  /** The counts add up to the total exactly when the floors do not already exceed it. */
  lemma TotalsExactly(ids: seq<NodeId>, shares: map<NodeId, real>, total: nat)
    requires ids != [] && Distinct(ids)
    ensures var quotas := Quotas(ids, shares, total);
            CountSum(quotas, Allocate(ids, shares, total)) == total <==> FloorSum(quotas) <= total
  {
    hide TopUp, FloorCounts, StableSort, FloorSum, CountSum, Keys;
    var quotas := Quotas(ids, shares, total);
    assert QIds(quotas) == ids;
    FloorsSum(quotas);
    var ranked := StableSort(quotas, ByRemainder);
    RankedIds(quotas, ranked);
    if FloorSum(quotas) < total {
      TopUpTotal(quotas, FloorCounts(quotas), ranked, 0, total - FloorSum(quotas));
    }
  }

  // ---- shares that sum to one ----

  function RemainderSum(quotas: seq<Quota>): real {
    if quotas == [] then 0.0 else RemainderSum(quotas[..|quotas| - 1]) + quotas[|quotas| - 1].Remainder()
  }

  function ValueSum(quotas: seq<Quota>): real {
    if quotas == [] then 0.0 else ValueSum(quotas[..|quotas| - 1]) + quotas[|quotas| - 1].value
  }

  lemma {:induction false} ValueSplits(quotas: seq<Quota>)
    ensures ValueSum(quotas) == FloorSum(quotas) as real + RemainderSum(quotas)
  {
    if quotas != [] {
      ValueSplits(quotas[..|quotas| - 1]);
    }
  }

  lemma {:induction false} RemainderBounds(quotas: seq<Quota>)
    ensures 0.0 <= RemainderSum(quotas) && (quotas != [] ==> RemainderSum(quotas) < |quotas| as real)
  {
    if quotas != [] {
      RemainderBounds(quotas[..|quotas| - 1]);
    }
  }

  lemma QuotasFront(ids: seq<NodeId>, shares: map<NodeId, real>, total: nat)
    requires ids != []
    ensures var quotas := Quotas(ids, shares, total);
            && quotas[..|ids| - 1] == Quotas(ids[..|ids| - 1], shares, total)
            && quotas[|ids| - 1].value == ShareOf(shares, ids[|ids| - 1]) * total as real
  {
    var front := ids[..|ids| - 1];
    forall i | 0 <= i < |front|
      ensures Quotas(ids, shares, total)[i] == Quotas(front, shares, total)[i]
    {
      assert ids[i] == front[i];
    }
  }

  lemma {:induction false} ValueIsShareOfTotal(ids: seq<NodeId>, shares: map<NodeId, real>, total: nat)
    requires forall n | n in ids :: n in shares
    ensures ValueSum(Quotas(ids, shares, total)) == SumShares(ids, shares) * total as real
  {
    hide Quotas;
    if ids != [] {
      var front, last := ids[..|ids| - 1], ids[|ids| - 1];
      QuotasFront(ids, shares, total);
      ValueIsShareOfTotal(front, shares, total);
      Distribute(SumShares(front, shares), shares[last], total as real);
    }
  }

  /** With shares that sum to one, fewer than one extra a node is left after the floors. */
  lemma LeftOver(ids: seq<NodeId>, shares: map<NodeId, real>, total: nat)
    requires ids != [] && (forall n | n in ids :: n in shares) && SumShares(ids, shares) == 1.0
    ensures var quotas := Quotas(ids, shares, total);
            && 0 <= total - FloorSum(quotas) < |ids|
            && RemainderSum(quotas) == (total - FloorSum(quotas)) as real
  {
    var quotas := Quotas(ids, shares, total);
    ValueIsShareOfTotal(ids, shares, total);
    ValueSplits(quotas);
    RemainderBounds(quotas);
  }

  // ---- who is rounded up ----

  predicate Extra(ranked: seq<Quota>, i: nat, j: nat, id: NodeId)
    requires i <= j <= |ranked|
  {
    exists k :: i <= k < j && ranked[k].id == id
  }

  lemma {:induction false} TopUpRound(counts: Counts, ranked: seq<Quota>, i: nat, left: nat, id: NodeId)
    requires ranked != [] && i + left <= |ranked| && Distinct(QIds(ranked))
    ensures CountOf(TopUp(counts, ranked, i, left), id)
         == CountOf(counts, id) + if Extra(ranked, i, i + left, id) then 1 else 0
    decreases left
  {
    if left > 0 {
      assert i % |ranked| == i;
      var own := ranked[i].id;
      TopUpRound(counts[own := CountOf(counts, own) + 1], ranked, i + 1, left - 1, id);
      assert Extra(ranked, i, i + left, id) <==> own == id || Extra(ranked, i + 1, i + left, id);
      if own == id {
        assert forall k | i + 1 <= k < i + left :: QIds(ranked)[k] != QIds(ranked)[i];
        assert !Extra(ranked, i + 1, i + left, id);
      }
    }
  }

  /** The smallest remainder that is rounded up, or 1 when none is. */
  function Threshold(ranked: seq<Quota>, left: nat): (r: real)
    requires left <= |ranked|
    ensures 0.0 <= r <= 1.0
  {
    if left == 0 then 1.0 else ranked[left - 1].Remainder()
  }

  /** Each count is its floor, or one more, on the right side of the threshold. */
  ghost predicate RoundedBy(counts: Counts, q: Quota, threshold: real) {
    || (CountOf(counts, q.id) == q.Floor() && q.Remainder() <= threshold)
    || (CountOf(counts, q.id) == q.Floor() + 1 && q.Remainder() >= threshold)
  }

  lemma RoundedAt(quotas: seq<Quota>, ranked: seq<Quota>, left: nat, q: Quota)
    requires ranked == StableSort(quotas, ByRemainder) && Distinct(QIds(quotas))
    requires left <= |ranked| && q in quotas
    ensures RoundedBy(TopUp(FloorCounts(quotas), ranked, 0, left), q, Threshold(ranked, left))
  {
    hide TopUp, FloorCounts, StableSort, Extra, Keys;
    SameElements(ranked, quotas);
    SortSorts(quotas, ByRemainder);
    RankedIds(quotas, ranked);
    var i :| 0 <= i < |quotas| && quotas[i] == q;
    FloorAt(quotas, i);
    TopUpRound(FloorCounts(quotas), ranked, 0, left, q.id);
    assert q in ranked;
    var k :| 0 <= k < |ranked| && ranked[k] == q;
    OnlyAt(ranked, left, k);
    Sides(ranked, left, k);
  }

  lemma Sides(ranked: seq<Quota>, left: nat, k: nat)
    requires Sorted(ranked, ByRemainder) && left <= |ranked| && k < |ranked|
    ensures k < left ==> ranked[k].Remainder() >= Threshold(ranked, left)
    ensures k >= left ==> ranked[k].Remainder() <= Threshold(ranked, left)
  {
  }

  lemma OnlyAt(ranked: seq<Quota>, left: nat, k: nat)
    requires left <= |ranked| && k < |ranked| && Distinct(QIds(ranked))
    ensures Extra(ranked, 0, left, ranked[k].id) <==> k < left
  {
  }

  lemma RankOrder(ranked: seq<Quota>, i: nat, j: nat)
    requires Sorted(ranked, ByRemainder) && i <= j < |ranked|
    ensures ranked[i].Remainder() >= ranked[j].Remainder()
  {
  }

  lemma NoneLeft(counts: Counts, ranked: seq<Quota>)
    requires ranked != []
    ensures TopUp(counts, ranked, 0, 0) == counts
  {
  }

  lemma AllRounded(ids: seq<NodeId>, shares: map<NodeId, real>, total: nat) returns (threshold: real)
    requires ids != [] && Distinct(ids)
    requires (forall n | n in ids :: n in shares) && SumShares(ids, shares) == 1.0
    ensures 0.0 <= threshold <= 1.0
    ensures forall q | q in Quotas(ids, shares, total) :: RoundedBy(Allocate(ids, shares, total), q, threshold)
  {
    hide TopUp, FloorCounts, StableSort, FloorSum, RemainderSum, RoundedBy, SumShares, Keys;
    var quotas := Quotas(ids, shares, total);
    assert QIds(quotas) == ids;
    LeftOver(ids, shares, total);
    var ranked := StableSort(quotas, ByRemainder);
    var left := total - FloorSum(quotas);
    threshold := Threshold(ranked, left);
    NoneLeft(FloorCounts(quotas), ranked);
    forall q | q in quotas
      ensures RoundedBy(Allocate(ids, shares, total), q, threshold)
    {
      RoundedAt(quotas, ranked, left, q);
    }
  }

  // ---- optimality ----

  function Abs(x: real): real {
    if x < 0.0 then -x else x
  }

  function Deviation(quotas: seq<Quota>, counts: Counts): real {
    if quotas == [] then 0.0
    else
      var last := quotas[|quotas| - 1];
      Deviation(quotas[..|quotas| - 1], counts) + Abs(CountOf(counts, last.id) as real - last.value)
  }

  function Scaled(d: int, slope: real): real {
    d as real * slope
  }

  lemma AtLeastMultiple(d: int, slope: real)
    requires slope >= 0.0
    ensures d >= 1 ==> Scaled(d, slope) >= slope
    ensures d <= -1 ==> Scaled(d, slope) <= -slope
  {
    var x := d as real;
    if d >= 1 {
      NonNegative(x - 1.0, slope);
      assert x * slope == slope + (x - 1.0) * slope;
    } else if d <= -1 {
      NonNegative(-1.0 - x, slope);
      assert x * slope == -slope - (-1.0 - x) * slope;
    }
  }

  lemma NonNegative(x: real, y: real)
    requires x >= 0.0 && y >= 0.0
    ensures x * y >= 0.0
  {
  }

  /** `m` stands for the product d * t. */
  lemma PriceUp(v: real, f: real, a: real, d: real, t: real, m: real)
    requires f <= v && 0.0 <= t <= 1.0 && d >= 1.0 && m >= t
    requires (a == f && v - f <= t) || (a == f + 1.0 && t <= v - f <= 1.0)
    ensures Abs((a + d) - v) >= Abs(a - v) + (d - 2.0 * m)
  {
  }

  /** `m` stands for the product d * (1 - t). */
  lemma PriceDown(v: real, f: real, a: real, d: real, t: real, m: real)
    requires f <= v && 0.0 <= t <= 1.0 && d <= -1.0 && m <= t - 1.0
    requires (a == f && v - f <= t) || (a == f + 1.0 && t <= v - f <= 1.0)
    ensures Abs((a + d) - v) >= Abs(a - v) + (2.0 * m - d)
  {
  }

  lemma PriceForms(d: int, t: real)
    ensures Scaled(d, 1.0 - 2.0 * t) == d as real - 2.0 * Scaled(d, t)
    ensures Scaled(d, 1.0 - 2.0 * t) == 2.0 * Scaled(d, 1.0 - t) - d as real
  {
  }

  /** Moving one count by d costs at least (1 - 2 * threshold) * d: the same price for
      every node, so moves that cancel out cannot pay. */
  lemma PriceOfMoving(q: Quota, counts: Counts, threshold: real, y: int)
    requires 0.0 <= threshold <= 1.0 && RoundedBy(counts, q, threshold)
    ensures var a := CountOf(counts, q.id);
            Abs(y as real - q.value) >= Abs(a as real - q.value) + Scaled(y - a, 1.0 - 2.0 * threshold)
  {
    hide Scaled;
    var a, t := CountOf(counts, q.id), threshold;
    var d := y - a;
    PriceForms(d, t);
    if d >= 1 {
      AtLeastMultiple(d, t);
      PriceUp(q.value, q.Floor() as real, a as real, d as real, t, Scaled(d, t));
    } else if d <= -1 {
      AtLeastMultiple(d, 1.0 - t);
      PriceDown(q.value, q.Floor() as real, a as real, d as real, t, Scaled(d, 1.0 - t));
    } else {
      ScaledAdds(0, 0, 1.0 - 2.0 * t);
    }
  }

  lemma ScaledAdds(a: int, b: int, price: real)
    ensures Scaled(a + b, price) == Scaled(a, price) + Scaled(b, price)
  {
  }

  lemma {:induction false} PriceOfAll(quotas: seq<Quota>, counts: Counts, threshold: real, other: Counts)
    requires 0.0 <= threshold <= 1.0
    requires forall q | q in quotas :: RoundedBy(counts, q, threshold)
    ensures Deviation(quotas, other) >= Deviation(quotas, counts)
              + Scaled(CountSum(quotas, other) - CountSum(quotas, counts), 1.0 - 2.0 * threshold)
  {
    hide Abs, RoundedBy, CountOf, Scaled;
    var price := 1.0 - 2.0 * threshold;
    if quotas == [] {
      ScaledAdds(0, 0, price);
    } else {
      var front, last := quotas[..|quotas| - 1], quotas[|quotas| - 1];
      PriceOfAll(front, counts, threshold, other);
      PriceOfMoving(last, counts, threshold, CountOf(other, last.id));
      ScaledAdds(CountSum(front, other) - CountSum(front, counts),
                 CountOf(other, last.id) - CountOf(counts, last.id), price);
    }
  }

  /** With shares that sum to one the counts add up to the total. */
  lemma CountsAddUp(ids: seq<NodeId>, shares: map<NodeId, real>, total: nat)
    requires ids != [] && Distinct(ids)
    requires (forall n | n in ids :: n in shares) && SumShares(ids, shares) == 1.0
    ensures CountSum(Quotas(ids, shares, total), Allocate(ids, shares, total)) == total
  {
    hide Allocate, RemainderSum, SumShares;
    LeftOver(ids, shares, total);
    TotalsExactly(ids, shares, total);
  }

  /** No other way of handing out the same total has a smaller sum of absolute deviations
      from the exact quotas. */
  lemma LargestRemainderIsOptimal(ids: seq<NodeId>, shares: map<NodeId, real>, total: nat, other: Counts)
    requires ids != [] && Distinct(ids)
    requires (forall n | n in ids :: n in shares) && SumShares(ids, shares) == 1.0
    requires CountSum(Quotas(ids, shares, total), other) == total
    ensures var quotas := Quotas(ids, shares, total);
            Deviation(quotas, Allocate(ids, shares, total)) <= Deviation(quotas, other)
  {
    hide Allocate, Deviation, RemainderSum, SumShares, Scaled, CountSum;
    CountsAddUp(ids, shares, total);
    var threshold := AllRounded(ids, shares, total);
    ScaledAdds(0, 0, 1.0 - 2.0 * threshold);
    PriceOfAll(Quotas(ids, shares, total), Allocate(ids, shares, total), threshold, other);
  }

  lemma RemaindersUnder(s: seq<Quota>)
    ensures RemainderSum(s) <= |s| as real
  {
  }

  lemma {:induction false} ZeroTail(ranked: seq<Quota>, k: nat)
    requires k <= |ranked| && forall i | k <= i < |ranked| :: ranked[i].Remainder() == 0.0
    ensures RemainderSum(ranked) == RemainderSum(ranked[..k])
    decreases |ranked| - k
  {
    if k == |ranked| {
      assert ranked[..k] == ranked;
    } else {
      var front := ranked[..|ranked| - 1];
      ZeroTail(front, k);
      assert front[..k] == ranked[..k];
    }
  }

  lemma {:induction false} RemainderPush(s: seq<Quota>, q: Quota)
    ensures RemainderSum(s + [q]) == RemainderSum(s) + q.Remainder()
  {
  }

  lemma {:induction false} InsertRemainder(q: Quota, s: seq<Quota>)
    ensures RemainderSum(Insert(q, s, ByRemainder)) == RemainderSum(s) + q.Remainder()
  {
    if s == [] {
      RemainderPush([], q);
    } else {
      RemainderCons(s[0], s[1..]);
      assert [s[0]] + s[1..] == s;
      if ByRemainder(s[0]).Ahead(ByRemainder(q)) {
        InsertRemainder(q, s[1..]);
        RemainderCons(s[0], Insert(q, s[1..], ByRemainder));
      } else {
        RemainderCons(q, s);
      }
    }
  }

  lemma {:induction false} RemainderCons(q: Quota, s: seq<Quota>)
    ensures RemainderSum([q] + s) == q.Remainder() + RemainderSum(s)
  {
    if s == [] {
      assert [q] + s == [q] && [q][..0] == [];
    } else {
      var front, last := s[..|s| - 1], s[|s| - 1];
      RemainderCons(q, front);
      assert ([q] + s)[..|s|] == [q] + front;
    }
  }

  lemma {:induction false} SortRemainder(s: seq<Quota>)
    ensures RemainderSum(StableSort(s, ByRemainder)) == RemainderSum(s)
  {
    if s != [] {
      SortRemainder(s[1..]);
      InsertRemainder(s[0], StableSort(s[1..], ByRemainder));
      RemainderCons(s[0], s[1..]);
      assert [s[0]] + s[1..] == s;
    }
  }

  /** Only a quota with a fraction is ever rounded up. */
  lemma ExtrasHaveRemainder(quotas: seq<Quota>, left: nat)
    requires 0 < left <= |quotas| && RemainderSum(quotas) == left as real
    ensures StableSort(quotas, ByRemainder)[left - 1].Remainder() > 0.0
  {
    hide StableSort, RemainderSum;
    var ranked := StableSort(quotas, ByRemainder);
    SortRemainder(quotas);
    SortSorts(quotas, ByRemainder);
    if ranked[left - 1].Remainder() == 0.0 {
      forall i | left - 1 <= i < |ranked|
        ensures ranked[i].Remainder() == 0.0
      {
        RankOrder(ranked, left - 1, i);
      }
      ZeroTail(ranked, left - 1);
      RemaindersUnder(ranked[..left - 1]);
    }
  }

  function Ceiling(x: real): int {
    -((-x).Floor)
  }

  /** Each count is the floor or the ceiling of its exact quota. */
  lemma FloorOrCeiling(ids: seq<NodeId>, shares: map<NodeId, real>, total: nat, k: nat)
    requires k < |ids| && Distinct(ids)
    requires (forall n | n in ids :: n in shares) && SumShares(ids, shares) == 1.0
    ensures var value := shares[ids[k]] * total as real;
            var count := CountOf(Allocate(ids, shares, total), ids[k]);
            count == value.Floor || count == Ceiling(value)
  {
    hide TopUp, StableSort, RemainderSum, FloorSum, SumShares;
    var quotas := Quotas(ids, shares, total);
    assert QIds(quotas) == ids;
    LeftOver(ids, shares, total);
    var ranked := StableSort(quotas, ByRemainder);
    var left := total - FloorSum(quotas);
    RoundedAt(quotas, ranked, left, quotas[k]);
    if left > 0 {
      ExtrasHaveRemainder(quotas, left);
      if quotas[k].Remainder() > 0.0 { CeilingOf(quotas[k]); }
    } else {
      assert CountOf(Allocate(ids, shares, total), ids[k]) == quotas[k].Floor() by { FloorAt(quotas, k); }
    }
  }

  lemma CeilingOf(q: Quota)
    requires q.Remainder() > 0.0
    ensures Ceiling(q.value) == q.Floor() + 1
  {
  }
}
