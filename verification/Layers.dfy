/** Layer ranges by ceiling division, as the shard manifest and the latency-first planner
    cut a model: part i gets [i * per, min((i + 1) * per, total)). */
module Layers {
  import opened Collections

  const U32_LIMIT: nat := 0x1_0000_0000

  datatype Range = Range(start: nat, end: nat) {
    predicate Has(layer: nat) { start <= layer < end }
    predicate WellFormed() { start <= end }
    function Length(): int { end - start }
  }

  function PerPart(total: nat, parts: nat): nat
    requires parts > 0
  {
    (total + parts - 1) / parts
  }

  function RangeAt(total: nat, parts: nat, i: nat): Range
    requires parts > 0
  {
    var per := PerPart(total, parts);
    Range(i * per, if (i + 1) * per < total then (i + 1) * per else total)
  }

  function Ranges(total: nat, parts: nat): (r: seq<Range>)
    requires parts > 0
    ensures |r| == parts
  {
    seq(parts, i requires 0 <= i < parts => RangeAt(total, parts, i))
  }

  /** Dividing by no parts stops the program, and so does a sum past 32 bits. */
  predicate Computable(total: nat, parts: nat) {
    parts > 0 && total + parts < U32_LIMIT
  }

  /** The loop of the source; `None` is the panic. */
  method CutLayers(total: nat, parts: nat) returns (ranges: Option<seq<Range>>)
    ensures ranges == if Computable(total, parts) then Some(Ranges(total, parts)) else None
  {
    if parts == 0 || total + parts >= U32_LIMIT { return None; }
    hide PerPart;
    var per := PerPart(total, parts);
    var found: seq<Range> := [];
    for i := 0 to parts
      invariant found == Ranges(total, parts)[..i]
    {
      var start, next := i * per, (i + 1) * per;
      found := found + [Range(start, if next < total then next else total)];
    }
    assert Ranges(total, parts)[..parts] == Ranges(total, parts);
    return Some(found);
  }

  // ---- arithmetic ----

  lemma Ceiling(total: nat, parts: nat)
    requires parts > 0
    ensures total <= PerPart(total, parts) * parts <= total + parts - 1
  {
  }

  lemma MulMonotone(a: nat, b: nat, per: nat)
    requires a <= b
    ensures a * per <= b * per
  {
  }

  /** No product on the way leaves 32 bits when the sum does not. */
  lemma NoOverflow(total: nat, parts: nat, i: nat)
    requires Computable(total, parts) && i < parts
    ensures total + parts < U32_LIMIT && (i + 1) * PerPart(total, parts) < U32_LIMIT
  {
  }

  // ---- tiling ----

  /** Every layer lies in exactly one range. */
  lemma ExactlyOne(total: nat, parts: nat, layer: nat) returns (owner: nat)
    requires parts > 0 && layer < total
    ensures owner < parts && Ranges(total, parts)[owner].Has(layer)
    ensures forall i | 0 <= i < parts :: Ranges(total, parts)[i].Has(layer) ==> i == owner
  {
    var per := PerPart(total, parts);
    Ceiling(total, parts);
    PositivePart(total, parts);
    owner := layer / per;
    Quotient(layer, per);
    if owner >= parts { MulMonotone(parts, owner, per); }
    forall i | 0 <= i < parts && Ranges(total, parts)[i].Has(layer)
      ensures i == owner
    {
      SameQuotient(layer, per, i);
    }
  }

  lemma PositivePart(total: nat, parts: nat)
    requires parts > 0 && total > 0
    ensures PerPart(total, parts) > 0
  {
  }

  lemma Quotient(x: nat, per: nat)
    requires per > 0
    ensures (x / per) * per <= x < (x / per + 1) * per
  {
  }

  lemma SameQuotient(x: nat, per: nat, i: nat)
    requires per > 0 && i * per <= x < (i + 1) * per
    ensures i == x / per
  {
    Quotient(x, per);
    if i < x / per { MulMonotone(i + 1, x / per, per); }
    if i > x / per { MulMonotone(x / per + 1, i, per); }
  }

  ghost predicate AllWellFormed(total: nat, parts: nat)
    requires parts > 0
  {
    forall i | 0 <= i < parts :: Ranges(total, parts)[i].WellFormed()
  }

  /** No range is reversed exactly when the last one starts inside the model. */
  lemma WellFormedIff(total: nat, parts: nat)
    requires parts > 0
    ensures AllWellFormed(total, parts) <==> (parts - 1) * PerPart(total, parts) <= total
  {
    var per := PerPart(total, parts);
    if (parts - 1) * per <= total {
      forall i | 0 <= i < parts
        ensures Ranges(total, parts)[i].WellFormed()
      {
        MulMonotone(i, parts - 1, per);
        MulMonotone(i, i + 1, per);
      }
    } else {
      assert !Ranges(total, parts)[parts - 1].WellFormed();
    }
  }

  /** Enough layers for the number of parts: no range is reversed. */
  lemma EnoughLayers(total: nat, parts: nat)
    requires parts > 0 && (parts - 1) * (parts - 1) <= total
    ensures AllWellFormed(total, parts)
  {
    var per := PerPart(total, parts);
    Ceiling(total, parts);
    assert per * parts == (parts - 1) * per + per;
    if per < parts - 1 { Squares(parts - 1, per); }
    WellFormedIff(total, parts);
  }

  lemma Squares(a: nat, b: nat)
    requires b <= a
    ensures a * b <= a * a
  {
  }

  /** Five layers over four parts: the last range would be [6, 5). */
  lemma ReversedRange()
    ensures Ranges(5, 4) == [Range(0, 2), Range(2, 4), Range(4, 5), Range(6, 5)] && !AllWellFormed(5, 4)
  {
    assert !Ranges(5, 4)[3].WellFormed();
  }

  function LengthSum(ranges: seq<Range>): int {
    if ranges == [] then 0 else LengthSum(ranges[..|ranges| - 1]) + ranges[|ranges| - 1].Length()
  }

  lemma {:induction false} LengthsTelescope(total: nat, parts: nat, k: nat)
    requires parts > 0 && k <= parts && (parts - 1) * PerPart(total, parts) <= total
    ensures LengthSum(Ranges(total, parts)[..k])
         == if k == 0 then 0 else Ranges(total, parts)[k - 1].end
  {
    if k > 0 {
      LengthsTelescope(total, parts, k - 1);
      var all := Ranges(total, parts);
      assert all[..k][..k - 1] == all[..k - 1];
      if k > 1 { Joined(total, parts, k - 2); }
    }
  }

  lemma Joined(total: nat, parts: nat, i: nat)
    requires parts > 0 && i + 1 < parts && (parts - 1) * PerPart(total, parts) <= total
    ensures Ranges(total, parts)[i].end == Ranges(total, parts)[i + 1].start
  {
    MulMonotone(i + 1, parts - 1, PerPart(total, parts));
  }

  /** Ranges that are not reversed follow one another from 0 to the total, and their
      lengths add up to it. */
  lemma Contiguous(total: nat, parts: nat)
    requires parts > 0 && AllWellFormed(total, parts)
    ensures var ranges := Ranges(total, parts);
            && ranges[0].start == 0 && ranges[parts - 1].end == total
            && (forall i | 0 <= i < parts - 1 :: ranges[i].end == ranges[i + 1].start)
            && LengthSum(ranges) == total
  {
    var ranges := Ranges(total, parts);
    WellFormedIff(total, parts);
    Ceiling(total, parts);
    forall i | 0 <= i < parts - 1
      ensures ranges[i].end == ranges[i + 1].start
    {
      Joined(total, parts, i);
    }
    LengthsTelescope(total, parts, parts);
    assert ranges[..parts] == ranges;
  }
}
