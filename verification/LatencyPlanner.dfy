/** The latency-first planner: the closest machines that together hold the model, with
    its layers cut evenly over them. */
module LatencyPlanner {
  import opened Collections
  import opened Sorting
  import opened Choices
  import opened Layers

  /** A machine with less free memory is not worth a hop. */
  const MIN_MB: nat := 256

  datatype Machine = Machine(id: nat, availableMB: nat, latencyMs: real)

  datatype Member = Member(id: nat, layers: Range)

  datatype Plan = Plan(head: nat, members: seq<Member>, pooledMB: nat, hopMs: real)

  /** `Exhausted`: the error result. `Stopped`: 32-bit arithmetic left its range, by a sum
      that is too big or by the length of a reversed layer range. */
  datatype Outcome = Planned(plan: Plan) | Exhausted | Stopped

  function Available(m: Machine): nat { m.availableMB }

  function ByLatency(m: Machine): Rank { Rank(m.latencyMs, 0.0) }

  function NeededMB(modelMB: nat): nat {
    (modelMB as real * 1.15).Floor
  }

  function Candidates(machines: seq<Machine>): (r: seq<Machine>)
    ensures forall m :: m in r <==> m in machines && m.availableMB >= MIN_MB
  {
    if machines == [] then []
    else if machines[0].availableMB >= MIN_MB then [machines[0]] + Candidates(machines[1..])
    else Candidates(machines[1..])
  }

  /** From the front until the need is met; the first is always taken. */
  function TakeUntil(ranked: seq<Machine>, needed: int): (r: seq<Machine>) {
    if ranked == [] then []
    else if ranked[0].availableMB >= needed then [ranked[0]]
    else [ranked[0]] + TakeUntil(ranked[1..], needed - ranked[0].availableMB)
  }

  function Chosen(machines: seq<Machine>, modelMB: nat): seq<Machine> {
    TakeUntil(StableSort(Candidates(machines), ByLatency), NeededMB(modelMB))
  }

  function HopSum(chosen: seq<Machine>): real {
    if chosen == [] then 0.0 else HopSum(chosen[..|chosen| - 1]) + chosen[|chosen| - 1].latencyMs
  }

  function MembersFor(chosen: seq<Machine>, totalLayers: nat): (r: seq<Member>)
    requires chosen != []
    ensures |r| == |chosen|
  {
    seq(|chosen|, i requires 0 <= i < |chosen| => Member(chosen[i].id, Ranges(totalLayers, |chosen|)[i]))
  }

  ghost predicate Cuttable(totalLayers: nat, parts: nat) {
    Computable(totalLayers, parts) && AllWellFormed(totalLayers, parts)
  }

  ghost function OutcomeOf(machines: seq<Machine>, modelMB: nat, totalLayers: nat): Outcome {
    var chosen := Chosen(machines, modelMB);
    if chosen == [] || Sum(chosen, Available) < NeededMB(modelMB) then Exhausted
    else if !Cuttable(totalLayers, |chosen|) then Stopped
    else Planned(Plan(chosen[0].id, MembersFor(chosen, totalLayers), Sum(chosen, Available), HopSum(chosen)))
  }

  // ---- the loops of the source ----

  method Gather(ranked: seq<Machine>, needed: nat) returns (chosen: seq<Machine>, pooled: nat)
    ensures chosen == TakeUntil(ranked, needed) && pooled == Sum(chosen, Available)
  {
    chosen, pooled := [], 0;
    for i := 0 to |ranked|
      invariant i == |chosen| && pooled == Sum(chosen, Available)
      invariant chosen + TakeUntil(ranked[i..], needed - pooled) == TakeUntil(ranked, needed)
    {
      assert ranked[i..][1..] == ranked[i + 1..];
      SumPush(chosen, ranked[i], Available);
      chosen := chosen + [ranked[i]];
      pooled := pooled + ranked[i].availableMB;
      if pooled >= needed { break; }
    }
  }

  method CutOver(chosen: seq<Machine>, totalLayers: nat) returns (members: Option<seq<Member>>, hopMs: real)
    requires chosen != []
    ensures members == if Cuttable(totalLayers, |chosen|) then Some(MembersFor(chosen, totalLayers)) else None
    ensures members.Some? ==> hopMs == HopSum(chosen)
  {
    hide HopSum, RangeAt;
    hopMs := 0.0;
    var ranges := CutLayers(totalLayers, |chosen|);
    if ranges.None? { return None, hopMs; }
    var found: seq<Member> := [];
    NoHops();
    for i := 0 to |chosen|
      invariant |found| == i && hopMs == HopSum(chosen[..i])
      invariant forall k | 0 <= k < i ::
                  found[k] == Member(chosen[k].id, ranges.value[k]) && ranges.value[k].WellFormed()
    {
      if ranges.value[i].end < ranges.value[i].start { return None, hopMs; }
      HopsPush(chosen, i);
      found := found + [Member(chosen[i].id, ranges.value[i])];
      hopMs := hopMs + chosen[i].latencyMs;
    }
    assert found == MembersFor(chosen, totalLayers);
    assert chosen[..|chosen|] == chosen;
    return Some(found), hopMs;
  }

  lemma NoHops()
    ensures HopSum([]) == 0.0
  {
  }

  lemma HopsPush(chosen: seq<Machine>, i: nat)
    requires i < |chosen|
    ensures HopSum(chosen[..i + 1]) == HopSum(chosen[..i]) + chosen[i].latencyMs
  {
    assert chosen[..i + 1][..i] == chosen[..i];
  }

  method PlanPipeline(machines: seq<Machine>, modelMB: nat, totalLayers: nat) returns (outcome: Outcome)
    ensures outcome == OutcomeOf(machines, modelMB, totalLayers)
  {
    hide Candidates, StableSort, TakeUntil, Cuttable, MembersFor, HopSum, Sum;
    NothingTaken(machines, modelMB);
    var needed := NeededMB(modelMB);
    var candidates := Candidates(machines);
    if candidates == [] { return Exhausted; }
    var chosen, pooled := Gather(StableSort(candidates, ByLatency), needed);
    if pooled < needed { return Exhausted; }
    var members, hopMs := CutOver(chosen, totalLayers);
    outcome := if members.None? then Stopped else Planned(Plan(chosen[0].id, members.value, pooled, hopMs));
  }

  lemma NothingTaken(machines: seq<Machine>, modelMB: nat)
    ensures Chosen(machines, modelMB) == [] <==> Candidates(machines) == []
  {
    hide Candidates;
  }

  // ---- complete and bottleneck-optimal ----

  lemma {:induction false} TakenIsPrefix(ranked: seq<Machine>, needed: int)
    ensures var k := |TakeUntil(ranked, needed)|;
            && k <= |ranked| && (ranked != [] ==> k > 0)
            && TakeUntil(ranked, needed) == ranked[..k]
            && (k > 1 ==> Sum(ranked[..k - 1], Available) < needed)
            && (k == |ranked| || Sum(ranked[..k], Available) >= needed)
  {
    if ranked != [] && ranked[0].availableMB < needed {
      var rest := ranked[1..];
      TakenIsPrefix(rest, needed - ranked[0].availableMB);
      var k := 1 + |TakeUntil(rest, needed - ranked[0].availableMB)|;
      assert ranked[..k][1..] == rest[..k - 1];
      if k > 1 { assert ranked[..k - 1][1..] == rest[..k - 2] || k == 2; }
      if k == 2 { assert Sum(ranked[..1], Available) == ranked[0].availableMB + Sum(ranked[..1][1..], Available); }
    } else if ranked != [] {
      assert ranked[..1][1..] == [];
    }
  }

  /** A non-empty set of candidates that holds the model. */
  ghost predicate Holds(machines: seq<Machine>, modelMB: nat, m: multiset<Machine>) {
    m <= multiset(Candidates(machines)) && m != multiset{} && Pool(m, Available) >= NeededMB(modelMB)
  }

  lemma PrefixHolds(machines: seq<Machine>, modelMB: nat)
    ensures var chosen := Chosen(machines, modelMB);
            && multiset(chosen) <= multiset(Candidates(machines))
            && Pool(multiset(chosen), Available) == Sum(chosen, Available)
            && (Sum(chosen, Available) < NeededMB(modelMB) ==>
                  Sum(Candidates(machines), Available) < NeededMB(modelMB))
  {
    hide Candidates, StableSort, TakeUntil, Pool;
    var candidates, chosen := Candidates(machines), Chosen(machines, modelMB);
    var ranked := StableSort(candidates, ByLatency);
    TakenIsPrefix(ranked, NeededMB(modelMB));
    assert ranked == chosen + ranked[|chosen|..];
    PoolOfSeq(chosen, Available);
    PoolOfSeq(ranked, Available);
    PoolOfSeq(candidates, Available);
    if |chosen| == |ranked| { assert ranked[..|chosen|] == ranked; }
  }

  /** The planner runs out of resources exactly when the machines that offer enough to be
      worth a hop do not pool what the model needs, or there is none. */
  lemma ExhaustedExactly(machines: seq<Machine>, modelMB: nat, totalLayers: nat)
    ensures OutcomeOf(machines, modelMB, totalLayers) == Exhausted <==>
            Candidates(machines) == [] || Sum(Candidates(machines), Available) < NeededMB(modelMB)
  {
    hide Candidates, StableSort, TakeUntil, Pool, Cuttable, HopSum, Sum;
    var candidates, chosen := Candidates(machines), Chosen(machines, modelMB);
    NothingTaken(machines, modelMB);
    PrefixHolds(machines, modelMB);
    PoolOfSeq(candidates, Available);
    PoolMonotone(multiset(chosen), multiset(candidates), Available);
  }

  lemma LatencyAscends(candidates: seq<Machine>, i: nat, j: nat)
    requires i <= j < |candidates|
    ensures StableSort(candidates, ByLatency)[i].latencyMs <= StableSort(candidates, ByLatency)[j].latencyMs
  {
    hide StableSort;
    SortSorts(candidates, ByLatency);
    var ranked := StableSort(candidates, ByLatency);
    assert i < j ==> !ByLatency(ranked[j]).Ahead(ByLatency(ranked[i]));
  }

  lemma {:induction false} AllBefore<T>(s: seq<T>, k: nat, m: multiset<T>)
    requires k <= |s| && m <= multiset(s) && forall j | k <= j < |s| :: s[j] !in m
    ensures m <= multiset(s[..k])
    decreases |s|
  {
    if k == |s| {
      assert s[..k] == s;
    } else {
      var front, last := s[..|s| - 1], s[|s| - 1];
      assert s == front + [last];
      assert front[..k] == s[..k];
      AllBefore(front, k, m);
    }
  }

  /** Machines all closer than the k-th all come before it. */
  lemma CloserComeFirst(candidates: seq<Machine>, m: multiset<Machine>, k: nat)
    requires m <= multiset(candidates) && k < |candidates|
    requires forall x | x in m :: x.latencyMs < StableSort(candidates, ByLatency)[k].latencyMs
    ensures m <= multiset(StableSort(candidates, ByLatency)[..k])
  {
    hide StableSort;
    var ranked := StableSort(candidates, ByLatency);
    forall j | k <= j < |ranked|
      ensures ranked[j] !in m
    {
      LatencyAscends(candidates, k, j);
    }
    AllBefore(ranked, k, m);
  }

  /** The slowest machine of the plan. */
  ghost function Worst(machines: seq<Machine>, modelMB: nat): Machine
    requires Chosen(machines, modelMB) != []
  {
    Chosen(machines, modelMB)[|Chosen(machines, modelMB)| - 1]
  }

  lemma CloserIsTooLittle(machines: seq<Machine>, modelMB: nat, m: multiset<Machine>)
    requires Chosen(machines, modelMB) != []
    requires forall x | x in m :: x.latencyMs < Worst(machines, modelMB).latencyMs
    ensures !Holds(machines, modelMB, m)
  {
    hide Candidates, StableSort, TakeUntil, Pool, NeededMB;
    var candidates, k := Candidates(machines), |Chosen(machines, modelMB)|;
    var ranked := StableSort(candidates, ByLatency);
    TakenIsPrefix(ranked, NeededMB(modelMB));
    if m <= multiset(candidates) {
      CloserComeFirst(candidates, m, k - 1);
      PoolOfSeq(ranked[..k - 1], Available);
      PoolMonotone(m, multiset(ranked[..k - 1]), Available);
      if k == 1 { assert multiset(ranked[..0]) == multiset{}; }
    }
  }

  lemma NotEmpty(s: seq<Machine>, m: multiset<Machine>)
    requires m <= multiset(s) && m != multiset{}
    ensures s != []
  {
  }

  lemma WorstIsWorst(machines: seq<Machine>, modelMB: nat, c: Machine)
    requires c in Chosen(machines, modelMB)
    ensures c.latencyMs <= Worst(machines, modelMB).latencyMs
  {
    hide Candidates, StableSort, TakeUntil;
    var candidates, chosen := Candidates(machines), Chosen(machines, modelMB);
    TakenIsPrefix(StableSort(candidates, ByLatency), NeededMB(modelMB));
    var i :| 0 <= i < |chosen| && chosen[i] == c;
    LatencyAscends(candidates, i, |chosen| - 1);
  }

  /** Bottleneck-optimal: whatever latency limit some choice of candidates that holds the
      model keeps to, the plan keeps to as well. */
  lemma BottleneckOptimal(machines: seq<Machine>, modelMB: nat, m: multiset<Machine>, limit: real, c: Machine)
    requires Holds(machines, modelMB, m) && forall x | x in m :: x.latencyMs <= limit
    requires c in Chosen(machines, modelMB)
    ensures c.latencyMs <= limit
  {
    hide Candidates, StableSort, TakeUntil, Pool, NeededMB, Chosen;
    WorstIsWorst(machines, modelMB, c);
    if forall x | x in m :: x.latencyMs < Worst(machines, modelMB).latencyMs {
      CloserIsTooLittle(machines, modelMB, m);
    }
    assert exists x :: x in m && !(x.latencyMs < Worst(machines, modelMB).latencyMs);
  }

  /** The plan's machines hold the model whenever any choice does. */
  lemma PlanHolds(machines: seq<Machine>, modelMB: nat, m: multiset<Machine>)
    requires Holds(machines, modelMB, m)
    ensures Holds(machines, modelMB, multiset(Chosen(machines, modelMB)))
  {
    hide Candidates, StableSort, TakeUntil, Pool, NeededMB, Chosen;
    var candidates, chosen := Candidates(machines), Chosen(machines, modelMB);
    NotEmpty(candidates, m);
    PrefixHolds(machines, modelMB);
    PoolMonotone(m, multiset(candidates), Available);
    PoolOfSeq(candidates, Available);
    NothingTaken(machines, modelMB);
    assert chosen[0] in multiset(chosen);
  }

  /** In a plan every layer belongs to exactly one member, in chain order. */
  lemma PlanTiles(machines: seq<Machine>, modelMB: nat, totalLayers: nat, layer: nat) returns (owner: nat)
    requires OutcomeOf(machines, modelMB, totalLayers).Planned? && layer < totalLayers
    ensures var members := OutcomeOf(machines, modelMB, totalLayers).plan.members;
            && owner < |members| && members[owner].layers.Has(layer)
            && forall i | 0 <= i < |members| :: members[i].layers.Has(layer) ==> i == owner
  {
    hide Chosen, RangeAt;
    owner := ExactlyOne(totalLayers, |Chosen(machines, modelMB)|, layer);
  }

  // ---- need and head ----

  /** A model needs its size and 15% more, rounded down. */
  lemma NeedExactly(modelMB: nat)
    ensures 100 * NeededMB(modelMB) <= 115 * modelMB < 100 * NeededMB(modelMB) + 100
  {
  }

  /** The chain of a plan: its members are offering machines, closest first, its head is the
      first of them, and nobody who offers 256 MB or more is closer than the head. */
  lemma HeadIsClosest(machines: seq<Machine>, modelMB: nat, totalLayers: nat)
    requires OutcomeOf(machines, modelMB, totalLayers).Planned?
    ensures var plan, chain := OutcomeOf(machines, modelMB, totalLayers).plan, Chosen(machines, modelMB);
            && chain != [] && |chain| == |plan.members| && plan.head == chain[0].id
            && plan.pooledMB == Sum(chain, Available)
            && (forall i | 0 <= i < |chain| ::
                  chain[i] in machines && chain[i].availableMB >= 256 && plan.members[i].id == chain[i].id)
            && (forall i, j | 0 <= i <= j < |chain| :: chain[i].latencyMs <= chain[j].latencyMs)
            && (forall m | m in machines && m.availableMB >= 256 :: chain[0].latencyMs <= m.latencyMs)
  {
    hide StableSort, TakeUntil, Cuttable, HopSum, Sum, RangeAt, NeededMB;
    var candidates := Candidates(machines);
    var ranked := StableSort(candidates, ByLatency);
    var chain := Chosen(machines, modelMB);
    TakenIsPrefix(ranked, NeededMB(modelMB));
    SameElements(ranked, candidates);
    forall i, j | 0 <= i <= j < |ranked|
      ensures ranked[i].latencyMs <= ranked[j].latencyMs
    {
      LatencyAscends(candidates, i, j);
    }
    forall m | m in machines && m.availableMB >= 256
      ensures chain[0].latencyMs <= m.latencyMs
    {
      assert m in candidates;
      var k :| 0 <= k < |candidates| && candidates[k] == m;
      assert candidates[k] in ranked;
      var i :| 0 <= i < |ranked| && ranked[i] == m;
    }
  }
}
