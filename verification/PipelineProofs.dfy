/** The planner is complete and minimal, and asks no member for more than it offers. */
module PipelineProofs {
  import opened Collections
  import opened Protocol
  import opened Reals
  import opened Sorting
  import opened Choices
  import opened Pipeline

  // ---- greedy choice ----

  /** The front of the ranking, no longer than the cap, that first reaches what is needed. */
  ghost predicate FirstEnough(ranked: seq<PipelineCandidate>, needed: int, maxMembers: int, k: nat) {
    && k <= |ranked|
    && (k > 0 ==> k <= maxMembers && Sum(ranked[..k - 1], Free) < needed)
    && (k == |ranked| || k >= maxMembers || Sum(ranked[..k], Free) >= needed)
  }

  lemma SumPrefix(ranked: seq<PipelineCandidate>, k: nat)
    requires 0 < k <= |ranked|
    ensures Sum(ranked[..k], Free) == ranked[0].freeMB + Sum(ranked[1..][..k - 1], Free)
  {
    assert ranked[..k][1..] == ranked[1..][..k - 1];
  }

  lemma {:induction false} GreedyIsPrefix(ranked: seq<PipelineCandidate>, needed: int, maxMembers: int)
    ensures var k := |Greedy(ranked, needed, maxMembers)|;
            FirstEnough(ranked, needed, maxMembers, k) && Greedy(ranked, needed, maxMembers) == ranked[..k]
  {
    if ranked == [] || needed <= 0 || maxMembers <= 0 {
    } else {
      var rest, k := ranked[1..], |Greedy(ranked, needed, maxMembers)|;
      GreedyIsPrefix(rest, needed - ranked[0].freeMB, maxMembers - 1);
      SumPrefix(ranked, k);
      if k > 1 { SumPrefix(ranked, k - 1); }
    }
  }

  lemma SumMonotone(ranked: seq<PipelineCandidate>, i: nat, j: nat)
    requires i <= j <= |ranked|
    ensures Sum(ranked[..i], Free) <= Sum(ranked[..j], Free)
  {
    assert ranked[..j] == ranked[..i] + ranked[i..j];
    SumAppend(ranked[..i], ranked[i..j], Free);
  }

  lemma Heaviest(candidates: seq<PipelineCandidate>, m: multiset<PipelineCandidate>, k: nat)
    requires m <= multiset(candidates) && |m| <= k <= |candidates|
    ensures Pool(m, Free) <= Sum(StableSort(candidates, MemoryFirst)[..k], Free)
  {
    hide Pool, StableSort, Sum;
    var ranked := StableSort(candidates, MemoryFirst);
    SortSorts(candidates, MemoryFirst);
    forall i, j | 0 <= i < j < |ranked|
      ensures Free(ranked[i]) >= Free(ranked[j])
    {
      assert !MemoryFirst(ranked[j]).Ahead(MemoryFirst(ranked[i]));
    }
    HeaviestPrefix(ranked, m, k, Free);
  }

  /** A set of machines, possibly identical ones, that is offered and big enough. */
  ghost predicate Feasible(candidates: seq<PipelineCandidate>, needed: nat, m: multiset<PipelineCandidate>) {
    m <= multiset(candidates) && Pool(m, Free) >= needed
  }

  /** A feasible set is matched by as many machines from the front of the ranking. */
  lemma PrefixAsGood(candidates: seq<PipelineCandidate>, needed: nat, m: multiset<PipelineCandidate>)
    requires Feasible(candidates, needed, m)
    ensures |m| <= |candidates| && Sum(StableSort(candidates, MemoryFirst)[..|m|], Free) >= needed
  {
    hide Pool, StableSort;
    FitsIn(m, multiset(candidates));
    Heaviest(candidates, m, |m|);
  }

  lemma FitsIn<T>(m: multiset<T>, n: multiset<T>)
    requires m <= n
    ensures |m| <= |n|
  {
    assert n == m + (n - m);
  }

  ghost function Taken(candidates: seq<PipelineCandidate>, needed: nat, maxMembers: int): seq<PipelineCandidate> {
    Greedy(StableSort(candidates, MemoryFirst), needed, maxMembers)
  }

  lemma TakenFewest(candidates: seq<PipelineCandidate>, needed: nat, maxMembers: int, m: multiset<PipelineCandidate>)
    requires Feasible(candidates, needed, m)
    ensures |Taken(candidates, needed, maxMembers)| <= |m|
    ensures |m| <= maxMembers ==> Sum(Taken(candidates, needed, maxMembers), Free) >= needed
  {
    hide Pool, StableSort, Greedy;
    var ranked := StableSort(candidates, MemoryFirst);
    var k := |Taken(candidates, needed, maxMembers)|;
    GreedyIsPrefix(ranked, needed, maxMembers);
    PrefixAsGood(candidates, needed, m);
    if |m| < k { SumMonotone(ranked, |m|, k - 1); }
  }

  lemma TakenFeasible(candidates: seq<PipelineCandidate>, needed: nat, maxMembers: int)
    requires Sum(Taken(candidates, needed, maxMembers), Free) >= needed
    ensures Feasible(candidates, needed, multiset(Taken(candidates, needed, maxMembers)))
    ensures needed > 0 ==> |Taken(candidates, needed, maxMembers)| <= maxMembers
  {
    hide Pool, StableSort, Greedy;
    var ranked := StableSort(candidates, MemoryFirst);
    var taken := Taken(candidates, needed, maxMembers);
    GreedyIsPrefix(ranked, needed, maxMembers);
    PoolOfSeq(taken, Free);
    assert ranked == ranked[..|taken|] + ranked[|taken|..];
  }

  /** Leaving any one member out makes the rest too small. */
  lemma NoneToSpare(candidates: seq<PipelineCandidate>, needed: nat, maxMembers: int, x: PipelineCandidate)
    requires x in Taken(candidates, needed, maxMembers)
    ensures !Feasible(candidates, needed, multiset(Taken(candidates, needed, maxMembers)) - multiset{x})
  {
    hide Pool, StableSort, Greedy, Feasible;
    var ranked := StableSort(candidates, MemoryFirst);
    var taken := Taken(candidates, needed, maxMembers);
    GreedyIsPrefix(ranked, needed, maxMembers);
    assert x in multiset(taken);
    var rest := multiset(taken) - multiset{x};
    assert |rest| == |taken| - 1;
    TooSmall(candidates, needed, rest, |taken| - 1);
  }

  lemma TooSmall(candidates: seq<PipelineCandidate>, needed: nat, m: multiset<PipelineCandidate>, k: nat)
    requires |m| == k <= |candidates| && Sum(StableSort(candidates, MemoryFirst)[..k], Free) < needed
    ensures !Feasible(candidates, needed, m)
  {
    hide Pool, StableSort;
    if m <= multiset(candidates) { Heaviest(candidates, m, k); }
  }

  /** The machines of a plan, in chain order. */
  ghost function Chain(views: seq<NodeView>, model: Model, build: Option<string>,
                       maxMembers: int): seq<PipelineCandidate> {
    StableSort(Taken(CandidatesOf(views, build), NeededMB(model), maxMembers), BestLink)
  }

  lemma {:induction false} AllPool(candidates: seq<PipelineCandidate>, needed: nat, m: multiset<PipelineCandidate>)
    requires Feasible(candidates, needed, m)
    ensures Sum(candidates, Free) >= needed
  {
    PoolOfSeq(candidates, Free);
    PoolMonotone(m, multiset(candidates), Free);
  }

  /** The plan spelled out: it is formed from the chain, whenever the chain is big enough. */
  lemma PlanShape(views: seq<NodeView>, model: Model, build: Option<string>, maxMembers: int)
    ensures var plan, chain := PlanPipeline(views, model, build, maxMembers), Chain(views, model, build, maxMembers);
            && (plan.Some? <==> Sum(chain, Free) >= NeededMB(model))
            && (plan.Some? ==> chain != [] && Sum(chain, Free) > 0 && plan.value == PlanFor(chain, NeededMB(model)))
  {
    hide Greedy, StableSort, PlanFor, Pool, CandidatesOf;
    var candidates, needed := CandidatesOf(views, build), NeededMB(model);
    var taken := Taken(candidates, needed, maxMembers);
    var chain := Chain(views, model, build, maxMembers);
    PoolOfSeq(taken, Free);
    PoolOfSeq(chain, Free);
    ChosenPools(candidates, needed, maxMembers);
    if Sum(taken, Free) >= needed {
      TakenFeasible(candidates, needed, maxMembers);
      AllPool(candidates, needed, multiset(taken));
    }
  }

  lemma PlanIsTaken(views: seq<NodeView>, model: Model, build: Option<string>, maxMembers: int)
    ensures var plan, chain := PlanPipeline(views, model, build, maxMembers), Chain(views, model, build, maxMembers);
            var taken := Taken(CandidatesOf(views, build), NeededMB(model), maxMembers);
            && (plan.Some? <==> Sum(taken, Free) >= NeededMB(model))
            && (plan.Some? ==> |plan.value.members| == |chain| == |taken|)
            && multiset(chain) == multiset(taken)
  {
    hide Greedy, StableSort, PlanFor, Pool, CandidatesOf, PlanPipeline;
    var taken := Taken(CandidatesOf(views, build), NeededMB(model), maxMembers);
    PlanShape(views, model, build, maxMembers);
    PoolOfSeq(taken, Free);
    PoolOfSeq(Chain(views, model, build, maxMembers), Free);
    if Sum(taken, Free) >= NeededMB(model) { MemberCount(views, model, build, maxMembers); }
  }

  lemma MemberCount(views: seq<NodeView>, model: Model, build: Option<string>, maxMembers: int)
    requires PlanPipeline(views, model, build, maxMembers).Some?
    ensures |PlanPipeline(views, model, build, maxMembers).value.members| == |Chain(views, model, build, maxMembers)|
  {
    hide Chain, PlanPipeline;
    PlanShape(views, model, build, maxMembers);
  }

  /** Complete: whenever some choice of at most `maxMembers` offered machines pools what the
      model needs, a plan is formed. */
  lemma PlanIsFound(views: seq<NodeView>, model: Model, build: Option<string>, maxMembers: int,
                    m: multiset<PipelineCandidate>)
    requires |m| <= maxMembers && Feasible(CandidatesOf(views, build), NeededMB(model), m)
    ensures PlanPipeline(views, model, build, maxMembers).Some?
  {
    hide Taken, CandidatesOf, PlanPipeline, Feasible, Chain;
    PlanIsTaken(views, model, build, maxMembers);
    TakenFewest(CandidatesOf(views, build), NeededMB(model), maxMembers, m);
  }

  /** Sound: the machines of a plan are such a choice. */
  lemma PlanIsFeasible(views: seq<NodeView>, model: Model, build: Option<string>, maxMembers: int)
    requires PlanPipeline(views, model, build, maxMembers).Some?
    ensures var chain := Chain(views, model, build, maxMembers);
            |chain| <= maxMembers && Feasible(CandidatesOf(views, build), NeededMB(model), multiset(chain))
  {
    hide Taken, CandidatesOf, PlanPipeline, Feasible, Chain;
    PlanIsTaken(views, model, build, maxMembers);
    TakenFeasible(CandidatesOf(views, build), NeededMB(model), maxMembers);
  }

  /** A plan is formed exactly when some choice of at most `maxMembers` offered machines
      pools the memory the model needs. */
  lemma PlanIffFeasible(views: seq<NodeView>, model: Model, build: Option<string>, maxMembers: int)
    ensures PlanPipeline(views, model, build, maxMembers).Some? <==>
            exists m: multiset<PipelineCandidate> ::
              |m| <= maxMembers && Feasible(CandidatesOf(views, build), NeededMB(model), m)
  {
    hide Taken, CandidatesOf, PlanPipeline, Feasible, Chain;
    if PlanPipeline(views, model, build, maxMembers).Some? {
      PlanIsFeasible(views, model, build, maxMembers);
      assert |multiset(Chain(views, model, build, maxMembers))| <= maxMembers;
    }
    forall m: multiset<PipelineCandidate>
      | |m| <= maxMembers && Feasible(CandidatesOf(views, build), NeededMB(model), m)
      ensures PlanPipeline(views, model, build, maxMembers).Some?
    {
      PlanIsFound(views, model, build, maxMembers, m);
    }
  }

  /** No feasible choice, of whatever size, has fewer members than the plan. */
  lemma PlanIsMinimal(views: seq<NodeView>, model: Model, build: Option<string>, maxMembers: int,
                      m: multiset<PipelineCandidate>)
    requires PlanPipeline(views, model, build, maxMembers).Some?
    requires Feasible(CandidatesOf(views, build), NeededMB(model), m)
    ensures |PlanPipeline(views, model, build, maxMembers).value.members| <= |m|
  {
    hide Taken, CandidatesOf, PlanPipeline, Feasible, Chain;
    PlanIsTaken(views, model, build, maxMembers);
    TakenFewest(CandidatesOf(views, build), NeededMB(model), maxMembers, m);
  }

  /** A plan can spare none of its members. */
  lemma NobodyToSpare(views: seq<NodeView>, model: Model, build: Option<string>, maxMembers: int, x: PipelineCandidate)
    requires x in Chain(views, model, build, maxMembers)
    ensures !Feasible(CandidatesOf(views, build), NeededMB(model),
                      multiset(Chain(views, model, build, maxMembers)) - multiset{x})
  {
    hide Taken, CandidatesOf, PlanPipeline, Feasible, Chain;
    PlanIsTaken(views, model, build, maxMembers);
    SameElements(Chain(views, model, build, maxMembers), Taken(CandidatesOf(views, build), NeededMB(model), maxMembers));
    NoneToSpare(CandidatesOf(views, build), NeededMB(model), maxMembers, x);
  }

  // ---- shares ----

  function ShareSum(members: seq<PipelineMember>): real {
    if members == [] then 0.0 else members[0].share + ShareSum(members[1..])
  }

  function AssignedSum(members: seq<PipelineMember>): int {
    if members == [] then 0 else members[0].assignedMB + AssignedSum(members[1..])
  }

  lemma MembersTail(chosen: seq<PipelineCandidate>, capacity: nat, needed: nat)
    requires capacity > 0 && chosen != []
    ensures MembersOf(chosen, capacity, needed)[1..] == MembersOf(chosen[1..], capacity, needed)
  {
  }

  lemma {:induction false} SharesAddUp(chosen: seq<PipelineCandidate>, capacity: nat, needed: nat)
    requires capacity > 0
    ensures ShareSum(MembersOf(chosen, capacity, needed)) == Sum(chosen, Free) as real / capacity as real
  {
    hide MembersOf;
    if chosen == [] {
      assert MembersOf(chosen, capacity, needed) == [];
    } else {
      MembersTail(chosen, capacity, needed);
      FirstMember(chosen, capacity, needed);
      SharesAddUp(chosen[1..], capacity, needed);
      AddOver(chosen[0].freeMB as real, Sum(chosen[1..], Free) as real, capacity as real);
    }
  }

  lemma FirstMember(chosen: seq<PipelineCandidate>, capacity: nat, needed: nat)
    requires capacity > 0 && chosen != []
    ensures MembersOf(chosen, capacity, needed)[0] == MemberOf(chosen[0], capacity, needed)
  {
  }

  predicate Rounded(m: PipelineMember, needed: nat) {
    m.assignedMB == Round(m.share * needed as real)
  }

  /** Rounding moves each member by at most half a megabyte. */
  lemma {:induction false} RoundingDrift(members: seq<PipelineMember>, needed: nat)
    requires forall i | 0 <= i < |members| :: Rounded(members[i], needed)
    ensures var drift := AssignedSum(members) as real - ShareSum(members) * needed as real;
            -(|members| as real) <= 2.0 * drift <= |members| as real
  {
    if members != [] {
      assert Rounded(members[0], needed);
      RoundingDrift(members[1..], needed);
      Distribute(members[0].share, ShareSum(members[1..]), needed as real);
      RoundNear(members[0].share * needed as real);
    }
  }

  lemma RoundNear(x: real)
    ensures -1.0 <= 2.0 * (Round(x) as real - x) <= 1.0
  {
  }

  /** A share of what is needed, when the pool is big enough, is no more than was offered. */
  lemma ShareFits(free: nat, capacity: nat, needed: nat)
    requires capacity >= needed && capacity > 0
    ensures var part := free as real / capacity as real;
            0 <= Round(part * needed as real) <= free
  {
    var part := free as real / capacity as real;
    Multiply(part, needed as real, capacity as real);
    assert part * capacity as real == free as real;
  }

  lemma Multiply(x: real, a: real, b: real)
    requires x >= 0.0 && 0.0 <= a <= b
    ensures 0.0 <= x * a <= x * b
  {
  }

  lemma SharesAreOne(chain: seq<PipelineCandidate>, needed: nat)
    requires Sum(chain, Free) > 0
    ensures ShareSum(MembersOf(chain, Sum(chain, Free), needed)) == 1.0
  {
    hide Sum, MembersOf, ShareSum;
    OverItself(Sum(chain, Free) as real);
    SharesAddUp(chain, Sum(chain, Free), needed);
  }

  lemma DriftBounds(members: seq<PipelineMember>, needed: nat)
    requires forall i | 0 <= i < |members| :: Rounded(members[i], needed)
    requires ShareSum(members) == 1.0
    ensures -|members| <= 2 * (AssignedSum(members) - needed) <= |members|
  {
    RoundingDrift(members, needed);
  }

  lemma MemberAt(chain: seq<PipelineCandidate>, capacity: nat, needed: nat, i: nat)
    requires capacity > 0 && capacity >= needed && i < |chain|
    ensures var m := MembersOf(chain, capacity, needed)[i];
            Rounded(m, needed) && 0 <= m.assignedMB <= chain[i].freeMB
  {
    ShareFits(chain[i].freeMB, capacity, needed);
  }

  /** In every plan the shares sum to one, no member is assigned more than it offers, and
      all together they are assigned what is needed to within half a megabyte each. */
  lemma NobodyOverAsked(views: seq<NodeView>, model: Model, build: Option<string>, maxMembers: int)
    requires PlanPipeline(views, model, build, maxMembers).Some?
    ensures var members, chain := PlanPipeline(views, model, build, maxMembers).value.members,
                                  Chain(views, model, build, maxMembers);
            && ShareSum(members) == 1.0
            && |members| == |chain|
            && (forall i | 0 <= i < |members| :: 0 <= members[i].assignedMB <= chain[i].freeMB)
            && -|members| <= 2 * (AssignedSum(members) - NeededMB(model)) <= |members|
  {
    hide PlanPipeline, Chain, Pool, Rounded, Sum, MembersOf, MemberOf, NeededMB, ShareSum, AssignedSum, PickHead;
    var chain, needed := Chain(views, model, build, maxMembers), NeededMB(model);
    PlanShape(views, model, build, maxMembers);
    var capacity := Sum(chain, Free);
    var members := MembersOf(chain, capacity, needed);
    SharesAreOne(chain, needed);
    forall i | 0 <= i < |members|
      ensures Rounded(members[i], needed) && 0 <= members[i].assignedMB <= chain[i].freeMB
    {
      MemberAt(chain, capacity, needed, i);
    }
    DriftBounds(members, needed);
  }

  // ---- the loops of the source ----

  /** Which nodes offer memory to a pipeline. */
  method ListCandidates(views: seq<NodeView>, build: Option<string>) returns (found: seq<PipelineCandidate>)
    ensures found == CandidatesOf(views, build)
  {
    hide Joins, AsCandidate;
    found := [];
    for i := 0 to |views|
      invariant found + CandidatesOf(views[i..], build) == CandidatesOf(views, build)
    {
      assert views[i..][1..] == views[i + 1..];
      if Joins(views[i].node, build) {
        found := found + [AsCandidate(views[i], build)];
      }
    }
  }

  lemma NothingPooled()
    ensures Sum([], Free) == 0
  {
  }

  /** Take from the ranking until the need is met or the cap is hit. */
  method TakeGreedy(ranked: seq<PipelineCandidate>, needed: nat, maxMembers: int)
    returns (chosen: seq<PipelineCandidate>, capacity: nat)
    ensures chosen == Greedy(ranked, needed, maxMembers) && capacity == Sum(chosen, Free)
  {
    hide Sum;
    chosen, capacity := [], 0;
    var i := 0;
    NothingPooled();
    while i < |ranked| && capacity < needed && |chosen| < maxMembers
      invariant i == |chosen| <= |ranked|
      invariant chosen + Greedy(ranked[i..], needed - capacity, maxMembers - i) == Greedy(ranked, needed, maxMembers)
      invariant capacity == Sum(chosen, Free)
    {
      assert ranked[i..][1..] == ranked[i + 1..];
      SumPush(chosen, ranked[i], Free);
      chosen := chosen + [ranked[i]];
      capacity := capacity + ranked[i].freeMB;
      i := i + 1;
    }
    assert Greedy(ranked[i..], needed - capacity, maxMembers - i) == [];
  }

  method AssignShares(chain: seq<PipelineCandidate>, capacity: nat, needed: nat) returns (members: seq<PipelineMember>)
    requires capacity > 0
    ensures members == MembersOf(chain, capacity, needed)
  {
    members := [];
    for k := 0 to |chain|
      invariant members == MembersOf(chain[..k], capacity, needed)
    {
      members := members + [MemberOf(chain[k], capacity, needed)];
    }
    assert chain[..|chain|] == chain;
  }

  /** The planner: rank, take, order the chain, assign. */
  method FormPipeline(views: seq<NodeView>, model: Model, build: Option<string>, maxMembers: int)
    returns (plan: Option<PipelinePlan>)
    ensures plan == PlanPipeline(views, model, build, maxMembers)
  {
    hide Greedy, StableSort, MembersOf, CandidatesOf, Pool;
    var needed := NeededMB(model);
    var candidates := ListCandidates(views, build);
    if candidates == [] || Sum(candidates, Free) < needed { return None; }
    var chosen, capacity := TakeGreedy(StableSort(candidates, MemoryFirst), needed, maxMembers);
    if capacity < needed { return None; }
    ChosenPools(candidates, needed, maxMembers);
    var chain := StableSort(chosen, BestLink);
    PoolOfSeq(chosen, Free);
    PoolOfSeq(chain, Free);
    var members := AssignShares(chain, capacity, needed);
    return Some(PipelinePlan(PickHead(chain).nodeId, members, capacity));
  }
}
