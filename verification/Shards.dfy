/** Shard manifests and the scoring that places shards on joining nodes: greedy choice by
    score turns out to be round-robin. */
module Shards {
  import opened Collections
  import opened Sorting
  import Layers

  const MEGABYTE: nat := 1024 * 1024
  const NOMINAL_BYTES: nat := 512 * MEGABYTE

  /** A shard is named by its index within the model. */
  datatype Shard = Shard(index: nat, layers: Layers.Range, sizeBytes: nat)

  datatype Manifest = Manifest(totalLayers: nat, totalBytes: nat, shards: seq<Shard>)

  type Rtt = r: real | r >= 0.0

  datatype Joining = Joining(availableMB: nat, latencyMs: Rtt)

  function DefaultManifest(totalLayers: nat, count: nat): (r: Manifest)
    requires count > 0
    ensures |r.shards| == count
    ensures forall i | 0 <= i < count :: r.shards[i].index == i && r.shards[i].sizeBytes == NOMINAL_BYTES
  {
    Manifest(totalLayers, count * NOMINAL_BYTES,
             seq(count, i requires 0 <= i < count => Shard(i, Layers.Ranges(totalLayers, count)[i], NOMINAL_BYTES)))
  }

  /** The loop of the source; `None` is the panic of its 32-bit arithmetic. */
  method CreateDefaultFlagship(totalLayers: nat, count: nat) returns (manifest: Option<Manifest>)
    ensures manifest == if Layers.Computable(totalLayers, count) then Some(DefaultManifest(totalLayers, count)) else None
  {
    hide Layers.RangeAt;
    var ranges := Layers.CutLayers(totalLayers, count);
    if ranges.None? { return None; }
    var shards: seq<Shard> := [];
    for i := 0 to count
      invariant shards == DefaultManifest(totalLayers, count).shards[..i]
    {
      shards := shards + [Shard(i, ranges.value[i], NOMINAL_BYTES)];
    }
    assert shards == DefaultManifest(totalLayers, count).shards;
    return Some(Manifest(totalLayers, count * NOMINAL_BYTES, shards));
  }

  // ---- scoring ----

  type Replicas = map<nat, nat>

  function CountOf(replicas: Replicas, shard: nat): nat {
    if shard in replicas then replicas[shard] else 0
  }

  function Fit(shard: Shard, availableMB: nat): real {
    var sizeMB := shard.sizeBytes / MEGABYTE;
    availableMB as real / (if sizeMB >= 1 then sizeMB as real else 1.0)
  }

  function Deficit(demand: real, replicas: nat): real {
    demand / (replicas as real + 1.0)
  }

  function Proximity(latencyMs: Rtt): real {
    100.0 / (latencyMs + 10.0)
  }

  function Score(shard: Shard, demand: real, replicas: nat, node: Joining): real {
    Deficit(demand, replicas) * Fit(shard, node.availableMB) * Proximity(node.latencyMs)
  }

  function ByScore(replicas: Replicas, node: Joining): Shard -> Rank {
    (s: Shard) => Rank(-Score(s, 1.0, CountOf(replicas, s.index), node), 0.0)
  }

  /** The best-scoring shard, the earliest on a tie. */
  function BestShard(manifest: Manifest, replicas: Replicas, node: Joining): (r: Option<Shard>)
    ensures r.Some? <==> manifest.shards != []
  {
    if manifest.shards == [] then None else Some(StableSort(manifest.shards, ByScore(replicas, node))[0])
  }

  function Place(manifest: Manifest, replicas: Replicas, node: Joining): Replicas {
    match BestShard(manifest, replicas, node)
    case None => replicas
    case Some(s) => replicas[s.index := CountOf(replicas, s.index) + 1]
  }

  /** All nodes in order, from no replicas. */
  function Placed(manifest: Manifest, nodes: seq<Joining>): Replicas {
    if nodes == [] then map[] else Place(manifest, Placed(manifest, nodes[..|nodes| - 1]), nodes[|nodes| - 1])
  }

  /** The placement loop of the benchmark. */
  method PlaceAll(manifest: Manifest, nodes: seq<Joining>) returns (replicas: Replicas)
    ensures replicas == Placed(manifest, nodes)
  {
    replicas := map[];
    for i := 0 to |nodes|
      invariant replicas == Placed(manifest, nodes[..i])
    {
      assert nodes[..i + 1][..i] == nodes[..i];
      var best := BestShard(manifest, replicas, nodes[i]);
      if best.Some? {
        replicas := replicas[best.value.index := CountOf(replicas, best.value.index) + 1];
      }
    }
    assert nodes[..|nodes|] == nodes;
  }

  // ---- round-robin ----

  lemma Positive(a: real, b: real)
    requires b > 0.0
    ensures a > 0.0 ==> a / b > 0.0 && a * b > 0.0
  {
  }

  lemma DeficitFalls(a: nat, b: nat)
    requires a < b
    ensures Deficit(1.0, a) > Deficit(1.0, b)
  {
    var x, y := a as real + 1.0, b as real + 1.0;
    Positive(y - x, y);
    Positive((y - x) / y, x);
    assert 1.0 / x - 1.0 / y == (y - x) / y / x;
  }

  lemma TimesMonotone(x: real, y: real, f: real, p: real)
    requires f > 0.0 && p > 0.0 && x > y
    ensures x * f * p > y * f * p
  {
  }

  /** With equal sizes and some memory, fewer replicas mean a strictly better score. */
  lemma FewerIsBetter(s: Shard, t: Shard, a: nat, b: nat, node: Joining)
    requires s.sizeBytes == t.sizeBytes && node.availableMB > 0
    ensures Score(s, 1.0, a, node) > Score(t, 1.0, b, node) <==> a < b
  {
    var sizeMB := s.sizeBytes / MEGABYTE;
    Positive(node.availableMB as real, if sizeMB >= 1 then sizeMB as real else 1.0);
    Positive(100.0, node.latencyMs + 10.0);
    var f, p := Fit(s, node.availableMB), Proximity(node.latencyMs);
    if a < b {
      DeficitFalls(a, b);
      TimesMonotone(Deficit(1.0, a), Deficit(1.0, b), f, p);
    } else if b < a {
      DeficitFalls(b, a);
      TimesMonotone(Deficit(1.0, b), Deficit(1.0, a), f, p);
    }
  }

  /** Replicas after n nodes when shards are dealt in turn. */
  function Turns(n: nat, k: nat, shard: nat): nat
    requires k > 0
  {
    n / k + if shard < n % k then 1 else 0
  }

  lemma NextTurn(n: nat, k: nat, shard: nat)
    requires k > 0 && shard < k
    ensures Turns(n + 1, k, shard) == Turns(n, k, shard) + if shard == n % k then 1 else 0
  {
    var q, r := n / k, n % k;
    assert n == q * k + r;
    if r + 1 < k {
      DivMod(n + 1, k, q, r + 1);
    } else {
      assert n + 1 == (q + 1) * k;
      DivMod(n + 1, k, q + 1, 0);
    }
  }

  lemma DivMod(n: nat, k: nat, q: nat, r: nat)
    requires k > 0 && r < k && n == q * k + r
    ensures n / k == q && n % k == r
  {
    assert (q + 1) * k == q * k + k;
    Layers.SameQuotient(n, k, q);
    assert n == (n / k) * k + n % k;
  }

  lemma BestIsNext(manifest: Manifest, replicas: Replicas, node: Joining, n: nat)
    requires manifest.shards != [] && node.availableMB > 0
    requires forall i | 0 <= i < |manifest.shards| ::
               manifest.shards[i].index == i && manifest.shards[i].sizeBytes == NOMINAL_BYTES
    requires forall i | 0 <= i < |manifest.shards| :: CountOf(replicas, i) == Turns(n, |manifest.shards|, i)
    ensures BestShard(manifest, replicas, node) == Some(manifest.shards[n % |manifest.shards|])
  {
    hide StableSort, Score;
    var shards, k := manifest.shards, |manifest.shards|;
    var i := FirstOfSort(shards, ByScore(replicas, node));
    var next := n % k;
    forall j | 0 <= j < k
      ensures CountOf(replicas, i) <= CountOf(replicas, j)
      ensures j < i ==> CountOf(replicas, i) < CountOf(replicas, j)
    {
      FewerIsBetter(shards[j], shards[i], CountOf(replicas, j), CountOf(replicas, i), node);
      FewerIsBetter(shards[i], shards[j], CountOf(replicas, i), CountOf(replicas, j), node);
    }
    assert CountOf(replicas, next) == n / k;
    assert i == next;
  }

  /** Greedy placement of a default manifest deals its k shards in turn: the n-th node with
      any memory gets shard n mod k, so replica counts never differ by more than one. */
  lemma {:induction false} GreedyIsRoundRobin(totalLayers: nat, k: nat, nodes: seq<Joining>)
    requires k > 0 && forall i | 0 <= i < |nodes| :: nodes[i].availableMB > 0
    ensures var manifest := DefaultManifest(totalLayers, k);
            && (forall s | 0 <= s < k :: CountOf(Placed(manifest, nodes), s) == Turns(|nodes|, k, s))
            && (forall node: Joining | node.availableMB > 0 ::
                  BestShard(manifest, Placed(manifest, nodes), node) == Some(manifest.shards[|nodes| % k]))
  {
    hide BestShard, DefaultManifest, Turns;
    var manifest := DefaultManifest(totalLayers, k);
    if nodes == [] {
      Nothing(k);
    } else {
      var front, last := nodes[..|nodes| - 1], nodes[|nodes| - 1];
      GreedyIsRoundRobin(totalLayers, k, front);
      forall s | 0 <= s < k
        ensures CountOf(Placed(manifest, nodes), s) == Turns(|nodes|, k, s)
      {
        NextTurn(|front|, k, s);
      }
    }
    forall node: Joining | node.availableMB > 0
      ensures BestShard(manifest, Placed(manifest, nodes), node) == Some(manifest.shards[|nodes| % k])
    {
      BestIsNext(manifest, Placed(manifest, nodes), node, |nodes|);
    }
  }

  lemma Nothing(k: nat)
    requires k > 0
    ensures forall s | 0 <= s < k :: Turns(0, k, s) == 0
  {
  }

  lemma Balanced(totalLayers: nat, k: nat, nodes: seq<Joining>, s: nat, t: nat)
    requires k > 0 && (forall i | 0 <= i < |nodes| :: nodes[i].availableMB > 0) && s < k && t < k
    ensures var replicas := Placed(DefaultManifest(totalLayers, k), nodes);
            CountOf(replicas, s) <= CountOf(replicas, t) + 1
  {
    hide Placed, DefaultManifest;
    GreedyIsRoundRobin(totalLayers, k, nodes);
  }

  /** A node without memory scores every shard alike and is always given the first. */
  lemma NoMemoryGetsFirst(manifest: Manifest, replicas: Replicas, node: Joining)
    requires manifest.shards != [] && node.availableMB == 0
    ensures BestShard(manifest, replicas, node) == Some(manifest.shards[0])
  {
  }

  // ---- the score and the manifest themselves ----

  lemma OverAll(a: real, x: real, b: real, y: real, c: real, z: real)
    requires x > 0.0 && y > 0.0 && z > 0.0
    ensures a / x * (b / y) * (c / z) * (x * y * z) == a * b * c
  {
    assert a / x * (b / y) * (c / z) * (x * y * z) == (a / x * x) * (b / y * y) * (c / z * z);
  }

  /** The score of a shard on a node: demand times free memory times 100, over one more than
      its replicas, its size in megabytes (at least one), and ten more than the latency. */
  lemma ScoreExactly(shard: Shard, demand: real, replicas: nat, node: Joining)
    ensures var sizeMB := if shard.sizeBytes / 1048576 >= 1 then (shard.sizeBytes / 1048576) as real else 1.0;
            Score(shard, demand, replicas, node) * ((replicas as real + 1.0) * sizeMB * (node.latencyMs + 10.0))
              == demand * node.availableMB as real * 100.0
  {
    OverAll(demand, replicas as real + 1.0, node.availableMB as real,
            if shard.sizeBytes / 1048576 >= 1 then (shard.sizeBytes / 1048576) as real else 1.0,
            100.0, node.latencyMs + 10.0);
  }

  /** A default manifest has its shards in order, of 512 MB each, and every layer of the
      model in exactly one of them. */
  lemma ManifestCovers(totalLayers: nat, count: nat, layer: nat) returns (owner: nat)
    requires count > 0 && layer < totalLayers
    ensures var m := DefaultManifest(totalLayers, count);
            && m.totalLayers == totalLayers && m.totalBytes == count * 536870912 && |m.shards| == count
            && (forall i | 0 <= i < count :: m.shards[i].index == i && m.shards[i].sizeBytes == 536870912)
            && owner < count && m.shards[owner].layers.Has(layer)
            && forall i | 0 <= i < count :: m.shards[i].layers.Has(layer) ==> i == owner
  {
    hide Layers.RangeAt;
    owner := Layers.ExactlyOne(totalLayers, count, layer);
  }
}
