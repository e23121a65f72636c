/** Optional values and the insertion-ordered maps (JavaScript `Map`) that the
    coordinator keeps its nodes, jobs and queues in. */
module Collections {
  datatype Option<+T> = None | Some(value: T)

  /** `keys` is the iteration order, `items` the contents. */
  datatype OrderedMap<K(==, !new), V> = OrderedMap(keys: seq<K>, items: map<K, V>) {
    ghost predicate Valid() {
      && Distinct(keys)
      && (forall k :: k in keys <==> k in items)
    }

    /** Overwriting keeps the position; a new key goes to the end. */
    function Set(k: K, v: V): (r: OrderedMap<K, V>)
      ensures Valid() ==> r.Valid()
    {
      if k in items then OrderedMap(keys, items[k := v])
      else
        assert Valid() ==> Distinct(keys + [k]);
        OrderedMap(keys + [k], items[k := v])
    }

    function Delete(k: K): (r: OrderedMap<K, V>)
      ensures Valid() ==> r.Valid()
      ensures Valid() ==> r.items.Keys == items.Keys - {k}
    {
      OrderedMap(Without(keys, k), items - {k})
    }
  }

  function EmptyMap<K(==, !new), V>(): (r: OrderedMap<K, V>)
    ensures r.Valid()
  {
    OrderedMap([], map[])
  }

  ghost predicate Distinct<T>(s: seq<T>) {
    forall i, j | 0 <= i < j < |s| :: s[i] != s[j]
  }

  /** `s` with every occurrence of `x` dropped, order kept. */
  function Without<T(==, !new)>(s: seq<T>, x: T): (r: seq<T>)
    ensures forall y :: y in r <==> y in s && y != x
    ensures Distinct(s) ==> Distinct(r)
  {
    if s == [] then []
    else
      var rest := Without(s[1..], x);
      assert Distinct(s) ==> s[0] !in rest;
      if s[0] == x then rest else [s[0]] + rest
  }

  /** A sequence without repetitions is no longer than any set that holds it. */
  lemma {:induction false} DistinctFits<T>(s: seq<T>, bound: set<T>)
    requires Distinct(s)
    requires forall x :: x in s ==> x in bound
    ensures |s| <= |bound|
  {
    if s != [] {
      var x := s[|s| - 1];
      var front := s[..|s| - 1];
      assert forall y :: y in front ==> y in s && y != x;
      DistinctFits(front, bound - {x});
      assert |bound - {x}| == |bound| - 1;
    }
  }
}
