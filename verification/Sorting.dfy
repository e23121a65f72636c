/** The library sorts the source calls (`Array.prototype.sort`, `slice::sort_by`):
    both are stable, so the result is a function of the input. Every comparator in the
    source compares one number and, in one case, breaks ties on a second. */
module Sorting {
  import opened Collections

  datatype Rank = Rank(major: real, minor: real) {
    predicate Ahead(other: Rank) {
      major < other.major || (major == other.major && minor < other.minor)
    }
  }

  ghost predicate Sorted<T>(s: seq<T>, rank: T -> Rank) {
    forall i, j | 0 <= i < j < |s| :: !rank(s[j]).Ahead(rank(s[i]))
  }

  /** Put `x`, which came earlier than everything in `s`, ahead of its equals. */
  function Insert<T>(x: T, s: seq<T>, rank: T -> Rank): (r: seq<T>)
    ensures |r| == |s| + 1
    ensures multiset(r) == multiset(s) + multiset{x}
  {
    if s == [] then [x]
    else if rank(s[0]).Ahead(rank(x)) then
      assert s == [s[0]] + s[1..];
      [s[0]] + Insert(x, s[1..], rank)
    else [x] + s
  }

  function StableSort<T>(s: seq<T>, rank: T -> Rank): (r: seq<T>)
    ensures |r| == |s|
    ensures multiset(r) == multiset(s)
  {
    if s == [] then []
    else
      assert s == [s[0]] + s[1..];
      Insert(s[0], StableSort(s[1..], rank), rank)
  }

  lemma SameElements<T>(s: seq<T>, t: seq<T>)
    requires multiset(s) == multiset(t)
    ensures forall i | 0 <= i < |s| :: s[i] in t
    ensures forall i | 0 <= i < |t| :: t[i] in s
  {
    forall i | 0 <= i < |s|
      ensures s[i] in t
    {
      assert s[i] in multiset(s);
    }
    forall i | 0 <= i < |t|
      ensures t[i] in s
    {
      assert t[i] in multiset(t);
    }
  }

  lemma {:induction false} InsertSorts<T>(x: T, s: seq<T>, rank: T -> Rank)
    requires Sorted(s, rank)
    ensures Sorted(Insert(x, s, rank), rank)
  {
    if s != [] && rank(s[0]).Ahead(rank(x)) {
      var rest := Insert(x, s[1..], rank);
      InsertSorts(x, s[1..], rank);
      SameElements(rest, s[1..] + [x]);
      forall j | 0 <= j < |rest|
        ensures !rank(rest[j]).Ahead(rank(s[0]))
      {
        assert rest[j] in s[1..] + [x];
      }
    }
  }

  lemma {:induction false} SortSorts<T>(s: seq<T>, rank: T -> Rank)
    ensures Sorted(StableSort(s, rank), rank)
  {
    if s != [] {
      SortSorts(s[1..], rank);
      InsertSorts(s[0], StableSort(s[1..], rank), rank);
    }
  }

  /** Stability at the front: the sort's first element is the earliest input element
      that nothing goes ahead of. */
  lemma {:induction false} FirstOfSort<T>(s: seq<T>, rank: T -> Rank) returns (i: nat)
    requires s != []
    ensures i < |s| && StableSort(s, rank)[0] == s[i]
    ensures forall j | 0 <= j < |s| :: !rank(s[j]).Ahead(rank(s[i]))
    ensures forall j | 0 <= j < i :: rank(s[i]).Ahead(rank(s[j]))
  {
    var rest := s[1..];
    if rest == [] {
      i := 0;
    } else {
      var k := FirstOfSort(rest, rank);
      var top, own := rank(rest[k]), rank(s[0]);
      forall j | 1 <= j < |s|
        ensures !rank(s[j]).Ahead(top)
        ensures j <= k ==> top.Ahead(rank(s[j]))
      {
        assert s[j] == rest[j - 1];
      }
      i := if top.Ahead(own) then k + 1 else 0;
    }
  }

  /** Sorting what is sorted changes nothing. */
  lemma {:induction false} AlreadySorted<T>(s: seq<T>, rank: T -> Rank)
    requires Sorted(s, rank)
    ensures StableSort(s, rank) == s
  {
    if s != [] {
      assert s == [s[0]] + s[1..];
      AlreadySorted(s[1..], rank);
      assert |s| > 1 ==> !rank(s[1]).Ahead(rank(s[0]));
    }
  }

  // ---- distinct keys survive sorting ----

  function Keys<T>(s: seq<T>, key: T -> nat): (r: seq<nat>)
    ensures |r| == |s| && forall i | 0 <= i < |r| :: r[i] == key(s[i])
  {
    seq(|s|, i requires 0 <= i < |s| => key(s[i]))
  }

  lemma KeysCons<T>(s: seq<T>, key: T -> nat)
    requires s != []
    ensures Keys(s, key) == [key(s[0])] + Keys(s[1..], key)
  {
  }

  lemma {:induction false} InsertKeys<T>(x: T, s: seq<T>, key: T -> nat, rank: T -> Rank)
    ensures forall k :: k in Keys(Insert(x, s, rank), key) <==> k == key(x) || k in Keys(s, key)
  {
    hide Keys;
    KeysCons(Insert(x, s, rank), key);
    if s == [] {
      assert Insert(x, s, rank)[1..] == [];
    } else {
      KeysCons(s, key);
      if rank(s[0]).Ahead(rank(x)) {
        InsertKeys(x, s[1..], key, rank);
        assert Insert(x, s, rank)[1..] == Insert(x, s[1..], rank);
      } else {
        assert Insert(x, s, rank)[1..] == s;
      }
    }
  }

  lemma DistinctCons(k: nat, rest: seq<nat>)
    ensures Distinct([k] + rest) <==> k !in rest && Distinct(rest)
  {
    var s := [k] + rest;
    if k !in rest && Distinct(rest) {
      assert Distinct(s);
    }
    if Distinct(s) {
      assert forall i | 0 <= i < |rest| :: rest[i] == s[i + 1] && s[0] != s[i + 1];
      assert Distinct(rest);
    }
  }

  lemma {:induction false} InsertDistinct<T>(x: T, s: seq<T>, key: T -> nat, rank: T -> Rank)
    requires Distinct(Keys(s, key)) && key(x) !in Keys(s, key)
    ensures Distinct(Keys(Insert(x, s, rank), key))
  {
    hide Keys, Distinct;
    var r := Insert(x, s, rank);
    KeysCons(r, key);
    DistinctCons(key(r[0]), Keys(r[1..], key));
    if s == [] {
      assert r[1..] == s;
    } else {
      KeysCons(s, key);
      DistinctCons(key(s[0]), Keys(s[1..], key));
      if rank(s[0]).Ahead(rank(x)) {
        InsertDistinct(x, s[1..], key, rank);
        InsertKeys(x, s[1..], key, rank);
        assert r[1..] == Insert(x, s[1..], rank);
      } else {
        assert r[1..] == s;
      }
    }
  }

  lemma {:induction false} SortKeys<T>(s: seq<T>, key: T -> nat, rank: T -> Rank)
    requires Distinct(Keys(s, key))
    ensures Distinct(Keys(StableSort(s, rank), key))
    ensures forall k :: k in Keys(StableSort(s, rank), key) <==> k in Keys(s, key)
  {
    hide Keys;
    if s != [] {
      KeysCons(s, key);
      DistinctCons(key(s[0]), Keys(s[1..], key));
      SortKeys(s[1..], key, rank);
      InsertDistinct(s[0], StableSort(s[1..], rank), key, rank);
      InsertKeys(s[0], StableSort(s[1..], rank), key, rank);
    }
  }
}
