/** Pooling a weight over a choice of members. A choice is a sub-multiset of the
    candidates, so two identical machines may both be taken. */
module Choices {

  function Sum<T>(s: seq<T>, w: T -> nat): (r: nat) {
    if s == [] then 0 else w(s[0]) + Sum(s[1..], w)
  }

  ghost function Pool<T>(m: multiset<T>, w: T -> nat): (r: nat) {
    if m == multiset{} then 0
    else
      var x :| x in m;
      w(x) + Pool(m - multiset{x}, w)
  }

  lemma {:induction false} ZeroSum<T>(s: seq<T>, w: T -> nat)
    requires forall i | 0 <= i < |s| :: w(s[i]) == 0
    ensures Sum(s, w) == 0
  {
    if s != [] {
      ZeroSum(s[1..], w);
    }
  }

  lemma {:induction false} UniformSum<T>(s: seq<T>, w: T -> nat, each: nat)
    requires forall i | 0 <= i < |s| :: w(s[i]) == each
    ensures Sum(s, w) == |s| * each
  {
    if s != [] {
      UniformSum(s[1..], w, each);
      assert |s| * each == (|s| - 1) * each + each;
    }
  }

  lemma {:induction false} SumAppend<T>(s: seq<T>, t: seq<T>, w: T -> nat)
    ensures Sum(s + t, w) == Sum(s, w) + Sum(t, w)
  {
    if s == [] {
      assert s + t == t;
    } else {
      SumAppend(s[1..], t, w);
      assert (s + t)[1..] == s[1..] + t;
    }
  }

  lemma {:induction false} SumUpdate<T>(s: seq<T>, i: nat, x: T, w: T -> nat)
    requires i < |s|
    ensures Sum(s[i := x], w) + w(s[i]) == Sum(s, w) + w(x)
  {
    if i == 0 {
      assert s[i := x][1..] == s[1..];
    } else {
      assert s[i := x][1..] == s[1..][i - 1 := x];
      SumUpdate(s[1..], i - 1, x, w);
    }
  }

  lemma SumPush<T>(s: seq<T>, x: T, w: T -> nat)
    ensures Sum(s + [x], w) == Sum(s, w) + w(x)
  {
    SumAppend(s, [x], w);
    assert Sum([x], w) == w(x) + Sum([x][1..], w);
  }

  lemma {:induction false} SumAtLeast<T>(s: seq<T>, i: nat, w: T -> nat)
    requires i < |s|
    ensures Sum(s, w) >= w(s[i])
  {
    if i > 0 {
      SumAtLeast(s[1..], i - 1, w);
    }
  }

  lemma {:induction false} PoolRemove<T>(m: multiset<T>, x: T, w: T -> nat)
    requires x in m
    ensures Pool(m, w) == w(x) + Pool(m - multiset{x}, w)
    decreases |m|
  {
    var y :| y in m && Pool(m, w) == w(y) + Pool(m - multiset{y}, w);
    if y != x {
      PoolRemove(m - multiset{y}, x, w);
      PoolRemove(m - multiset{x}, y, w);
      assert m - multiset{y} - multiset{x} == m - multiset{x} - multiset{y};
    }
  }

  /** The pool of all of a sequence is its sum, in whatever order it is listed. */
  lemma {:induction false} PoolOfSeq<T>(s: seq<T>, w: T -> nat)
    ensures Pool(multiset(s), w) == Sum(s, w)
  {
    if s != [] {
      assert s == [s[0]] + s[1..];
      PoolOfSeq(s[1..], w);
      PoolRemove(multiset(s), s[0], w);
      assert multiset(s) - multiset{s[0]} == multiset(s[1..]);
    }
  }

  lemma {:induction false} PoolMonotone<T>(m: multiset<T>, n: multiset<T>, w: T -> nat)
    requires m <= n
    ensures Pool(m, w) <= Pool(n, w)
    decreases |m|
  {
    if m != multiset{} {
      var x :| x in m;
      PoolRemove(m, x, w);
      PoolRemove(n, x, w);
      PoolMonotone(m - multiset{x}, n - multiset{x}, w);
    }
  }

  lemma DropOne<T>(ranked: seq<T>, m: multiset<T>, x: T)
    requires ranked != [] && m <= multiset(ranked) && x in m
    requires ranked[0] in m ==> x == ranked[0]
    ensures m - multiset{x} <= multiset(ranked[1..])
    ensures |m - multiset{x}| == |m| - 1
  {
    assert ranked == [ranked[0]] + ranked[1..];
    assert multiset(ranked) == multiset{ranked[0]} + multiset(ranked[1..]);
  }

  /** Of all choices of at most k members from a ranking by descending weight, the
      first k pool the most. */
  lemma {:induction false} HeaviestPrefix<T>(ranked: seq<T>, m: multiset<T>, k: nat, w: T -> nat)
    requires forall i, j | 0 <= i < j < |ranked| :: w(ranked[i]) >= w(ranked[j])
    requires m <= multiset(ranked) && |m| <= k <= |ranked|
    ensures Pool(m, w) <= Sum(ranked[..k], w)
    decreases |ranked|
  {
    hide Pool;
    if m == multiset{} {
      PoolOfSeq([], w);
      assert multiset([]) == m;
    } else {
      var x :| x in m && (ranked[0] in m ==> x == ranked[0]);
      assert w(x) <= w(ranked[0]) by {
        assert x in multiset(ranked);
        assert x in ranked;
      }
      PoolRemove(m, x, w);
      DropOne(ranked, m, x);
      var rest := ranked[1..];
      assert forall i | 0 <= i < |rest| :: rest[i] == ranked[i + 1];
      HeaviestPrefix(rest, m - multiset{x}, k - 1, w);
      assert ranked[..k][1..] == rest[..k - 1];
    }
  }
}
