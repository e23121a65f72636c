/** What trimming, joining and numbering do to text, said of the characters. */
module TextLaws {
  import opened JobCore

  ghost predicate AllSpace(s: string) {
    forall i | 0 <= i < |s| :: IsSpace(s[i])
  }

  lemma {:induction false} TrimStartExactly(s: string) returns (k: nat)
    ensures k <= |s| && TrimStart(s) == s[k..] && AllSpace(s[..k])
    ensures TrimStart(s) != [] ==> !IsSpace(TrimStart(s)[0])
  {
    hide IsSpace;
    if s != [] && IsSpace(s[0]) {
      k := TrimStartExactly(s[1..]);
      k := k + 1;
    } else {
      k := 0;
    }
  }

  lemma {:induction false} TrimEndExactly(s: string) returns (k: nat)
    ensures k <= |s| && TrimEnd(s) == s[..k] && AllSpace(s[k..])
    ensures TrimEnd(s) != [] ==> !IsSpace(TrimEnd(s)[|TrimEnd(s)| - 1])
  {
    hide IsSpace;
    if s != [] && IsSpace(s[|s| - 1]) {
      k := TrimEndExactly(s[..|s| - 1]);
      assert s[..|s| - 1][..k] == s[..k];
      assert s[k..] == s[..|s| - 1][k..] + [s[|s| - 1]];
    } else {
      k := |s|;
    }
  }

  /** Trimming drops spaces at both ends and nothing else, and leaves none there. */
  lemma TrimExactly(s: string) returns (a: nat, b: nat)
    ensures a <= b <= |s| && Trim(s) == s[a..b] && AllSpace(s[..a]) && AllSpace(s[b..])
    ensures Trim(s) != [] ==> !IsSpace(Trim(s)[0]) && !IsSpace(Trim(s)[|Trim(s)| - 1])
  {
    hide TrimStart, TrimEnd, IsSpace;
    a := TrimStartExactly(s);
    var k := TrimEndExactly(s[a..]);
    b := a + k;
    assert s[a..][..k] == s[a..b] && s[a..][k..] == s[b..];
  }

  /** Nothing is left exactly of a text of spaces. */
  lemma BlankExactly(s: string)
    ensures Trim(s) == "" <==> AllSpace(s)
  {
    hide Trim, IsSpace;
    var a, b := TrimExactly(s);
    if Trim(s) == "" { assert s == s[..a] + s[b..]; }
  }

  lemma {:induction false} JoinPush(parts: seq<string>, x: string, separator: string)
    ensures Join(parts + [x], separator) == if parts == [] then x else Join(parts, separator) + separator + x
  {
    if parts == [] {
      assert parts + [x] == [x];
    } else {
      assert (parts + [x])[1..] == parts[1..] + [x];
      JoinPush(parts[1..], x, separator);
    }
  }

  /** The number a run of decimal digits stands for. */
  function Value(digits: string): nat
    requires forall i | 0 <= i < |digits| :: '0' <= digits[i] <= '9'
  {
    if digits == "" then 0
    else Value(digits[..|digits| - 1]) * 10 + (digits[|digits| - 1] as int - '0' as int)
  }

  /** The digits of a number stand for it, without a leading zero. */
  lemma {:induction false} DigitsMean(n: nat)
    ensures var d := Digits(n);
            && d != "" && (forall i | 0 <= i < |d| :: '0' <= d[i] <= '9')
            && Value(d) == n && (d[0] == '0' ==> n == 0)
  {
    var d := Digits(n);
    if n < 10 {
      assert d[..0] == "";
    } else {
      DigitsMean(n / 10);
      assert d[..|d| - 1] == Digits(n / 10);
    }
  }

  lemma {:induction false} NumberedAt(parts: seq<string>, from: nat, i: nat)
    requires i < |parts|
    ensures |Numbered(parts, from)| == |parts|
    ensures Numbered(parts, from)[i] == "[" + Digits(from + i) + "] " + parts[i]
  {
    hide Digits;
    if i > 0 {
      NumberedAt(parts[1..], from + 1, i - 1);
    } else {
      NumberedLength(parts, from);
    }
  }

  lemma {:induction false} NumberedLength(parts: seq<string>, from: nat)
    ensures |Numbered(parts, from)| == |parts|
  {
    hide Digits;
    if parts != [] {
      NumberedLength(parts[1..], from + 1);
    }
  }
}
