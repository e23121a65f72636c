/** Facts about quotients and products of reals, one at a time. */
module Reals {
  lemma AddOver(a: real, b: real, c: real)
    requires c != 0.0
    ensures (a + b) / c == a / c + b / c
  {
  }

  lemma Distribute(a: real, b: real, c: real)
    ensures (a + b) * c == a * c + b * c
  {
  }

  lemma OverItself(x: real)
    requires x != 0.0
    ensures x / x == 1.0
  {
  }

  lemma QuotientSign(x: real, y: real)
    requires y > 0.0
    ensures x > 0.0 ==> x / y > 0.0
    ensures x >= 0.0 ==> x / y >= 0.0
  {
  }

  /** Parts of a whole keep their order and stay below one. */
  lemma Fraction(a: real, b: real, whole: real)
    requires whole > 0.0 && 0.0 <= a <= b < whole
    ensures 0.0 <= a / whole <= b / whole < 1.0
  {
    QuotientSign(a, whole);
    QuotientSign(b - a, whole);
    QuotientSign(whole - b, whole);
    AddOver(a, b - a, whole);
    AddOver(b, whole - b, whole);
    OverItself(whole);
  }
}
