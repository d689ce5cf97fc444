/** Small facts of real arithmetic, each for one use of it: the solver takes nonlinear steps one at a
    time. */
module Reals {

  function Min(x: real, y: real): real { if x <= y then x else y }

  function Max(x: real, y: real): real { if x <= y then y else x }

  lemma MulMono(x: real, y: real, d: real)
    requires x <= y && 0.0 <= d
    ensures x * d <= y * d
  {
  }

  lemma MulMonoStrict(x: real, y: real, d: real)
    requires x < y && 0.0 < d
    ensures x * d < y * d
  {
  }

  lemma ProductOfUnits(x: real, y: real)
    requires 0.0 <= x <= 1.0 && 0.0 <= y <= 1.0
    ensures 0.0 <= x * y
    ensures x * y <= x
    ensures x * y <= y
  {
    MulMono(0.0, x, y);
    MulMono(x, 1.0, y);
    MulMono(y, 1.0, x);
  }

  lemma QuotientIs(x: real, d: real, q: real)
    requires d != 0.0 && q * d == x
    ensures x / d == q
  {
    var r := x / d;
    assert r * d == x;
    assert (r - q) * d == 0.0;
  }

  lemma QuotientTimes(x: real, d: real)
    requires d != 0.0
    ensures (x / d) * d == x
  {
  }

  lemma QuotientBetween(x: real, d: real, lo: real, hi: real)
    requires 0.0 < d && lo * d <= x <= hi * d
    ensures lo <= x / d <= hi
  {
    var q := x / d;
    QuotientTimes(x, d);
    if q < lo { MulMonoStrict(q, lo, d); }
    if hi < q { MulMonoStrict(hi, q, d); }
  }

  lemma QuotientInside(x: real, d: real, lo: real, hi: real)
    requires 0.0 < d && lo * d < x < hi * d
    ensures lo < x / d < hi
  {
    QuotientBetween(x, d, lo, hi);
    QuotientTimes(x, d);
  }

  lemma ScaledRatio(x: real, y: real, d: real)
    requires y != 0.0 && d != 0.0
    ensures y * d != 0.0
    ensures (x * d) / (y * d) == x / y
  {
    var q := x / y;
    QuotientTimes(x, y);
    assert q * (y * d) == (q * y) * d;
    QuotientIs(x * d, y * d, q);
  }
}
