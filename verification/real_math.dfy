/** Small real-valued helpers mirroring the Kotlin standard-library functions
    the pull-refresh code calls on floats (`abs`, `min`, `max`, `coerceIn`). */
module RealMath {

  function Abs(x: real): (r: real)
    ensures r >= 0.0
    ensures r == x || r == -x
  {
    if x < 0.0 then -x else x
  }

  function Min(a: real, b: real): (r: real)
    ensures r <= a && r <= b
    ensures r == a || r == b
  {
    if a <= b then a else b
  }

  function Max(a: real, b: real): (r: real)
    ensures r >= a && r >= b
    ensures r == a || r == b
  {
    if a >= b then a else b
  }

  /** `v.coerceIn(lo, hi)`: the value of the interval `[lo, hi]` nearest to `v`.
      Kotlin throws when `lo > hi`; callers here never pass such bounds. */
  function Clamp(v: real, lo: real, hi: real): (r: real)
    requires lo <= hi
    ensures lo <= r <= hi
    ensures lo <= v <= hi ==> r == v
    ensures v < lo ==> r == lo
    ensures hi < v ==> r == hi
  {
    if v < lo then lo else if v > hi then hi else v
  }

  /** Scaling by a non-negative factor keeps the order. */
  lemma MulMonotone(a: real, x: real, y: real)
    requires a >= 0.0 && x <= y
    ensures a * x <= a * y
  {
    assert a * y - a * x == a * (y - x);
  }

  /** Dividing by a positive number keeps the order, both ways. */
  lemma DivMonotone(x: real, y: real, d: real)
    requires d > 0.0
    ensures x <= y <==> x / d <= y / d
  {
    assert y / d - x / d == (y - x) / d;
    assert (y - x) / d * d == y - x;
    if y - x < 0.0 {
      assert (y - x) / d < 0.0;
    } else {
      assert (y - x) / d >= 0.0;
    }
  }

  /** Multiplying and then dividing by the same non-zero number cancels. */
  lemma DivCancel(k: real, d: real)
    requires d != 0.0
    ensures (k * d) / d == k
  {
  }

  /** Dividing and then multiplying by the same non-zero number cancels. */
  lemma DivMulCancel(x: real, d: real)
    requires d != 0.0
    ensures d * (x / d) == x
  {
  }

  /** A non-zero number is left unchanged by exactly one factor: 1. */
  lemma UnitFactorOnly(a: real, k: real)
    requires a != 0.0
    ensures a * k == a <==> k == 1.0
  {
    assert a * k - a == a * (k - 1.0);
    if a * k == a {
      assert a * (k - 1.0) == 0.0;
      assert (a * (k - 1.0)) / a == k - 1.0;
    }
  }

  /** Scaling by a fraction in `[0, 1]` keeps the sign and does not grow the magnitude. */
  lemma ScaleByFraction(a: real, k: real)
    requires 0.0 <= k <= 1.0
    ensures a >= 0.0 ==> 0.0 <= a * k <= a
    ensures a <= 0.0 ==> a <= a * k <= 0.0
    ensures k == 1.0 ==> a * k == a
  {
    if a >= 0.0 {
      assert a - a * k == a * (1.0 - k);
    } else {
      assert a * k - a == (-a) * (1.0 - k);
    }
  }
}
