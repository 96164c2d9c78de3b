/** The three `Math` functions the estimator uses, over exact reals. */
module JsMath {

  /** `Math.round`: the nearest integer, with halves rounded toward +infinity. */
  function Round(x: real): (r: real)
    ensures IsWhole(r)
    ensures r - 0.5 <= x < r + 0.5
  {
    (x + 0.5).Floor as real
  }

  /** `Math.max` of two numbers. */
  function Max(a: real, b: real): (r: real)
    ensures r >= a && r >= b
    ensures r == a || r == b
  {
    if a >= b then a else b
  }

  /** `Math.min` of two numbers. */
  function Min(a: real, b: real): (r: real)
    ensures r <= a && r <= b
    ensures r == a || r == b
  {
    if a <= b then a else b
  }

  /** True when `x` has no fractional part. */
  predicate IsWhole(x: real) {
    x.Floor as real == x
  }

  /** Rounding never reverses the order of two numbers. */
  lemma RoundMonotone(x: real, y: real)
    requires x <= y
    ensures Round(x) <= Round(y)
  {
    var rx, ry := Round(x), Round(y);
    assert rx.Floor as real == rx && ry.Floor as real == ry;
    assert rx.Floor < ry.Floor + 1;
  }

  /** Rounding leaves a whole number unchanged. */
  lemma RoundWhole(x: real)
    requires IsWhole(x)
    ensures Round(x) == x
  {
    var r := Round(x);
    assert r.Floor as real == r && x.Floor as real == x;
    assert r.Floor == x.Floor;
  }

  /** A part `x` of a positive whole `d` is a fraction in [0, 1]. */
  lemma UnitFraction(x: real, d: real)
    requires d > 0.0
    ensures 0.0 <= x <= d ==> 0.0 <= x / d <= 1.0
  {
    var q := x / d;
    assert q * d == x;
    assert (1.0 - q) * d == d - x;
  }

  /** A blend `a + (b - a) * t` with `t` in [0, 1] stays between `a` and `b`. */
  lemma BlendBetween(a: real, b: real, t: real)
    ensures 0.0 <= t <= 1.0 ==> Min(a, b) <= a + (b - a) * t <= Max(a, b)
  {
    if 0.0 <= t <= 1.0 {
      if a <= b {
        NonNegativeProduct(b - a, t);
        NonNegativeProduct(b - a, 1.0 - t);
      } else {
        NonNegativeProduct(a - b, t);
        NonNegativeProduct(a - b, 1.0 - t);
      }
    }
  }

  /** The linear blend from `a` (at t = 0) to `b` (at t = 1). */
  function Blend(a: real, b: real, t: real): (r: real)
    ensures t == 0.0 ==> r == a
    ensures t == 1.0 ==> r == b
    ensures 0.0 <= t <= 1.0 ==> Min(a, b) <= r <= Max(a, b)
  {
    BlendBetween(a, b, t);
    a + (b - a) * t
  }

  /** Rounding a blend keeps it between the rounded ends. */
  lemma RoundedBlendBetween(a: real, b: real, t: real)
    requires 0.0 <= t <= 1.0
    ensures Round(Min(a, b)) <= Round(Blend(a, b, t)) <= Round(Max(a, b))
  {
    RoundMonotone(Min(a, b), Blend(a, b, t));
    RoundMonotone(Blend(a, b, t), Max(a, b));
  }

  /** The product of two non-negative numbers is non-negative. */
  lemma NonNegativeProduct(x: real, y: real)
    requires 0.0 <= x && 0.0 <= y
    ensures 0.0 <= x * y
  {
  }

  /** Two positive numbers have a positive product. */
  lemma PositiveProduct(x: real, y: real)
    requires 0.0 < x && 0.0 < y
    ensures 0.0 < x * y
  {
  }

  /** A number that leaves a non-zero factor unchanged is 1. */
  lemma UnitFactor(q: real, d: real)
    requires d != 0.0 && q * d == d
    ensures q == 1.0
  {
    assert (q - 1.0) * d == 0.0;
  }

  /** A non-zero number divided by itself is 1. */
  lemma SelfQuotient(d: real)
    requires d != 0.0
    ensures d / d == 1.0
  {
    assert (d / d) * d == d;
    UnitFactor(d / d, d);
  }
}
