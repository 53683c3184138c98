/**
 * The numeric primitives the source borrows from JavaScript's `Math`.
 *
 * `Math.sqrt`, `Math.sin`, `Math.cos` and `Math.acos` are not defined here:
 * they are supplied as a `MathLib` value, and `ValidMath` and `ExactSqrt`
 * state the only facts the model relies on. Numbers are `real`; single- and
 * double-precision rounding is not modelled.
 */
module Numeric {

  /** `Math.PI` as JavaScript prints it. */
  const PI: real := 3.141592653589793

  datatype MathLib = MathLib(
    sqrt: real -> real,
    sin: real -> real,
    cos: real -> real,
    acos: real -> real)

  function Sqrt(m: MathLib, x: real): real { m.sqrt(x) }
  function Sin(m: MathLib, x: real): real { m.sin(x) }
  function Cos(m: MathLib, x: real): real { m.cos(x) }
  function Acos(m: MathLib, x: real): real { m.acos(x) }

  /** The ranges of the library functions. */
  ghost predicate ValidMath(m: MathLib)
  {
    && (forall x :: -1.0 <= Sin(m, x) <= 1.0)
    && (forall x :: -1.0 <= Cos(m, x) <= 1.0)
    && (forall x :: 0.0 <= x ==> 0.0 <= Sqrt(m, x))
    && (forall x :: -1.0 <= x <= 1.0 ==> 0.0 <= Acos(m, x) <= PI)
  }

  /** `sqrt` is exact: the square of the root of x is x. */
  ghost predicate ExactSqrt(m: MathLib)
  {
    forall x :: 0.0 <= x ==> Sqrt(m, x) * Sqrt(m, x) == x
  }

  function Sq(x: real): (r: real)
    ensures r >= 0.0
  {
    x * x
  }

  function Abs(x: real): real { if x < 0.0 then -x else x }

  function Min(a: real, b: real): real { if a <= b then a else b }

  function Max(a: real, b: real): real { if a <= b then b else a }

  /** `Math.pow(x, n)` for a natural exponent. */
  function Pow(x: real, n: nat): real
  {
    if n == 0 then 1.0 else x * Pow(x, n - 1)
  }

  /** Left-to-right sum of a sequence. */
  function Sum(s: seq<real>): real
  {
    if |s| == 0 then 0.0 else Sum(s[..|s| - 1]) + s[|s| - 1]
  }

  /** A sum of n terms, each within [lo, hi], lies within [lo * n, hi * n]. */
  lemma {:induction false} SumBounded(s: seq<real>, lo: real, hi: real)
    requires forall i :: 0 <= i < |s| ==> lo <= s[i] <= hi
    ensures lo * |s| as real <= Sum(s) <= hi * |s| as real
  {
    if |s| > 0 {
      var init := s[..|s| - 1];
      SumBounded(init, lo, hi);
      SumStep(lo, hi, |init| as real, |s| as real, Sum(init), s[|s| - 1]);
    }
  }

  /** The mean of terms within [lo, hi] lies within [lo, hi]. */
  lemma MeanBounded(s: seq<real>, lo: real, hi: real)
    requires |s| > 0 && forall i :: 0 <= i < |s| ==> lo <= s[i] <= hi
    ensures lo <= Sum(s) / |s| as real <= hi
  {
    SumBounded(s, lo, hi);
    DivBounded(Sum(s), |s| as real, lo, hi);
  }

  /** A value between lo * n and hi * n, divided by n > 0, lies between lo and hi. */
  lemma DivBounded(s: real, n: real, lo: real, hi: real)
    requires n > 0.0 && lo * n <= s <= hi * n
    ensures lo <= s / n <= hi
  {
    assert lo * n / n == lo && hi * n / n == hi;
  }

  /** Adding one term within [lo, hi] to a sum of k such terms. */
  lemma SumStep(lo: real, hi: real, k: real, n: real, s: real, w: real)
    requires n == k + 1.0
    requires lo * k <= s <= hi * k && lo <= w <= hi
    ensures lo * n <= s + w <= hi * n
  {
    assert lo * n == lo * k + lo;
    assert hi * n == hi * k + hi;
  }

  /** Powers of a value in [-1, 1] stay in [-1, 1]. */
  lemma {:induction false} PowBounded(x: real, n: nat)
    requires Abs(x) <= 1.0
    ensures Abs(Pow(x, n)) <= 1.0
  {
    if n > 0 {
      PowBounded(x, n - 1);
      ProductBounded(x, Pow(x, n - 1), 1.0, 1.0);
    }
  }

  /** A product of two bounded factors is bounded by the product of the bounds. */
  lemma ProductBounded(a: real, b: real, ka: real, kb: real)
    requires Abs(a) <= ka && Abs(b) <= kb
    ensures Abs(a * b) <= ka * kb
  {
    assert Abs(a * b) == Abs(a) * Abs(b);
    assert Abs(a) * Abs(b) <= ka * Abs(b);
    assert ka * Abs(b) <= ka * kb by {
      assert 0.0 <= ka;
    }
  }

  /**
   * The value a fraction `f` of the way from `a` to `b`: THREE's `lerp`, and
   * the `x += (target - x) * f` smoothing step.
   */
  function Mix(a: real, b: real, f: real): real
  {
    a + (b - a) * f
  }

  /** One smoothing step leaves the fraction 1 - f of the gap to the goal. */
  lemma MixGap(a: real, b: real, f: real)
    ensures b - Mix(a, b, f) == (1.0 - f) * (b - a)
  {
  }

  /** Multiplying by a non-negative factor keeps the order. */
  lemma MulMonotone(a: real, b: real, c: real)
    requires a <= b && 0.0 <= c
    ensures a * c <= b * c
  {
    assert b * c - a * c == (b - a) * c;
  }

  /** Splitting d into the parts f and 1 - f of it keeps the sign of d in both parts. */
  lemma SplitSign(d: real, f: real)
    requires 0.0 <= f <= 1.0
    ensures d * f + d * (1.0 - f) == d
    ensures 0.0 <= d ==> 0.0 <= d * f && 0.0 <= d * (1.0 - f)
    ensures d <= 0.0 ==> d * f <= 0.0 && d * (1.0 - f) <= 0.0
  {
    if 0.0 <= d {
      MulMonotone(0.0, d, f);
      MulMonotone(0.0, d, 1.0 - f);
    } else {
      MulMonotone(d, 0.0, f);
      MulMonotone(d, 0.0, 1.0 - f);
    }
  }

  /** The value r a fraction f in [0, 1] of the way from a to b lies between a and b. */
  lemma LerpBetween(a: real, b: real, f: real, r: real)
    requires 0.0 <= f <= 1.0 && r == Mix(a, b, f)
    ensures a <= b ==> a <= r <= b
    ensures b <= a ==> b <= r <= a
  {
    SplitSign(b - a, f);
  }

  /** A fraction whose numerator is below its positive denominator lies in [0, 1). */
  lemma FractionBelowOne(x: real, n: real)
    requires 0.0 <= x < n
    ensures 0.0 <= x / n < 1.0
  {
    var q := x / n;
    assert q * n == x;
    assert (1.0 - q) * n == n - x;
  }

  /** Dividing by a positive number keeps the order. */
  lemma DivMonotone(x: real, y: real, n: real)
    requires x <= y && 0.0 < n
    ensures x / n <= y / n
  {
    var p, q := x / n, y / n;
    assert p * n == x && q * n == y;
    assert (q - p) * n == y - x;
  }

  /** Scaling a positive number by a fraction in [0, 1) stays below it. */
  lemma ScaleBelow(f: real, c: real)
    requires 0.0 <= f < 1.0 && 0.0 < c
    ensures 0.0 <= f * c < c
  {
    assert c - f * c == (1.0 - f) * c;
  }

  /** Squaring is strictly increasing on the non-negative reals. */
  lemma SquareIncreasing(a: real, b: real)
    requires 0.0 <= a < b
    ensures a * a < b * b
  {
    assert (b - a) * b > 0.0;
    assert (b - a) * a >= 0.0;
    assert (b - a) * b + (b - a) * a == b * b - a * a;
  }

  /** `sqrt` is the non-negative square root: it returns `r` whenever `r*r == x`. */
  lemma SqrtOfSquare(m: MathLib, r: real)
    requires ValidMath(m) && ExactSqrt(m) && 0.0 <= r
    ensures Sqrt(m, r * r) == r
  {
    var s := Sqrt(m, r * r);
    assert 0.0 <= s && s * s == r * r;
    if s > r {
      SquareIncreasing(r, s);
    } else if s < r {
      SquareIncreasing(s, r);
    }
  }
}
