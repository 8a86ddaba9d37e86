/** Rust's scalar operations used by the effects, on unbounded numbers. */
module Numeric {

  /** `f32::clamp` (which panics when `lo > hi`). */
  function Clamp(x: real, lo: real, hi: real): (r: real)
    requires lo <= hi
    ensures lo <= r <= hi
    ensures lo <= x <= hi ==> r == x
    ensures x < lo ==> r == lo
    ensures x > hi ==> r == hi
  {
    if x < lo then lo else if x > hi then hi else x
  }

  /** `Ord::clamp` on `i32` (which panics when `lo > hi`). */
  function ClampInt(x: int, lo: int, hi: int): (r: int)
    requires lo <= hi
    ensures lo <= r <= hi
    ensures lo <= x <= hi ==> r == x
    ensures x < lo ==> r == lo
    ensures x > hi ==> r == hi
  {
    if x < lo then lo else if x > hi then hi else x
  }

  /** `f32::trunc`: the integer part, rounding toward zero. */
  function Trunc(x: real): (n: int)
    ensures x >= 0.0 ==> 0 <= n && n as real <= x < n as real + 1.0
    ensures x < 0.0 ==> n <= 0 && n as real - 1.0 < x <= n as real
  {
    if x >= 0.0 then x.Floor else -((-x).Floor)
  }

  /** `f32::round`: nearest integer, halfway cases away from zero. */
  function Round(x: real): (n: int)
    ensures x - 0.5 <= n as real <= x + 0.5
    ensures x >= 0.0 ==> n >= 0
    ensures x < 0.0 ==> n <= 0
  {
    if x >= 0.0 then (x + 0.5).Floor else -((-x + 0.5).Floor)
  }

  /** A float-to-`usize` cast (`as usize`): truncation, saturating at 0. */
  function ToUsize(x: real): (n: nat)
    ensures x < 1.0 ==> n == 0
    ensures x >= 0.0 ==> n as real <= x < n as real + 1.0
  {
    if x < 0.0 then 0 else x.Floor
  }

  /** `(x).round() as usize`: the nearest integer, saturating at 0. */
  function RoundToUsize(x: real): (n: nat)
    ensures x >= 0.0 ==> x - 0.5 <= n as real <= x + 0.5
    ensures x <= 0.0 ==> n == 0
  {
    var r := Round(x);
    if r < 0 then 0 else r
  }

  /** `f32::fract`: what `trunc` drops; it keeps the sign of `x`. */
  function Fract(x: real): (f: real)
    ensures x >= 0.0 ==> 0.0 <= f < 1.0
    ensures x < 0.0 ==> -1.0 < f <= 0.0
    ensures x - f == Trunc(x) as real
  {
    x - Trunc(x) as real
  }

  /** The `%` operator on `f32` (C's `fmod`): the remainder keeps the sign of the
      dividend, unlike Dafny's Euclidean `%`. */
  function FMod(a: real, b: real): (r: real)
    requires b > 0.0
    ensures a >= 0.0 ==> 0.0 <= r < b
    ensures a < 0.0 ==> -b < r <= 0.0
    ensures (a - r) / b == Trunc(a / b) as real
  {
    var q := Trunc(a / b);
    TruncQuotient(a, b, q);
    a - q as real * b
  }

  lemma TruncQuotient(a: real, b: real, q: int)
    requires b > 0.0 && q == Trunc(a / b)
    ensures a >= 0.0 ==> 0.0 <= a - q as real * b < b
    ensures a < 0.0 ==> -b < a - q as real * b <= 0.0
  {
    var t := q as real;
    if a >= 0.0 {
      AtLeastTimes(a, b, t);
      BelowTimes(a, b, t + 1.0);
      BelowNextMultiple(a, b, t);
    } else {
      AboveTimes(a, b, t - 1.0);
      AtMostTimes(a, b, t);
      AbovePreviousMultiple(a, b, t);
    }
  }

  // Small steps of real arithmetic with a product, proved one at a time
  // (the solver does not combine them unaided).

  lemma AtLeastTimes(a: real, b: real, t: real)
    requires b > 0.0 && t <= a / b
    ensures t * b <= a
  {
  }

  lemma AboveTimes(a: real, b: real, t: real)
    requires b > 0.0 && t < a / b
    ensures t * b < a
  {
  }

  lemma BelowTimes(a: real, b: real, t: real)
    requires b > 0.0 && a / b < t
    ensures a < t * b
  {
  }

  lemma AtMostTimes(a: real, b: real, t: real)
    requires b > 0.0 && a / b <= t
    ensures a <= t * b
  {
  }

  lemma BelowNextMultiple(a: real, b: real, t: real)
    requires a < (t + 1.0) * b
    ensures a - t * b < b
  {
    assert (t + 1.0) * b == t * b + b;
  }

  lemma AbovePreviousMultiple(a: real, b: real, t: real)
    requires (t - 1.0) * b < a
    ensures -b < a - t * b
  {
    assert (t - 1.0) * b == t * b - b;
  }

  /** On whole numbers, `FMod` agrees with integer remainder. */
  lemma FModOfNat(k: nat, n: nat)
    requires n > 0
    ensures FMod(k as real, n as real) == (k % n) as real
  {
    var q, r := k / n, k % n;
    assert k == q * n + r;
    var quotient := k as real / n as real;
    assert quotient == q as real + r as real / n as real;
    assert 0.0 <= r as real / n as real < 1.0;
    assert quotient.Floor == q;
    assert Trunc(quotient) == q;
  }

  /** A dividend in `[0, 2b)` is reduced by `b` at most once. */
  lemma FModOneWrap(a: real, b: real)
    requires b > 0.0 && 0.0 <= a < 2.0 * b
    ensures FMod(a, b) == if a < b then a else a - b
  {
    var q := a / b;
    QuotientBelow(a, b, 2.0);
    if a < b {
      QuotientBelow(a, b, 1.0);
      assert Trunc(q) == 0;
    } else {
      QuotientAtLeast(a, b, 1.0);
      assert Trunc(q) == 1;
    }
  }

  lemma QuotientBelow(a: real, b: real, t: real)
    requires b > 0.0 && a < t * b
    ensures a / b < t
  {
  }

  lemma QuotientAtLeast(a: real, b: real, t: real)
    requires b > 0.0 && t * b <= a
    ensures t <= a / b
  {
  }

  /** A fraction `w` of a span lies within the span. */
  lemma FractionOfSpan(w: real, span: real)
    requires 0.0 <= w <= 1.0
    ensures span >= 0.0 ==> 0.0 <= w * span <= span
    ensures span <= 0.0 ==> span <= w * span <= 0.0
  {
  }

  /** A point of a non-empty span lies on its ends only at the weights 0 and 1. */
  lemma SpanEnds(w: real, span: real)
    ensures span != 0.0 ==> (w * span == 0.0 <==> w == 0.0)
    ensures span != 0.0 ==> (w * span == span <==> w == 1.0)
  {
    assert (w - 1.0) * span == w * span - span;
  }

  /** Integer division and remainder are determined by `x == q·n + r` with
      `0 <= r < n`. */
  lemma DivModUnique(x: int, n: int, q: int, r: int)
    requires n > 0 && 0 <= r < n && x == q * n + r
    ensures x / n == q && x % n == r
  {
    var q', r' := x / n, x % n;
    assert (q - q') * n == r' - r;
    SmallMultiple(q - q', n);
  }

  lemma SmallMultiple(d: int, n: int)
    requires n > 0 && -n < d * n < n
    ensures d == 0
  {
  }
}
