/** The three numeric helpers the sketch relies on: p5's `lerp` and
    `random(lo, hi)`, and the sketch's own `easeOutCubic`. */
module Numeric {

  function Min(a: real, b: real): (m: real)
    ensures m <= a && m <= b && (m == a || m == b)
  {
    if a <= b then a else b
  }

  /** The product `k * w`, named so that facts about it carry over to every
      place the same two factors meet. */
  function Scale(k: real, w: real): real
  {
    k * w
  }

  /** The product of two positive numbers is positive. */
  lemma ScalePos(k: real, w: real)
    requires 0.0 < k && 0.0 < w
    ensures 0.0 < Scale(k, w)
  {
  }

  /** A positive factor keeps the order of a draw between two bounds. */
  lemma ScaleWithin(k: real, lo: real, f: real, hi: real)
    requires 0.0 < k && lo <= f < hi
    ensures Scale(k, lo) <= Scale(k, f) < Scale(k, hi)
  {
    assert k * (f - lo) >= 0.0;
    assert k * (hi - f) > 0.0;
  }

  /** The squared length `x * x + y * y` of a vector. */
  function Norm2(x: real, y: real): real
  {
    x * x + y * y
  }

  /** A unit vector scaled by `r` has squared length `r * r`. */
  lemma Norm2Scaled(dx: real, dy: real, r: real)
    requires Norm2(dx, dy) == 1.0
    ensures Norm2(Scale(dx, r), Scale(dy, r)) == Scale(r, r)
  {
    calc {
      Norm2(Scale(dx, r), Scale(dy, r));
      (dx * r) * (dx * r) + (dy * r) * (dy * r);
      (dx * dx + dy * dy) * (r * r);
      1.0 * (r * r);
    }
  }

  /** For `k` in [0, 1], `k * w` lies between 0 and a non-negative `w`. */
  lemma ScaleBetween(k: real, w: real)
    requires 0.0 <= k <= 1.0 && 0.0 <= w
    ensures 0.0 <= Scale(k, w) <= w
  {
    assert k * w <= 1.0 * w;
  }

  /** For `k` in [0, 1], `k * w` lies between a non-positive `w` and 0. */
  lemma ScaleBetweenNeg(k: real, w: real)
    requires 0.0 <= k <= 1.0 && w <= 0.0
    ensures w <= Scale(k, w) <= 0.0
  {
    assert 1.0 * w <= k * w;
  }

  /** Scaling by 0 gives 0 and scaling by 1 changes nothing. */
  lemma ScaleEnds(w: real)
    ensures Scale(0.0, w) == 0.0 && Scale(1.0, w) == w
  {
  }

  /** Scaling a non-negative width is monotone in the factor. */
  lemma ScaleMonotone(k1: real, k2: real, w: real)
    requires k1 <= k2 && 0.0 <= w
    ensures Scale(k1, w) <= Scale(k2, w)
  {
    assert (k2 - k1) * w >= 0.0;
  }

  /** For a unit draw `u` and a positive width `w`, `u * w` lies in [0, w). */
  lemma UnitScale(u: real, w: real)
    requires IsUnit(u) && 0.0 < w
    ensures 0.0 <= Scale(u, w) < w
  {
    assert u * w < 1.0 * w;
  }

  /** p5 `lerp(start, stop, amt)`. */
  function Lerp(start: real, stop: real, amt: real): real
  {
    Scale(amt, stop - start) + start
  }

  /** For an amount in [0, 1], `lerp` lies between its two ends, and it
      returns them at 0 and 1. */
  lemma LerpBetween(start: real, stop: real, amt: real)
    requires 0.0 <= amt <= 1.0
    ensures amt == 0.0 ==> Lerp(start, stop, amt) == start
    ensures amt == 1.0 ==> Lerp(start, stop, amt) == stop
    ensures start <= stop ==> start <= Lerp(start, stop, amt) <= stop
    ensures stop <= start ==> stop <= Lerp(start, stop, amt) <= start
  {
    ScaleEnds(stop - start);
    if start <= stop {
      ScaleBetween(amt, stop - start);
    } else {
      ScaleBetweenNeg(amt, stop - start);
    }
  }

  /** A draw of p5 `random()`: a number in [0, 1). */
  predicate IsUnit(u: real)
  {
    0.0 <= u < 1.0
  }

  /** p5 `random(lo, hi)` for the unit draw `u`. */
  function Uniform(u: real, lo: real, hi: real): real
  {
    Scale(u, hi - lo) + lo
  }

  /** `random(lo, hi)` lies in [lo, hi). */
  lemma UniformInRange(u: real, lo: real, hi: real)
    requires IsUnit(u) && lo < hi
    ensures lo <= Uniform(u, lo, hi) < hi
  {
    UnitScale(u, hi - lo);
  }

  function Cube(x: real): real
  {
    x * x * x
  }

  /** `easeOutCubic(t) = 1 - (1 - t)^3`. */
  function EaseOutCubic(t: real): real
  {
    1.0 - Cube(1.0 - t)
  }

  /** The easing starts at 0 and ends at 1. */
  lemma EaseOutCubicEnds()
    ensures EaseOutCubic(0.0) == 0.0 && EaseOutCubic(1.0) == 1.0
  {
    assert Cube(1.0) == 1.0;
  }

  /** Cubing is monotone on non-negative reals. */
  lemma CubeMonotone(a: real, b: real)
    requires 0.0 <= a <= b
    ensures 0.0 <= Cube(a) <= Cube(b)
  {
    assert a * a <= a * b <= b * b;
    assert a * a * a <= b * b * a;
    assert b * b * a <= b * b * b;
  }

  /** The easing maps [0, 1] into [0, 1]. */
  lemma EaseOutCubicBounded(t: real)
    requires 0.0 <= t <= 1.0
    ensures 0.0 <= EaseOutCubic(t) <= 1.0
  {
    CubeMonotone(0.0, 1.0 - t);
    CubeMonotone(1.0 - t, 1.0);
  }

  /** Easing from `r0` to `r1 >= r0` stays between the two. */
  lemma EasedBetween(r0: real, r1: real, t: real)
    requires r0 <= r1 && 0.0 <= t <= 1.0
    ensures r0 <= Lerp(r0, r1, EaseOutCubic(t)) <= r1
  {
    EaseOutCubicBounded(t);
    LerpBetween(r0, r1, EaseOutCubic(t));
  }

  /** At `t = 1` the easing has reached its target. */
  lemma EasedArrives(r0: real, r1: real)
    ensures Lerp(r0, r1, EaseOutCubic(1.0)) == r1
  {
    EaseOutCubicEnds();
    LerpBetween(r0, r1, EaseOutCubic(1.0));
  }

  /** The easing is non-decreasing on [0, 1]. */
  lemma EaseOutCubicMonotone(s: real, t: real)
    requires 0.0 <= s <= t <= 1.0
    ensures EaseOutCubic(s) <= EaseOutCubic(t)
  {
    CubeMonotone(1.0 - t, 1.0 - s);
  }
}
