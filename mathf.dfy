/**
 * The few `Mathf` helpers of the Unity engine that the two scripts call,
 * written with Unity's own semantics on `real` numbers:
 *  - `Clamp` tests the lower bound before the upper one, so when the bounds
 *    cross (`min > max`) a value below `min` gives `min` and any other value `max`;
 *  - `Clamp01` clamps to the unit interval;
 *  - `Lerp(a, b, t)` is `a + (b - a) * Clamp01(t)`, so it never leaves the
 *    segment between `a` and `b`;
 *  - `Min` and `Max` return the smaller and the larger argument.
 */
module Mathf {

  function Clamp(value: real, min: real, max: real): (r: real)
    ensures min <= max ==> min <= r <= max
    ensures min <= value <= max ==> r == value
    ensures value < min ==> r == min
    ensures min <= value && max < value ==> r == max
  {
    if value < min then min
    else if value > max then max
    else value
  }

  function Clamp01(value: real): (r: real)
    ensures 0.0 <= r <= 1.0
    ensures 0.0 <= value <= 1.0 ==> r == value
    ensures value < 0.0 ==> r == 0.0
    ensures 1.0 < value ==> r == 1.0
  {
    if value < 0.0 then 0.0
    else if value > 1.0 then 1.0
    else value
  }

  /** Scaling by a factor in [0, 1] keeps a number between 0 and itself. */
  lemma ScaleByUnit(x: real, c: real)
    requires 0.0 <= c <= 1.0
    ensures 0.0 <= x ==> 0.0 <= x * c <= x
    ensures x <= 0.0 ==> x <= x * c <= 0.0
  {
    if 0.0 <= x {
      assert x * c <= x * 1.0;
    } else {
      assert x * 1.0 <= x * c;
    }
  }

  /** Where a quotient lies, for a positive denominator. */
  lemma QuotientBounds(num: real, den: real)
    requires den != 0.0
    ensures num / den * den == num
    ensures 0.0 < den && 0.0 <= num ==> 0.0 <= num / den
    ensures 0.0 < den && num <= 0.0 ==> num / den <= 0.0
    ensures 0.0 < den && num <= den ==> num / den <= 1.0
    ensures 0.0 < den && den <= num ==> 1.0 <= num / den
  {
    var q := num / den;
    assert q * den == num;
    if 0.0 < den {
      assert 0.0 <= num ==> 0.0 <= q by {
        if q < 0.0 { assert q * den < 0.0; }
      }
      assert num <= 0.0 ==> q <= 0.0 by {
        if 0.0 < q { assert q * den > 0.0; }
      }
      assert num <= den ==> q <= 1.0 by {
        if 1.0 < q { assert q * den > 1.0 * den; }
      }
      assert den <= num ==> 1.0 <= q by {
        if q < 1.0 { assert q * den < 1.0 * den; }
      }
    }
  }

  function Lerp(a: real, b: real, t: real): (r: real)
    ensures a <= b ==> a <= r <= b
    ensures b <= a ==> b <= r <= a
    ensures t <= 0.0 ==> r == a
    ensures 1.0 <= t ==> r == b
  {
    var span, c := b - a, Clamp01(t);
    ScaleByUnit(span, c);
    a + span * c
  }

  function Min(a: real, b: real): (r: real)
    ensures r <= a && r <= b
    ensures r == a || r == b
  {
    if a < b then a else b
  }

  function Max(a: real, b: real): (r: real)
    ensures a <= r && b <= r
    ensures r == a || r == b
  {
    if a > b then a else b
  }

  /** `Clamp01` never reverses the order of its arguments. */
  lemma Clamp01Monotone(t1: real, t2: real)
    requires t1 <= t2
    ensures Clamp01(t1) <= Clamp01(t2)
  {
  }

  /**
   * Interpolating towards a target no larger than the start gives a result
   * that does not grow with the parameter.
   */
  lemma LerpNonIncreasing(a: real, b: real, t1: real, t2: real)
    requires b <= a && t1 <= t2
    ensures Lerp(a, b, t2) <= Lerp(a, b, t1)
  {
    var c1, c2 := Clamp01(t1), Clamp01(t2);
    Clamp01Monotone(t1, t2);
    assert (b - a) * (c2 - c1) <= 0.0 by {
      ScaleByUnit(b - a, c2 - c1);
    }
    assert (b - a) * c2 == (b - a) * c1 + (b - a) * (c2 - c1);
  }

  /**
   * Interpolating towards a strictly smaller target strictly decreases on
   * the unit interval.
   */
  lemma LerpDecreasing(a: real, b: real, t1: real, t2: real)
    requires b < a && 0.0 <= t1 < t2 <= 1.0
    ensures Lerp(a, b, t2) < Lerp(a, b, t1)
  {
    var span, d := b - a, t2 - t1;
    var p1, p2, q := span * t1, span * t2, span * d;
    assert Lerp(a, b, t1) == a + p1 && Lerp(a, b, t2) == a + p2;
    assert q < 0.0;
    assert p2 == p1 + q;
  }
}
