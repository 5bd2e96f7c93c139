/**
 * The few pieces of JavaScript number semantics the animated backgrounds rely on:
 * `Math.sin` (known only through its range), truncation toward zero, and the
 * `%` operator, whose result takes the sign of the dividend. Numbers are
 * modelled as mathematical reals.
 */
module JsMath {

  /**
   * What the model assumes of the host's `Math.sin`, which is passed in as a
   * function value: it is total and its values lie in [-1, 1].
   */
  ghost predicate IsSine(f: real -> real)
  {
    forall x :: -1.0 <= f(x) <= 1.0
  }

  /** Rounding toward zero, as JavaScript's `%` uses it for the quotient. */
  function Trunc(x: real): (t: int)
    ensures x >= 0.0 ==> 0 <= t && t as real <= x < t as real + 1.0
    ensures x < 0.0 ==> t <= 0 && t as real - 1.0 < x <= t as real
  {
    if x >= 0.0 then x.Floor else -((-x).Floor)
  }

  /**
   * JavaScript's `a % d` on numbers, for a positive divisor: the remainder of
   * the quotient truncated toward zero. It lies strictly between -d and d and
   * always has the sign of the dividend (zero included).
   */
  function JsRem(a: real, d: real): (r: real)
    requires d > 0.0
    ensures -d < r < d
    ensures a >= 0.0 ==> r >= 0.0
    ensures a <= 0.0 ==> r <= 0.0
  {
    var q := a / d;
    var t := Trunc(q) as real;
    if q >= 0.0 then
      RemainderAboveFloor(a, d, t);
      a - d * t
    else
      RemainderBelowCeiling(a, d, t);
      a - d * t
  }

  /** The floored (Euclidean) remainder for a positive divisor, which lies in [0, d). */
  function FloorMod(a: real, d: real): (r: real)
    requires d > 0.0
    ensures 0.0 <= r < d
  {
    var f := (a / d).Floor as real;
    RemainderAboveFloor(a, d, f);
    a - d * f
  }

  /** Bracketing the quotient `a/d` from below by `t` puts the remainder `a - d*t` in [0, d). */
  lemma RemainderAboveFloor(a: real, d: real, t: real)
    requires d > 0.0 && t <= a / d < t + 1.0
    ensures 0.0 <= a - d * t < d
  {
    var f := a / d - t;
    assert a - d * t == d * f by {
      assert d * (a / d) == a;
    }
    FractionScaled(d, f);
  }

  /** Bracketing the quotient `a/d` from above by `t` puts the remainder `a - d*t` in (-d, 0]. */
  lemma RemainderBelowCeiling(a: real, d: real, t: real)
    requires d > 0.0 && t - 1.0 < a / d <= t
    ensures -d < a - d * t <= 0.0
  {
    var f := a / d - t;
    assert a - d * t == d * f by {
      assert d * (a / d) == a;
    }
    NegativeFractionScaled(d, f);
  }

  lemma FractionScaled(d: real, f: real)
    requires d > 0.0 && 0.0 <= f < 1.0
    ensures 0.0 <= d * f < d
  {
    assert d * (1.0 - f) > 0.0;
  }

  lemma NegativeFractionScaled(d: real, f: real)
    requires d > 0.0 && -1.0 < f <= 0.0
    ensures -d < d * f <= 0.0
  {
    assert d * (1.0 + f) > 0.0;
  }

  /**
   * For a positive divisor the JavaScript remainder and the floored remainder
   * agree, except that a negative JavaScript remainder sits exactly one
   * divisor below the floored one.
   */
  lemma JsRemVersusFloorMod(a: real, d: real)
    requires d > 0.0
    ensures JsRem(a, d) >= 0.0 ==> JsRem(a, d) == FloorMod(a, d)
    ensures JsRem(a, d) < 0.0 ==> JsRem(a, d) + d == FloorMod(a, d)
  {
    var q := a / d;
    if q >= 0.0 || q.Floor as real == q {
      assert Trunc(q) == q.Floor;
    } else {
      assert Trunc(q) == q.Floor + 1;
      assert JsRem(a, d) == a - d * (q.Floor as real) - d;
    }
  }

  /** Shifting the dividend by a whole divisor does not change the floored remainder. */
  lemma FloorModPeriodic(a: real, d: real)
    requires d > 0.0
    ensures FloorMod(a + d, d) == FloorMod(a, d)
  {
    var q := a / d;
    assert (a + d) / d == a / d + d / d;
    assert (a + d) / d == q + 1.0;
    assert (q + 1.0).Floor == q.Floor + 1;
    assert d * ((q + 1.0).Floor as real) == d * (q.Floor as real) + d;
  }
}
