/**
 * The few JavaScript number operations the renderers rely on, over exact reals.
 * Floating-point rounding is not modelled; what is modelled is the IEEE outcome
 * of a division by zero (an infinity or NaN), because the renderers divide by
 * quantities that can be zero.
 */
module JsMath {

  /** The value of a JavaScript number expression. */
  datatype Num = Finite(value: real) | PosInfinity | NegInfinity | NaN

  /** `a / b` on JavaScript numbers. */
  function Divide(a: real, b: real): (q: Num)
    ensures q.Finite? <==> b != 0.0
    ensures q.Finite? ==> q.value * b == a
    ensures q == NaN <==> a == 0.0 && b == 0.0
    ensures q == PosInfinity <==> a > 0.0 && b == 0.0
  {
    if b != 0.0 then Finite(a / b)
    else if a > 0.0 then PosInfinity
    else if a < 0.0 then NegInfinity
    else NaN
  }

  /** `x * k` for a JavaScript number `x` and a finite `k`. */
  function Scale(x: Num, k: real): (r: Num)
    ensures x.Finite? <==> r.Finite?
    ensures x.Finite? ==> r.value == x.value * k
    ensures x == NaN ==> r == NaN
  {
    match x
    case Finite(v) => Finite(v * k)
    case NaN => NaN
    case PosInfinity => if k > 0.0 then PosInfinity else if k < 0.0 then NegInfinity else NaN
    case NegInfinity => if k > 0.0 then NegInfinity else if k < 0.0 then PosInfinity else NaN
  }

  /** `Math.round(x)` for a finite `x`: the nearest integer, halves rounded up. */
  function Round(x: real): (r: int)
    ensures (r as real) - 0.5 <= x < (r as real) + 0.5
  {
    (x + 0.5).Floor
  }

  /** Rounding an integer gives it back, because Round picks the one integer in [x - 1/2, x + 1/2). */
  lemma RoundInteger(k: int)
    ensures Round(k as real) == k
  {
    var r := Round(k as real);
    assert (r as real) - 0.5 <= k as real < (r as real) + 0.5;
  }

  /** A fraction in [0, 1] of a non-negative quantity lies between 0 and that quantity. */
  lemma FractionBounds(p: real, m: real)
    requires 0.0 <= p <= 1.0 && 0.0 <= m
    ensures 0.0 <= p * m <= m
  {
    assert (1.0 - p) * m >= 0.0;
  }

  /** Dividing a quantity in [0, b] by the positive bound b gives a fraction in [0, 1]. */
  lemma QuotientBounds(a: real, b: real)
    ensures 0.0 <= a <= b && 0.0 < b ==> 0.0 <= a / b <= 1.0
  {
    if 0.0 < b {
      assert (a / b) * b == a;
    }
  }

  /** Past the positive bound b the quotient exceeds 1; below 0 it is negative. */
  lemma QuotientOutside(a: real, b: real)
    ensures a > b && 0.0 < b ==> a / b > 1.0
    ensures a < 0.0 && 0.0 < b ==> a / b < 0.0
  {
    if 0.0 < b {
      assert (a / b - 1.0) * b == a - b;
      assert (a / b) * b == a;
    }
  }

  /** Dividing by a non-zero quantity and multiplying back cancels, in either order. */
  lemma Cancel(a: real, b: real)
    requires b != 0.0
    ensures a / b * b == a && a * b / b == a
  {
  }

  /** Multiplying by a non-negative factor keeps an order. */
  lemma ScaleMonotone(a: real, b: real, h: real)
    requires a <= b && 0.0 <= h
    ensures a * h <= b * h
  {
    assert (b - a) * h >= 0.0;
  }

  /** A common non-zero factor of dividend and divisor cancels. */
  lemma CancelFactor(a: real, b: real, h: real)
    requires b != 0.0 && h != 0.0
    ensures (a * h) / (b * h) == a / b
  {
    var q := a / b;
    Cancel(a, b);
    assert a * h == q * (b * h);
    Cancel(q, b * h);
  }

  /** The share k / n of a whole n, for 0 < k <= n, is positive, at most 1, and 1 exactly when k is n. */
  lemma ShareOfWhole(k: int, n: int)
    ensures 0 < k <= n ==> 0.0 < (k as real) / (n as real) <= 1.0
    ensures 0 < k <= n ==> ((k as real) / (n as real) == 1.0 <==> k == n)
  {
    if 0 < k <= n {
      QuotientBounds(k as real, n as real);
      Cancel(k as real, n as real);
    }
  }

  /** `Math.min(Math.max(x, 0), 1)`: NaN stays NaN, everything else is saturated into [0, 1]. */
  function ClampUnit(x: Num): (r: Num)
    ensures r == NaN <==> x == NaN
    ensures r.Finite? ==> 0.0 <= r.value <= 1.0
    ensures x != NaN ==> r.Finite?
    ensures x.Finite? && 0.0 <= x.value <= 1.0 ==> r == x
    ensures x.Finite? && x.value > 1.0 ==> r == Finite(1.0)
    ensures x.Finite? && x.value < 0.0 ==> r == Finite(0.0)
    ensures x == PosInfinity ==> r == Finite(1.0)
    ensures x == NegInfinity ==> r == Finite(0.0)
  {
    match x
    case NaN => NaN
    case PosInfinity => Finite(1.0)
    case NegInfinity => Finite(0.0)
    case Finite(v) => Finite(if v < 0.0 then 0.0 else if v > 1.0 then 1.0 else v)
  }
}
