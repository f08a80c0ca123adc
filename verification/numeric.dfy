/**
  Exact-arithmetic versions of the handful of Python numeric primitives the
  generators and scoring rules rely on: `random.uniform`, `round(x, n)`,
  `int(x)`, floor division and modulo, `abs`, `min`, `max`.

  Amounts are Dafny `real`s (exact rationals); IEEE-754 effects are not
  modelled.
 */
module Numeric {

  function Abs(x: real): (r: real)
    ensures r >= 0.0
    ensures r == x || r == -x
  {
    if x < 0.0 then -x else x
  }

  function Min(x: real, y: real): (r: real)
    ensures r <= x && r <= y
    ensures r == x || r == y
  {
    if x <= y then x else y
  }

  function Max(x: real, y: real): (r: real)
    ensures r >= x && r >= y
    ensures r == x || r == y
  {
    if x >= y then x else y
  }

  function MaxInt(x: int, y: int): (r: int)
    ensures r >= x && r >= y
    ensures r == x || r == y
  {
    if x >= y then x else y
  }

  /** A unit draw, as returned by Python's `random.random()` (upper end included for generality). */
  predicate IsUnit(u: real)
  {
    0.0 <= u <= 1.0
  }

  /** A unit draw in the half-open interval [0, 1), as `random.random()` actually returns. */
  predicate IsHalfOpenUnit(u: real)
  {
    0.0 <= u < 1.0
  }

  /**
    `random.uniform(lo, hi)`, which CPython computes as `lo + (hi - lo) * random()`;
    the unit draw is the parameter `u`.
   */
  function Uniform(lo: real, hi: real, u: real): (r: real)
    requires IsUnit(u)
    ensures lo <= hi ==> lo <= r <= hi
    ensures hi < lo ==> hi <= r <= lo
  {
    var d := hi - lo;
    UnitScaleBounds(d, u);
    lo + d * u
  }

  lemma UnitScaleBounds(d: real, u: real)
    requires IsUnit(u)
    ensures d >= 0.0 ==> 0.0 <= d * u <= d
    ensures d < 0.0 ==> d <= d * u <= 0.0
  {
    if d >= 0.0 {
      assert d * u <= d * 1.0;
    } else {
      assert d * u >= d * 1.0;
    }
  }

  /**
    `round(x, 2)` as exact half-up rounding: the result is a whole number of
    cents within half a cent of `x`. Amounts and balances are kept in cents.
   */
  function RoundCents(x: real): (r: real)
    ensures IsCents(r)
    ensures x - 0.005 < r <= x + 0.005
  {
    var k := (x * 100.0 + 0.5).Floor;
    assert (k as real) / 100.0 * 100.0 == k as real;
    (k as real) / 100.0
  }

  /** `r` is a whole number of cents. */
  predicate IsCents(r: real)
  {
    (r * 100.0).Floor as real == r * 100.0
  }

  /** `round(x, 4)`: fraud scores are kept to four decimals, within half a unit of `x`. */
  function RoundScore(x: real): (r: real)
    ensures IsFourDecimals(r)
    ensures x - 0.00005 < r <= x + 0.00005
  {
    var k := (x * 10000.0 + 0.5).Floor;
    assert (k as real) / 10000.0 * 10000.0 == k as real;
    (k as real) / 10000.0
  }

  /** `r` is a whole number of ten-thousandths. */
  predicate IsFourDecimals(r: real)
  {
    (r * 10000.0).Floor as real == r * 10000.0
  }

  /** Rounding leaves a whole number of cents unchanged. */
  lemma RoundCentsExact(x: real)
    requires IsCents(x)
    ensures RoundCents(x) == x
  {
    assert (x * 100.0 + 0.5).Floor == (x * 100.0).Floor;
  }

  /** Adding a whole number of cents keeps rounding in step: `round(x + c, 2) == round(x, 2) + c`. */
  lemma RoundCentsShift(x: real, c: real)
    requires IsCents(c)
    ensures RoundCents(x + c) == RoundCents(x) + c
  {
    var k := (c * 100.0).Floor;
    var y := x * 100.0 + 0.5;
    assert (x + c) * 100.0 + 0.5 == y + k as real;
    assert (y + k as real).Floor == y.Floor + k;
  }

  /** Rounding to cents is monotone. */
  lemma RoundCentsMonotone(x: real, y: real)
    requires x <= y
    ensures RoundCents(x) <= RoundCents(y)
  {
    assert (x * 100.0 + 0.5).Floor <= (y * 100.0 + 0.5).Floor;
  }

  /** Whole cents stay whole cents under negation and under scaling by a whole number. */
  lemma CentsClosure(c: real, k: int)
    requires IsCents(c)
    ensures IsCents(-c)
    ensures IsCents(c * (k as real))
  {
    var m := (c * 100.0).Floor;
    assert c * 100.0 == m as real;
    assert -c * 100.0 == (-m) as real;
    var scaled := c * (k as real) * 100.0;
    assert scaled == (c * 100.0) * (k as real);
    assert (m as real) * (k as real) == (m * k) as real;
    assert scaled == (m * k) as real;
  }

  /** Subtracting a whole number of cents keeps rounding in step. */
  lemma RoundCentsShiftDown(x: real, c: real)
    requires IsCents(c)
    ensures RoundCents(x - c) == RoundCents(x) - c
  {
    CentsClosure(c, 0);
    RoundCentsShift(x, -c);
  }

  lemma RoundScoreExact(x: real)
    requires IsFourDecimals(x)
    ensures RoundScore(x) == x
  {
    assert (x * 10000.0 + 0.5).Floor == (x * 10000.0).Floor;
  }

  lemma RoundScoreMonotone(x: real, y: real)
    requires x <= y
    ensures RoundScore(x) <= RoundScore(y)
  {
    assert (x * 10000.0 + 0.5).Floor <= (y * 10000.0 + 0.5).Floor;
  }

  /** A draw from `[lo, hi]` rounded to four decimals stays in `[lo, hi]` when both ends are four-decimal values. */
  lemma RoundScoreWithin(x: real, lo: real, hi: real)
    requires IsFourDecimals(lo) && IsFourDecimals(hi)
    requires lo <= x <= hi
    ensures lo <= RoundScore(x) <= hi
  {
    RoundScoreMonotone(lo, x);
    RoundScoreMonotone(x, hi);
    RoundScoreExact(lo);
    RoundScoreExact(hi);
  }

  /** Likewise for cents. */
  lemma RoundCentsWithin(x: real, lo: real, hi: real)
    requires IsCents(lo) && IsCents(hi)
    requires lo <= x <= hi
    ensures lo <= RoundCents(x) <= hi
  {
    RoundCentsMonotone(lo, x);
    RoundCentsMonotone(x, hi);
    RoundCentsExact(lo);
    RoundCentsExact(hi);
  }

  /** Python `int(x)` on a float: truncation toward zero. */
  function Trunc(x: real): (r: int)
    ensures 0.0 <= x ==> 0 <= r && r as real <= x < r as real + 1.0
    ensures x < 0.0 ==> r <= 0 && r as real - 1.0 < x <= r as real
  {
    if x >= 0.0 then x.Floor else -((-x).Floor)
  }

  /** Python `a // b` on integers: the quotient rounded toward negative infinity. */
  function FloorDiv(a: int, b: int): (q: int)
    requires b != 0
    ensures b > 0 ==> q * b <= a < q * b + b
    ensures b < 0 ==> q * b + b < a <= q * b
  {
    if b > 0 then a / b else DivNegative(a, b); (-a) / (-b)
  }

  lemma DivNegative(a: int, b: int)
    requires b < 0
    ensures ((-a) / (-b)) * b + b < a <= ((-a) / (-b)) * b
  {
    var q := (-a) / (-b);
    var m := (-a) % (-b);
    assert -a == q * (-b) + m && 0 <= m < -b;
    assert q * (-b) == -(q * b);
  }

  /** Python `a % b` on integers: the remainder takes the sign of the divisor. */
  function FloorMod(a: int, b: int): (m: int)
    requires b != 0
    ensures a == FloorDiv(a, b) * b + m
    ensures b > 0 ==> 0 <= m < b
    ensures b < 0 ==> b < m <= 0
  {
    a - FloorDiv(a, b) * b
  }
}
