/**
 * Python's built-in `round(x, 3)` as the design_dome module uses it to store the
 * dome's area and weight: the value is rounded to the nearest multiple of 1/1000,
 * and a value exactly half-way between two such multiples goes to the one whose
 * last digit is even.  The model rounds the exact real value; see README.md for
 * how this relates to rounding a binary float.
 */
module Rounding {

  /** Distance between two reals. */
  function Dist(a: real, b: real): (d: real)
    ensures d >= 0.0
    ensures d == a - b || d == b - a
  {
    if a >= b then a - b else b - a
  }

  /** Whether `x` has at most three decimal places. */
  predicate HasThreeDecimals(x: real) {
    (x * 1000.0).Floor as real == x * 1000.0
  }

  /**
   * The integer nearest to `m`; when `m` lies half-way between two integers,
   * the even one.
   */
  function NearestEven(m: real): (n: int)
    ensures Dist(n as real, m) <= 0.5
    ensures Dist(n as real, m) == 0.5 ==> n % 2 == 0
    ensures m >= 0.0 ==> n >= 0
  {
    var f := m.Floor;
    var frac := m - f as real;
    if frac < 0.5 then f
    else if frac > 0.5 then f + 1
    else if f % 2 == 0 then f
    else f + 1
  }

  /** `round(x, 3)`: the nearest three-decimal value, ties to even. */
  function Round3(x: real): (r: real)
    ensures HasThreeDecimals(r)
    ensures Dist(r, x) <= 0.0005
    ensures Dist(r, x) == 0.0005 ==> (r * 1000.0).Floor % 2 == 0
  {
    var n := NearestEven(x * 1000.0);
    ScaleDown(n, x);
    assert (n as real / 1000.0) * 1000.0 == n as real;
    assert (n as real).Floor == n;
    n as real / 1000.0
  }

  /** Dividing by 1000 divides distances by 1000, and n / 1000 has three decimals. */
  lemma ScaleDown(n: int, x: real)
    ensures HasThreeDecimals(n as real / 1000.0)
    ensures Dist(n as real / 1000.0, x) * 1000.0 == Dist(n as real, x * 1000.0)
  {
    assert (n as real / 1000.0) * 1000.0 == n as real;
  }

  /** No integer is nearer to `m` than `NearestEven(m)`. */
  lemma NearestEvenIsNearest(m: real, k: int)
    ensures Dist(NearestEven(m) as real, m) <= Dist(k as real, m)
  {
    var f := m.Floor;
    var frac := m - f as real;
    if k <= f {
      assert m - k as real >= frac;
      if frac >= 0.5 {
        assert Dist(NearestEven(m) as real, m) <= 0.5;
      }
    } else {
      assert k as real - m >= 1.0 - frac;
    }
  }

  /** An integer is its own nearest integer. */
  lemma NearestEvenOfInteger(k: int)
    ensures NearestEven(k as real) == k
  {
    assert (k as real).Floor == k;
  }

  /** Rounding to the nearest integer never reverses the order of its arguments. */
  lemma NearestEvenMonotone(m1: real, m2: real)
    requires m1 <= m2
    ensures NearestEven(m1) <= NearestEven(m2)
  {
    var f1, f2 := m1.Floor, m2.Floor;
    assert f1 <= f2;
    if f1 == f2 {
      assert m1 - f1 as real <= m2 - f2 as real;
    } else {
      assert NearestEven(m1) <= f1 + 1 <= f2 <= NearestEven(m2);
    }
  }

  /**
   * `Round3` is a nearest three-decimal value: no multiple of 1/1000 is closer
   * to `x` than `Round3(x)` is.
   */
  lemma Round3IsNearest(x: real, k: int)
    ensures Dist(Round3(x), x) <= Dist(k as real / 1000.0, x)
  {
    var n := NearestEven(x * 1000.0);
    NearestEvenIsNearest(x * 1000.0, k);
    ScaleDown(n, x);
    ScaleDown(k, x);
  }

  /** A value that already has three decimals is left as it is. */
  lemma Round3OfThreeDecimals(x: real)
    requires HasThreeDecimals(x)
    ensures Round3(x) == x
  {
    var k := (x * 1000.0).Floor;
    NearestEvenOfInteger(k);
    assert NearestEven(x * 1000.0) == k;
  }

  /** Rounding twice is rounding once. */
  lemma Round3Idempotent(x: real)
    ensures Round3(Round3(x)) == Round3(x)
  {
    Round3OfThreeDecimals(Round3(x));
  }

  /** Rounding preserves order (not necessarily strict order). */
  lemma Round3Monotone(x: real, y: real)
    requires x <= y
    ensures Round3(x) <= Round3(y)
  {
    NearestEvenMonotone(x * 1000.0, y * 1000.0);
  }

  /** A non-negative value rounds to a non-negative value. */
  lemma Round3NonNegative(x: real)
    requires x >= 0.0
    ensures Round3(x) >= 0.0
  {
    assert NearestEven(x * 1000.0) >= 0;
  }
}
