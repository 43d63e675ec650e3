/** Rounding as the library's callers see it from .NET's `Math.Round`, in exact
    rational arithmetic.

    `Math.Round(x)` and `Math.Round(x, digits)` both use the default midpoint rule
    `MidpointRounding.ToEven`: a value exactly half-way between two candidates goes
    to the even one.  `Math.Round(x, digits)` scales by 10^digits, rounds to an
    integer and scales back, which is `RoundToMultiple(x, Pow10(digits))` below. */
module Rounding {

  function Abs(x: real): (a: real)
    ensures a >= 0.0
    ensures a == x || a == -x
  {
    if x < 0.0 then -x else x
  }

  /** A product with the sign rules stated once, so that a square such as
      `semiDiameter * semiDiameter` is seen to be non-negative. */
  function Product(a: real, b: real): (r: real)
    ensures a > 0.0 && b > 0.0 ==> r > 0.0
    ensures a < 0.0 && b < 0.0 ==> r > 0.0
    ensures a > 0.0 && b < 0.0 ==> r < 0.0
    ensures a == 0.0 || b == 0.0 ==> r == 0.0
  {
    a * b
  }

  /** True when `x` is a whole multiple of `1/per`. */
  predicate OnGrid(x: real, per: real)
  {
    (x * per).Floor as real == x * per
  }

  function Pow10(n: nat): (p: real)
    ensures p >= 1.0
  {
    if n == 0 then 1.0 else 10.0 * Pow10(n - 1)
  }

  /** The scales used by the library: one, two and three decimal places. */
  lemma Pow10Values()
    ensures Pow10(1) == 10.0 && Pow10(2) == 100.0 && Pow10(3) == 1000.0
  {
  }

  /** `Math.Round(x)`: the nearest integer, and of two equally near integers the even one. */
  function RoundToInt(x: real): (n: int)
    ensures Abs(n as real - x) <= 0.5
    ensures Abs(n as real - x) == 0.5 ==> n % 2 == 0
  {
    var f := x.Floor;
    var frac := x - f as real;
    if frac < 0.5 then f
    else if frac > 0.5 then f + 1
    else if f % 2 == 0 then f
    else f + 1
  }

  /** The two clauses of `RoundToInt`'s contract pin its result down: no other integer meets them. */
  lemma RoundToIntUnique(x: real, n: int)
    requires Abs(n as real - x) < 0.5 || (Abs(n as real - x) == 0.5 && n % 2 == 0)
    ensures RoundToInt(x) == n
  {
    NearestEvenUnique(x, RoundToInt(x), n);
  }

  /** Two integers that are each within one half of `x`, and even when exactly one
      half away, are the same integer. */
  lemma NearestEvenUnique(x: real, m: int, n: int)
    requires Abs(m as real - x) <= 0.5 && (Abs(m as real - x) == 0.5 ==> m % 2 == 0)
    requires Abs(n as real - x) < 0.5 || (Abs(n as real - x) == 0.5 && n % 2 == 0)
    ensures m == n
  {
    var dm, dn := m as real - x, n as real - x;
    assert -0.5 <= dm <= 0.5 && -0.5 <= dn <= 0.5;
    assert (m - n) as real == dm - dn;
    // both lie within one half of x, so they are at most one apart
    assert -1 <= m - n <= 1;
    if -0.5 < dn < 0.5 {
      assert -1.0 < (m - n) as real < 1.0;
    } else {
      // n is the even neighbour of a tie, so m is n or the odd neighbour, which
      // would be a tie as well and hence even
      assert m == n || Abs(dm) == 0.5;
      assert (m - n) % 2 == 0;
    }
  }

  lemma {:induction false} RoundToIntMonotone(x: real, y: real)
    requires x <= y
    ensures RoundToInt(x) <= RoundToInt(y)
  {
    var a, b := RoundToInt(x), RoundToInt(y);
    if x < y {
      // a <= x + 1/2 < y + 1/2 <= b + 1
      assert (a - b) as real < 1.0;
    }
  }

  /** Half-even rounding is symmetric about zero (unlike half-up rounding). */
  lemma RoundToIntNegate(x: real)
    ensures RoundToInt(-x) == -RoundToInt(x)
  {
    var n := RoundToInt(x);
    assert Abs(-n as real - -x) == Abs(n as real - x);
    assert n % 2 == 0 ==> (-n) % 2 == 0;
    RoundToIntUnique(-x, -n);
  }

  /** Moving the argument by an even integer moves the result by the same amount;
      an odd shift would flip which neighbour of a tie is even. */
  lemma RoundToIntShiftEven(x: real, k: int)
    requires k % 2 == 0
    ensures RoundToInt(x + k as real) == RoundToInt(x) + k
  {
    var n := RoundToInt(x);
    assert Abs((n + k) as real - (x + k as real)) == Abs(n as real - x);
    assert n % 2 == 0 ==> (n + k) % 2 == 0;
    RoundToIntUnique(x + k as real, n + k);
  }

  /** The multiple of `1/per` nearest to `x`, ties to the even multiple. */
  function RoundToMultiple(x: real, per: real): (r: real)
    requires per > 0.0
    ensures OnGrid(r, per)
    ensures Abs(r - x) * per <= 0.5
    ensures Abs(r - x) * per == 0.5 ==> OnGrid(r / 2.0, per)
  {
    ScaleBack(RoundToInt(x * per), x, per);
    RoundToInt(x * per) as real / per
  }

  /** Rounds to `places` decimal places: `Math.Round(x, places)`. */
  function RoundHalfEven(x: real, places: nat): (r: real)
    ensures OnGrid(r, Pow10(places))
    ensures Abs(r - x) * Pow10(places) <= 0.5
    ensures Abs(r - x) * Pow10(places) == 0.5 ==> OnGrid(r / 2.0, Pow10(places))
  {
    RoundToMultiple(x, Pow10(places))
  }

  /** The grid point `n/per` has even index exactly when it is a multiple of `2/per`. */
  lemma GridIndexParity(n: int, per: real)
    requires per > 0.0
    ensures OnGrid(n as real / per, per)
    ensures OnGrid(n as real / per / 2.0, per) <==> n % 2 == 0
  {
    var r := n as real / per;
    assert r * per == n as real;
    assert (r / 2.0) * per == n as real / 2.0;
    if n % 2 == 0 {
      assert n as real / 2.0 == (n / 2) as real;
    } else {
      assert (n as real / 2.0).Floor == n / 2;
    }
  }

  /** Every grid point is `n/per` for the integer `n` it scales to. */
  lemma GridIndex(r: real, per: real) returns (n: int)
    requires per > 0.0
    requires OnGrid(r, per)
    ensures r == n as real / per
  {
    n := (r * per).Floor;
  }

  /** Scaling by `per` turns the distance from `n/per` to `x` into the distance from `n` to `x * per`. */
  lemma DistanceScales(n: int, x: real, per: real)
    requires per > 0.0
    ensures Abs(n as real / per - x) * per == Abs(n as real - x * per)
  {
    var r := n as real / per;
    assert r * per == n as real;
    assert (r - x) * per == n as real - x * per;
    if r - x < 0.0 {
      assert Abs(r - x) * per == -((r - x) * per);
    }
  }

  /** Arithmetic behind `RoundToMultiple`: the integer nearest to `x * per`, divided by
      `per`, is a grid point nearest to `x` (and on a tie, the even one). */
  lemma ScaleBack(n: int, x: real, per: real)
    requires per > 0.0
    requires Abs(n as real - x * per) <= 0.5
    requires Abs(n as real - x * per) == 0.5 ==> n % 2 == 0
    ensures OnGrid(n as real / per, per)
    ensures Abs(n as real / per - x) * per <= 0.5
    ensures Abs(n as real / per - x) * per == 0.5 ==>
              OnGrid(n as real / per / 2.0, per)
  {
    GridIndexParity(n, per);
    DistanceScales(n, x, per);
  }

  /** Any grid point meeting `RoundToMultiple`'s contract is its result. */
  lemma RoundToMultipleUnique(x: real, per: real, r: real)
    requires per > 0.0
    requires OnGrid(r, per)
    requires Abs(r - x) * per < 0.5
          || (Abs(r - x) * per == 0.5 && OnGrid(r / 2.0, per))
    ensures RoundToMultiple(x, per) == r
  {
    var n := GridIndex(r, per);
    GridIndexParity(n, per);
    DistanceScales(n, x, per);
    var y := x * per;
    assert Abs(n as real - y) == Abs(r - x) * per;
    assert OnGrid(r / 2.0, per) <==> n % 2 == 0;
    RoundToIntUnique(y, n);
    assert RoundToMultiple(x, per) == RoundToInt(y) as real / per;
  }

  /** A value already on the grid is left unchanged. */
  lemma RoundToMultipleOnGrid(x: real, per: real)
    requires per > 0.0
    requires OnGrid(x, per)
    ensures RoundToMultiple(x, per) == x
  {
    RoundToMultipleUnique(x, per, x);
  }

  lemma ScaleMonotone(a: real, b: real, p: real)
    requires p > 0.0
    requires a <= b
    ensures a * p <= b * p
    ensures a / p <= b / p
  {
  }

  lemma RoundToIntScaledMonotone(x: real, y: real, per: real)
    requires per > 0.0
    requires x <= y
    ensures RoundToInt(x * per) <= RoundToInt(y * per)
  {
    ScaleMonotone(x, y, per);
    RoundToIntMonotone(x * per, y * per);
  }

  /** Rounding never reverses the order of two values. */
  lemma {:induction false} RoundToMultipleMonotone(x: real, y: real, per: real)
    requires per > 0.0
    requires x <= y
    ensures RoundToMultiple(x, per) <= RoundToMultiple(y, per)
  {
    RoundToIntScaledMonotone(x, y, per);
    ScaleMonotone(RoundToInt(x * per) as real, RoundToInt(y * per) as real, per);
  }

  /** Half-even rounding to a grid is symmetric about zero. */
  lemma RoundToMultipleNegate(x: real, per: real)
    requires per > 0.0
    ensures RoundToMultiple(-x, per) == -RoundToMultiple(x, per)
  {
    NegateScaled(x, per, RoundToInt(x * per));
    RoundToIntNegate(x * per);
  }

  lemma NegateScaled(x: real, per: real, n: int)
    requires per > 0.0
    ensures -x * per == -(x * per)
    ensures (-n) as real / per == -(n as real / per)
  {
  }

  /** Zero rounds to zero, so rounding keeps the weak sign of its argument. */
  lemma RoundToMultipleSign(x: real, per: real)
    requires per > 0.0
    ensures x >= 0.0 ==> RoundToMultiple(x, per) >= 0.0
    ensures x <= 0.0 ==> RoundToMultiple(x, per) <= 0.0
  {
    assert OnGrid(0.0, per);
    RoundToMultipleOnGrid(0.0, per);
    if x >= 0.0 {
      RoundToMultipleMonotone(0.0, x, per);
    }
    if x <= 0.0 {
      RoundToMultipleMonotone(x, 0.0, per);
    }
  }

  /** Adding an even number of grid steps commutes with rounding; an odd number
      would flip which neighbour of a tie is the even one. */
  lemma RoundToMultipleShiftEven(x: real, per: real, d: real)
    requires per > 0.0
    requires OnGrid(d / 2.0, per)
    ensures RoundToMultiple(x + d, per) == RoundToMultiple(x, per) + d
  {
    var k := GridIndex(d / 2.0, per);
    ShiftScaled(x, d, per, k, RoundToInt(x * per));
    RoundToIntShiftEven(x * per, 2 * k);
  }

  lemma ShiftScaled(x: real, d: real, per: real, k: int, n: int)
    requires per > 0.0
    requires d / 2.0 == k as real / per
    ensures (x + d) * per == x * per + (2 * k) as real
    ensures (n + 2 * k) as real / per == n as real / per + d
  {
    assert d == (2 * k) as real / per;
    assert d * per == (2 * k) as real;
  }

  lemma AddGridPoints(a: int, b: int, per: real)
    requires per > 0.0
    ensures a as real / per + b as real / per == (a + b) as real / per
    ensures a as real / per - b as real / per == (a - b) as real / per
  {
  }

  /** A multiple of `1/per` is also a multiple of `1/(per * k)`. */
  lemma OnGridRefine(x: real, per: real, k: nat)
    requires per > 0.0
    requires OnGrid(x, per)
    ensures OnGrid(x, per * k as real)
  {
    var n := GridIndex(x, per);
    var m := n * k;
    assert x * per == n as real;
    assert x * (per * k as real) == (x * per) * k as real;
    assert x * (per * k as real) == m as real;
    assert (m as real).Floor == m;
  }

  /** Sums and differences of grid points are grid points. */
  lemma OnGridAdd(x: real, y: real, per: real)
    requires per > 0.0
    requires OnGrid(x, per) && OnGrid(y, per)
    ensures OnGrid(x + y, per) && OnGrid(x - y, per)
  {
    var a := GridIndex(x, per);
    var b := GridIndex(y, per);
    AddGridPoints(a, b, per);
    GridIndexParity(a + b, per);
    GridIndexParity(a - b, per);
  }
}
