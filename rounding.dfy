/** Decimal rounding as numpy performs it (`round`, `np.round`): to the
    nearest multiple of 10^-d, ties going to the even neighbour. */
module Rounding {

  /** numpy's `rint`: the nearest whole number, ties to the even one. */
  function RoundHalfEven(x: real): (r: real)
    ensures r == r.Floor as real
    ensures x - 0.5 <= r <= x + 0.5
    ensures (r - x == 0.5 || x - r == 0.5) ==> r.Floor % 2 == 0
  {
    var f := x.Floor;
    var d := x - f as real;
    if d < 0.5 then f as real
    else if d > 0.5 then (f + 1) as real
    else if f % 2 == 0 then f as real
    else (f + 1) as real
  }

  /** The three conditions above single out one whole number: they are a
      complete description of round-half-to-even. */
  lemma RoundHalfEvenUnique(x: real, r: real)
    requires r == r.Floor as real
    requires x - 0.5 <= r <= x + 0.5
    requires (r - x == 0.5 || x - r == 0.5) ==> r.Floor % 2 == 0
    ensures r == RoundHalfEven(x)
  {
    var f := x.Floor;
    var n := r.Floor;
    assert f as real <= x < f as real + 1.0;
    assert n == f || n == f + 1;
  }

  /** A whole number rounds to itself. */
  lemma RoundHalfEvenWhole(n: int)
    ensures RoundHalfEven(n as real) == n as real
  {
    RoundHalfEvenUnique(n as real, n as real);
  }

  /** 10^d. */
  function Scale(decimals: nat): (s: real)
    ensures s >= 1.0
  {
    if decimals == 0 then 1.0 else 10.0 * Scale(decimals - 1)
  }

  /** `round(decimals)`: scale by 10^d, round half to even, scale back. The
      result is within half a unit of the last kept decimal, and a whole
      number of such units. */
  function Round(x: real, decimals: nat): (r: real)
    ensures x - 0.5 / Scale(decimals) <= r <= x + 0.5 / Scale(decimals)
    ensures WholeUnits(r, Scale(decimals))
  {
    RoundAt(x, Scale(decimals))
  }

  /** `r` is a whole number of units of size 1/s. */
  predicate WholeUnits(r: real, s: real)
  {
    r * s == (r * s).Floor as real
  }

  /** Rounding to the nearest multiple of 1/s, for a scale s of at least 1. */
  function RoundAt(x: real, s: real): (r: real)
    requires s >= 1.0
    ensures x - 0.5 / s <= r <= x + 0.5 / s
    ensures WholeUnits(r, s)
  {
    var y := RoundHalfEven(x * s);
    ScaleBack(x, y, s);
    Units(y, s);
    y / s
  }

  lemma Units(y: real, s: real)
    requires s >= 1.0 && y == y.Floor as real
    ensures WholeUnits(y / s, s)
  {
    var q := y / s;
    assert q * s == y;
  }

  /** Dividing a rounding error of at most 1/2 by the scale. */
  lemma ScaleBack(x: real, y: real, s: real)
    requires s >= 1.0
    requires x * s - 0.5 <= y <= x * s + 0.5
    ensures x - 0.5 / s <= y / s <= x + 0.5 / s
  {
    assert (x * s - 0.5) / s == x - 0.5 / s;
    assert (x * s + 0.5) / s == x + 0.5 / s;
  }

  /** Multiplying the rounding error back by the scale. */
  lemma ScaleUp(x: real, r: real, s: real)
    requires s >= 1.0
    requires x - 0.5 / s <= r <= x + 0.5 / s
    ensures x * s - 0.5 <= r * s <= x * s + 0.5
  {
    assert (x - 0.5 / s) * s == x * s - 0.5;
    assert (x + 0.5 / s) * s == x * s + 0.5;
    assert (r - (x - 0.5 / s)) * s >= 0.0;
    assert (x + 0.5 / s - r) * s >= 0.0;
  }

  /** A whole number is unchanged by rounding to any number of decimals:
      the only whole number of units within half a unit of it is itself. */
  lemma RoundWhole(n: int, decimals: nat)
    ensures Round(n as real, decimals) == n as real
  {
    ScaleWhole(decimals);
    RoundAtWhole(n, Scale(decimals));
  }

  lemma RoundAtWhole(n: int, s: real)
    requires s >= 1.0 && s == s.Floor as real
    ensures RoundAt(n as real, s) == n as real
  {
    OnlyWholeNear(n, RoundAt(n as real, s), s);
  }

  /** The only whole number of units within half a unit of a whole number
      is that number itself. */
  lemma OnlyWholeNear(n: int, r: real, s: real)
    requires s >= 1.0 && s == s.Floor as real
    requires n as real - 0.5 / s <= r <= n as real + 0.5 / s
    requires WholeUnits(r, s)
    ensures r == n as real
  {
    ScaleUp(n as real, r, s);
    var m := (r * s).Floor;
    var k := s.Floor;
    IntProduct(n, k);
    NearInts(m, n * k);
    Cancel(r, n as real, s);
  }

  lemma IntProduct(n: int, k: int)
    ensures n as real * k as real == (n * k) as real
  {
  }

  lemma NearInts(a: int, b: int)
    requires b as real - 0.5 <= a as real <= b as real + 0.5
    ensures a == b
  {
  }

  lemma Cancel(a: real, b: real, s: real)
    requires s >= 1.0 && a * s == b * s
    ensures a == b
  {
    assert (a - b) * s == 0.0;
  }

  lemma ScaleWhole(decimals: nat)
    ensures Scale(decimals) == Scale(decimals).Floor as real
  {
    if decimals > 0 {
      ScaleWhole(decimals - 1);
      var k := Scale(decimals - 1).Floor;
      assert Scale(decimals) == (10 * k) as real;
    }
  }
}
