/** `iqr_range`: Tukey's outlier fences from pandas' linearly interpolated
    quartiles, with the lower fence clamped at zero. */
module Quantile {
  import opened Wrappers

  predicate Sorted(s: seq<real>)
  {
    forall i, j :: 0 <= i <= j < |s| ==> s[i] <= s[j]
  }

  lemma PrependSorted(x: real, s: seq<real>)
    requires Sorted(s)
    requires forall y :: y in s ==> x <= y
    ensures Sorted([x] + s)
  {
    var r := [x] + s;
    forall i, j | 0 <= i <= j < |r| ensures r[i] <= r[j] {
      if i == 0 && j > 0 {
        assert r[j] == s[j - 1] && s[j - 1] in s;
      } else if i > 0 {
        assert r[i] == s[i - 1] && r[j] == s[j - 1];
      }
    }
  }

  function Insert(x: real, s: seq<real>): (r: seq<real>)
    requires Sorted(s)
    ensures Sorted(r)
    ensures multiset(r) == multiset(s) + multiset{x}
  {
    if s == [] || x <= s[0] then
      PrependSorted(x, s);
      [x] + s
    else
      var rest := Insert(x, s[1..]);
      assert s == [s[0]] + s[1..];
      assert forall y :: y in rest ==> s[0] <= y by {
        forall y | y in rest ensures s[0] <= y {
          assert y in multiset(rest);
        }
      }
      PrependSorted(s[0], rest);
      [s[0]] + rest
  }

  /** The ascending order pandas puts a column in before taking a quantile. */
  function Sort(s: seq<real>): (r: seq<real>)
    ensures Sorted(r)
    ensures multiset(r) == multiset(s)
  {
    if s == [] then []
    else
      assert s == [s[0]] + s[1..];
      Insert(s[0], Sort(s[1..]))
  }

  /** A sorted arrangement of a multiset of values is unique. */
  lemma {:induction false} SortedUnique(a: seq<real>, b: seq<real>)
    requires Sorted(a) && Sorted(b)
    requires multiset(a) == multiset(b)
    ensures a == b
  {
    if a != [] {
      SameHead(a, b);
      SameTail(a, b);
      SortedUnique(a[1..], b[1..]);
      assert a == [a[0]] + a[1..];
      assert b == [b[0]] + b[1..];
    }
  }

  /** Two sorted arrangements of the same values start with the least one. */
  lemma SameHead(a: seq<real>, b: seq<real>)
    requires Sorted(a) && Sorted(b) && a != []
    requires multiset(a) == multiset(b)
    ensures b != [] && a[0] == b[0]
  {
    assert a[0] in multiset(b);
    assert b[0] in multiset(a);
  }

  /** With equal heads, the tails hold the same values. */
  lemma SameTail(a: seq<real>, b: seq<real>)
    requires a != [] && b != [] && a[0] == b[0]
    requires multiset(a) == multiset(b)
    ensures multiset(a[1..]) == multiset(b[1..])
  {
    assert a == [a[0]] + a[1..];
    assert b == [b[0]] + b[1..];
    assert multiset(a[1..]) == multiset(a) - multiset{a[0]};
    assert multiset(b[1..]) == multiset(b) - multiset{b[0]};
  }

  /** Sorting an already sorted column leaves it as it is. */
  lemma SortOfSorted(s: seq<real>)
    requires Sorted(s)
    ensures Sort(s) == s
  {
    SortedUnique(Sort(s), s);
  }

  /** The interpolation position `(n - 1) * q`; it lies on the index range. */
  function Rank(n: nat, q: real): (h: real)
    requires n > 0 && 0.0 <= q <= 1.0
    ensures 0.0 <= h <= (n - 1) as real
  {
    var m := (n - 1) as real;
    MulNonNegative(m, q);
    MulNonNegative(m, 1.0 - q);
    assert m * (1.0 - q) == m - m * q;
    m * q
  }

  /** A larger fraction is a later position. */
  lemma RankMonotone(n: nat, q1: real, q2: real)
    requires n > 0 && 0.0 <= q1 <= q2 <= 1.0
    ensures Rank(n, q1) <= Rank(n, q2)
  {
    Scaled((n - 1) as real, q1, q2);
  }

  lemma MulNonNegative(x: real, y: real)
    requires x >= 0.0 && y >= 0.0
    ensures x * y >= 0.0
  {
  }

  lemma Scaled(m: real, a: real, b: real)
    requires m >= 0.0 && a <= b
    ensures m * a <= m * b
  {
    MulNonNegative(m, b - a);
    assert m * (b - a) == m * b - m * a;
  }

  /** `a + t * (b - a)`: the point a fraction `t` of the way from `a` to `b`. */
  function Lerp(a: real, b: real, t: real): (r: real)
    requires a <= b && 0.0 <= t <= 1.0
    ensures a <= r <= b
  {
    MulNonNegative(t, b - a);
    MulNonNegative(1.0 - t, b - a);
    assert (1.0 - t) * (b - a) == (b - a) - t * (b - a);
    a + t * (b - a)
  }

  lemma LerpMonotone(a: real, b: real, t1: real, t2: real)
    requires a <= b && 0.0 <= t1 <= t2 <= 1.0
    ensures Lerp(a, b, t1) <= Lerp(a, b, t2)
  {
    MulNonNegative(t2 - t1, b - a);
    assert (t2 - t1) * (b - a) == t2 * (b - a) - t1 * (b - a);
  }

  /** The value at fractional position `h` of sorted values: the value at index
      floor(h), plus the fractional part of `h` times the step to the next
      index (clipped to the last index). */
  function Interpolate(v: seq<real>, h: real): (r: real)
    requires Sorted(v) && 0.0 <= h <= (|v| - 1) as real
    ensures v[0] <= r <= v[|v| - 1]
    ensures v[h.Floor] <= r <= v[NextIndex(v, h.Floor)]
  {
    var i := h.Floor;
    Lerp(v[i], v[NextIndex(v, i)], h - i as real)
  }

  /** The index after `i`, clipped to the last index. */
  function NextIndex(v: seq<real>, i: int): (j: int)
    requires 0 <= i < |v|
    ensures i <= j < |v|
  {
    if i + 1 < |v| then i + 1 else i
  }

  /** A larger position never gives a smaller value. */
  lemma InterpolateMonotone(v: seq<real>, h1: real, h2: real)
    requires Sorted(v) && 0.0 <= h1 <= h2 <= (|v| - 1) as real
    ensures Interpolate(v, h1) <= Interpolate(v, h2)
  {
    var i1, i2 := h1.Floor, h2.Floor;
    assert 0 <= i1 <= i2 <= |v| - 1;
    if i1 == i2 {
      LerpMonotone(v[i1], v[NextIndex(v, i1)], h1 - i1 as real, h2 - i2 as real);
    } else {
      assert v[NextIndex(v, i1)] <= v[i2];
    }
  }

  /** pandas' `quantile(q)` with its default linear interpolation, on sorted
      values: the value at position (n - 1) * q. */
  function Quantile(v: seq<real>, q: real): (r: real)
    requires Sorted(v) && |v| > 0 && 0.0 <= q <= 1.0
    ensures v[0] <= r <= v[|v| - 1]
  {
    Interpolate(v, Rank(|v|, q))
  }

  /** Quantiles are monotone in the requested fraction. */
  lemma QuantileMonotone(v: seq<real>, q1: real, q2: real)
    requires Sorted(v) && |v| > 0 && 0.0 <= q1 <= q2 <= 1.0
    ensures Quantile(v, q1) <= Quantile(v, q2)
  {
    RankMonotone(|v|, q1, q2);
    InterpolateMonotone(v, Rank(|v|, q1), Rank(|v|, q2));
  }

  /** Lower and upper fences of a column; the lower one is never negative. */
  datatype Bounds = Bounds(lower: real, upper: real)

  /** `quantile(0.25)` of a non-empty column, which pandas sorts first: a
      value between the column's smallest and largest. */
  function Q1(values: seq<real>): (r: real)
    requires values != []
    ensures exists lo :: lo in values && lo <= r
    ensures exists hi :: hi in values && r <= hi
  {
    SortedFrom(values, 0);
    SortedFrom(values, |values| - 1);
    Quantile(Sort(values), 0.25)
  }

  /** `quantile(0.75)`: never below the first quartile, and again between the
      column's smallest and largest value. */
  function Q3(values: seq<real>): (r: real)
    requires values != []
    ensures Q1(values) <= r
    ensures exists hi :: hi in values && r <= hi
  {
    QuantileMonotone(Sort(values), 0.25, 0.75);
    SortedFrom(values, |values| - 1);
    Quantile(Sort(values), 0.75)
  }

  /** `iqr_range`: (max(Q1 - 1.5 IQR, 0), Q3 + 1.5 IQR). On an empty column
      pandas' quantile is NaN, so both fences are NaN and every comparison
      with them is false; `None` stands for that pair. */
  function IqrRange(values: seq<real>): (r: Option<Bounds>)
    ensures r.None? <==> values == []
    ensures r.Some? ==> r.value.lower >= 0.0
  {
    if values == [] then None else Some(Fences(Q1(values), Q3(values)))
  }

  /** The fences for given quartiles, the lower one clipped at zero. */
  function Fences(q1: real, q3: real): (b: Bounds)
    ensures b.lower >= 0.0
  {
    var iqr := q3 - q1;
    var lower := q1 - 1.5 * iqr;
    Bounds(if 0.0 > lower then 0.0 else lower, q3 + 1.5 * iqr)
  }

  /** The fences of a non-empty column: Q1 <= Q3, the upper fence is exactly
      Q3 + 1.5 IQR, the lower fence is the larger of Q1 - 1.5 IQR and 0, and
      the fences are in order exactly when the upper one is not negative. */
  lemma IqrRangeFences(values: seq<real>)
    requires values != []
    ensures Q1(values) <= Q3(values)
    ensures IqrRange(values).value.upper == Q3(values) + 1.5 * (Q3(values) - Q1(values))
    ensures IqrRange(values).value.upper >= Q3(values)
    ensures IqrRange(values).value.lower >= Q1(values) - 1.5 * (Q3(values) - Q1(values))
    ensures IqrRange(values).value.lower == 0.0
         || IqrRange(values).value.lower == Q1(values) - 1.5 * (Q3(values) - Q1(values))
    ensures IqrRange(values).value.lower <= IqrRange(values).value.upper
        <==> IqrRange(values).value.upper >= 0.0
  {
    QuantileMonotone(Sort(values), 0.25, 0.75);
  }

  /** Every value of a sorted arrangement comes from the column. */
  lemma SortedFrom(values: seq<real>, k: nat)
    requires k < |values|
    ensures |Sort(values)| == |values| && Sort(values)[k] in values
  {
    assert |multiset(Sort(values))| == |multiset(values)|;
    assert Sort(values)[k] in multiset(Sort(values));
  }

  /** For a column of non-negative values (fuel quantities, distances) the
      quartiles lie between the fences: lower <= Q1 <= Q3 <= upper. */
  lemma NonNegativeColumnFences(values: seq<real>)
    requires values != []
    requires forall x :: x in values ==> x >= 0.0
    ensures 0.0 <= IqrRange(values).value.lower <= Q1(values)
    ensures Q1(values) <= Q3(values) <= IqrRange(values).value.upper
  {
    IqrRangeFences(values);
    SortedFrom(values, 0);
  }

  /** Sorting forgets the order of its input. */
  lemma SortOrderFree(a: seq<real>, b: seq<real>)
    requires multiset(a) == multiset(b)
    ensures Sort(a) == Sort(b)
  {
    SortedUnique(Sort(a), Sort(b));
  }

  /** The quartiles depend only on the values of the column. */
  lemma QuartilesOrderFree(a: seq<real>, b: seq<real>)
    requires multiset(a) == multiset(b) && a != []
    ensures b != [] && Q1(a) == Q1(b) && Q3(a) == Q3(b)
  {
    assert |multiset(a)| == |multiset(b)|;
    SortOrderFree(a, b);
  }

  /** The fences depend only on the values of the column, not on row order. */
  lemma IqrRangeOrderFree(a: seq<real>, b: seq<real>)
    requires multiset(a) == multiset(b)
    ensures IqrRange(a) == IqrRange(b)
  {
    if a == [] {
      assert |multiset(b)| == 0;
    } else {
      QuartilesOrderFree(a, b);
    }
  }

  lemma QuartilesOfSorted(s: seq<real>)
    requires Sorted(s) && s != []
    ensures Q1(s) == Quantile(s, 0.25) && Q3(s) == Quantile(s, 0.75)
  {
    SortOfSorted(s);
  }

  /** Fuel quantities 1, 2, 3, 4, 100: Q1 = 2, Q3 = 4, so the fences are
      (max(2 - 3, 0), 4 + 3) = (0, 7) and 100 falls outside them. */
  lemma IqrRangeExample(fuel: seq<real>)
    requires |fuel| == 5
    requires fuel[0] == 1.0 && fuel[1] == 2.0 && fuel[2] == 3.0 && fuel[3] == 4.0 && fuel[4] == 100.0
    ensures Q1(fuel) == 2.0 && Q3(fuel) == 4.0
    ensures IqrRange(fuel) == Some(Bounds(0.0, 7.0))
  {
    assert Sorted(fuel);
    QuartilesOfSorted(fuel);
    assert Rank(5, 0.25) == 1.0;
    assert Quantile(fuel, 0.25) == Interpolate(fuel, 1.0);
    assert Interpolate(fuel, 1.0) == 2.0;
    assert Rank(5, 0.75) == 3.0;
    assert Quantile(fuel, 0.75) == Interpolate(fuel, 3.0);
    assert Interpolate(fuel, 3.0) == 4.0;
  }
}
