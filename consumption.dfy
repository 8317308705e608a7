/** Page 3, "Consumption by Category": fuel and distance totals per key,
    rounded to whole units, and the average consumption per 100 distance
    units derived from the rounded totals. */
module Consumption {
  import opened Wrappers
  import opened Records
  import opened Series
  import opened Rounding
  import opened Grouping

  /** Liters per 100 distance units, before rounding. */
  function Per100(liters: real, odo: real): (r: real)
    requires odo != 0.0
    ensures r * odo == liters * 100.0
  {
    Per100Scaled(liters, odo);
    liters / (odo / 100.0)
  }

  lemma Per100Scaled(liters: real, odo: real)
    requires odo != 0.0
    ensures liters / (odo / 100.0) * odo == liters * 100.0
  {
    var h := odo / 100.0;
    assert h != 0.0;
    assert liters / h * h == liters;
    assert odo == h * 100.0;
  }

  /** `liters / (odo / 100)` rounded to two decimals. A zero distance makes
      pandas divide by zero (an infinite or NaN cell), which is no average;
      otherwise the average is within half a hundredth of the exact one. */
  function AverageConsumption(liters: real, odo: real): (r: Option<real>)
    ensures r.None? <==> odo == 0.0
    ensures r.Some? ==> Per100(liters, odo) - 0.005 <= r.value <= Per100(liters, odo) + 0.005
  {
    if odo == 0.0 then None
    else
      assert Scale(2) == 100.0;
      Some(Round(liters / (odo / 100.0), 2))
  }

  /** Consumption does not depend on the unit of quantity: scaling liters and
      distance by the same positive factor leaves the exact average unchanged. */
  lemma Per100ScaleFree(liters: real, odo: real, k: real)
    requires odo != 0.0 && k > 0.0
    ensures Per100(k * liters, k * odo) == Per100(liters, odo)
  {
    var a := Per100(liters, odo);
    var b := Per100(k * liters, k * odo);
    assert b * (k * odo) == k * liters * 100.0;
    assert a * odo == liters * 100.0;
    assert k * (b * odo) == k * (a * odo);
    assert b * odo == a * odo;
  }

  /** More fuel over the same positive distance is a higher exact average. */
  lemma Per100Monotone(l1: real, l2: real, odo: real)
    requires odo > 0.0 && l1 <= l2
    ensures Per100(l1, odo) <= Per100(l2, odo)
  {
    var a := Per100(l1, odo);
    var b := Per100(l2, odo);
    assert (b - a) * odo == l2 * 100.0 - l1 * 100.0;
  }

  /** 500 liters over 2500 km: 20 liters per 100 km. */
  lemma AverageExample()
    ensures AverageConsumption(500.0, 2500.0) == Some(20.0)
  {
    assert 500.0 / (2500.0 / 100.0) == 20.0;
    RoundWhole(20, 2);
  }

  /** One row of a consumption table. */
  datatype ConsumptionRow = ConsumptionRow(key: string, liters: real, odo: real, average: Option<real>)

  /** `.round()` on the totals, then the average from the rounded columns. */
  function ConsumptionRowsOf(ts: seq<Totals>): (r: seq<ConsumptionRow>)
    ensures |r| == |ts|
    ensures forall i :: 0 <= i < |ts| ==>
      && r[i].key == ts[i].key
      && r[i].liters == Round(ts[i].fuel, 0)
      && r[i].odo == Round(ts[i].odo, 0)
      && r[i].average == AverageConsumption(r[i].liters, r[i].odo)
  {
    if ts == [] then []
    else
      var l := Round(ts[0].fuel, 0);
      var o := Round(ts[0].odo, 0);
      [ConsumptionRow(ts[0].key, l, o, AverageConsumption(l, o))] + ConsumptionRowsOf(ts[1..])
  }

  /** A consumption table of `df` by `key`: one row per key that occurs, in
      ascending order, each row's rounded liters and distance within half a
      unit of the sums over exactly that key's rows, its average computed
      from those rounded columns (present exactly when the rounded distance
      is not zero), and a row for every transaction's key. */
  predicate Tabulates(df: seq<Txn>, key: KeyColumn, r: seq<ConsumptionRow>)
  {
    && (forall i, j :: 0 <= i < j < |r| ==> Below(r[i].key, r[j].key))
    && (forall i :: 0 <= i < |r| ==>
      && Rows(df, key, r[i].key) != []
      && Sum(Rows(df, key, r[i].key), FuelOf) - 0.5 <= r[i].liters <= Sum(Rows(df, key, r[i].key), FuelOf) + 0.5
      && Sum(Rows(df, key, r[i].key), OdoOf) - 0.5 <= r[i].odo <= Sum(Rows(df, key, r[i].key), OdoOf) + 0.5
      && r[i].average == AverageConsumption(r[i].liters, r[i].odo)
      && (r[i].average.Some? <==> r[i].odo != 0.0))
    && (forall t :: t in df ==> exists i :: 0 <= i < |r| && r[i].key == KeyOf(t, key))
  }

  /** `groupby(key).agg` of the liters and the distance, `.round()`, then the
      'Average Consumption' column. */
  function ConsumptionTable(df: seq<Txn>, key: KeyColumn): (r: seq<ConsumptionRow>)
    ensures Tabulates(df, key, r)
  {
    var ts := GroupTotals(df, key);
    var r := ConsumptionRowsOf(ts);
    RowsCover(df, key, ts, r);
    r
  }

  /** The consumption rows keep the keys of their totals, so they cover the
      same transactions. */
  lemma RowsCover(df: seq<Txn>, key: KeyColumn, ts: seq<Totals>, r: seq<ConsumptionRow>)
    requires |r| == |ts| && forall i :: 0 <= i < |ts| ==> r[i].key == ts[i].key
    requires forall t :: t in df ==> exists i :: 0 <= i < |ts| && ts[i].key == KeyOf(t, key)
    ensures forall t :: t in df ==> exists i :: 0 <= i < |r| && r[i].key == KeyOf(t, key)
  {
    forall t | t in df ensures exists i :: 0 <= i < |r| && r[i].key == KeyOf(t, key) {
      var i :| 0 <= i < |ts| && ts[i].key == KeyOf(t, key);
      assert r[i].key == KeyOf(t, key);
    }
  }

  /** A total rounds to zero distance exactly when it lies within half a unit
      of zero (both ends included, as ties go to the even neighbour 0). */
  lemma RoundsToZero(x: real)
    ensures Round(x, 0) == 0.0 <==> -0.5 <= x <= 0.5
  {
    assert Scale(0) == 1.0;
    assert Round(x, 0) == RoundHalfEven(x);
    if -0.5 <= x <= 0.5 {
      RoundHalfEvenUnique(x, 0.0);
    }
  }

  /** So a row has no average exactly when its distance total, before
      rounding, is within half a unit of zero. */
  lemma NoAverageWhenNoDistance(ts: seq<Totals>, i: nat)
    requires i < |ts|
    ensures ConsumptionRowsOf(ts)[i].average.None? <==> -0.5 <= ts[i].odo <= 0.5
  {
    var r := ConsumptionRowsOf(ts);
    assert r[i].odo == Round(ts[i].odo, 0);
    RoundsToZero(ts[i].odo);
  }

  function RowLiters(row: ConsumptionRow): real { row.liters }

  function RowOdo(row: ConsumptionRow): real { row.odo }

  /** A table whose liter and distance columns add up to `fuel` and `odo` up
      to the rounding, at most half a unit per row. */
  predicate AddsUpTo(r: seq<ConsumptionRow>, fuel: real, odo: real)
  {
    && fuel - 0.5 * |r| as real <= Sum(r, RowLiters) <= fuel + 0.5 * |r| as real
    && odo - 0.5 * |r| as real <= Sum(r, RowOdo) <= odo + 0.5 * |r| as real
  }

  /** Rounding each total to a whole unit moves the column total by at most
      half a unit per row. */
  lemma {:induction false} RoundedTotals(ts: seq<Totals>)
    ensures AddsUpTo(ConsumptionRowsOf(ts), Sum(ts, TotalFuel), Sum(ts, TotalOdo))
  {
    if ts != [] {
      RoundedTotals(ts[1..]);
      assert ConsumptionRowsOf(ts)[1..] == ConsumptionRowsOf(ts[1..]);
      assert Scale(0) == 1.0;
    }
  }

  datatype ConsumptionView = ConsumptionView(byCategory: seq<ConsumptionRow>, byPlate: seq<ConsumptionRow>)

  /** What the page computes: a consumption table by category and one by
      plate, each accounting for all the fuel and all the distance of the
      loaded table, up to its rounding. */
  function ConsumptionPage(df: seq<Txn>): (v: ConsumptionView)
    ensures Tabulates(df, Category, v.byCategory)
    ensures Tabulates(df, Plate, v.byPlate)
    ensures AddsUpTo(v.byCategory, Sum(df, FuelOf), Sum(df, OdoOf))
    ensures AddsUpTo(v.byPlate, Sum(df, FuelOf), Sum(df, OdoOf))
  {
    GroupTotalsAddUp(df, Category);
    GroupTotalsAddUp(df, Plate);
    RoundedTotals(GroupTotals(df, Category));
    RoundedTotals(GroupTotals(df, Plate));
    ConsumptionView(ConsumptionTable(df, Category), ConsumptionTable(df, Plate))
  }
}
