/** Page 1, "Overview": category selection, the two outlier-trimmed
    histograms, the per-plate scatter and the points the regression line is
    fitted to. */
module Overview {
  import opened Wrappers
  import opened Records
  import opened Series
  import opened Quantile
  import opened Grouping

  /** The dropdown's choice: "All" keeps every row, anything else keeps the
      rows whose 'Long Description' is exactly that string, in order. */
  function SelectCategory(df: seq<Txn>, selected: string): (r: seq<Txn>)
    ensures selected == "All" ==> r == df
    ensures selected != "All" ==> forall t :: t in r <==> t in df && t.category == selected
    ensures |r| <= |df|
  {
    if selected == "All" then df else Filter(df, (t: Txn) => t.category == selected)
  }

  /** Selecting from two parts of a table and joining the results is
      selecting from the whole: the selection keeps the original row order. */
  lemma SelectCategoryKeepsOrder(a: seq<Txn>, b: seq<Txn>, selected: string)
    ensures SelectCategory(a + b, selected) == SelectCategory(a, selected) + SelectCategory(b, selected)
  {
    if selected != "All" {
      FilterAppend(a, b, (t: Txn) => t.category == selected);
    }
  }

  /** `(x >= lower) & (x <= upper)`, both ends included. With the NaN fences
      of an empty column every comparison is false, so nothing is within
      them; a value within fences shows that they are not crossed. */
  function Within(x: real, b: Option<Bounds>): (r: bool)
    ensures r ==> b.Some? && b.value.lower <= b.value.upper
  {
    b.Some? && b.value.lower <= x <= b.value.upper
  }

  /** The trimming never drops the middle half of a column of non-negative
      values: whatever lies between its quartiles is within its fences. */
  lemma MiddleHalfKept(values: seq<real>, x: real)
    requires values != [] && forall y :: y in values ==> y >= 0.0
    requires Q1(values) <= x <= Q3(values)
    ensures Within(x, IqrRange(values))
  {
    NonNegativeColumnFences(values);
  }

  /** The rows a histogram plots: those whose value in the column lies
      within that column's own fences, each as often as it occurs in the
      table, so every bar counts the rows it would count in pandas. None of
      them has a negative value. */
  function HistogramRows(rows: seq<Txn>, f: Txn -> real): (r: seq<Txn>)
    ensures forall t :: t in r <==> t in rows && Within(f(t), IqrRange(Column(rows, f)))
    ensures forall t :: multiset(r)[t] == (if Within(f(t), IqrRange(Column(rows, f))) then multiset(rows)[t] else 0)
    ensures forall t :: t in r ==> f(t) >= 0.0
  {
    var b := IqrRange(Column(rows, f));
    FilterMultiplicity(rows, t => Within(f(t), b));
    Filter(rows, t => Within(f(t), b))
  }

  /** With fuel quantities 1, 2, 3, 4, 100 the fences are (0, 7): the
      histogram keeps the first four rows and drops the fifth. */
  lemma HistogramExample(rows: seq<Txn>)
    requires |rows| == 5
    requires rows[0].fuelQty == 1.0 && rows[1].fuelQty == 2.0 && rows[2].fuelQty == 3.0
    requires rows[3].fuelQty == 4.0 && rows[4].fuelQty == 100.0
    ensures HistogramRows(rows, FuelOf) == rows[..4]
  {
    var f := FuelOf;
    var b := IqrRange(Column(rows, f));
    assert b == Some(Bounds(0.0, 7.0)) by { IqrRangeExample(Column(rows, f)); }
    KeepFirstFour(rows, f, b);
  }

  /** The filtering half of the example: with fences (0, 7) the values
      1, 2, 3, 4 are kept and 100 is not. */
  lemma KeepFirstFour(rows: seq<Txn>, f: Txn -> real, b: Option<Bounds>)
    requires |rows| == 5 && b == Some(Bounds(0.0, 7.0))
    requires f(rows[0]) == 1.0 && f(rows[1]) == 2.0 && f(rows[2]) == 3.0
    requires f(rows[3]) == 4.0 && f(rows[4]) == 100.0
    ensures Filter(rows, t => Within(f(t), b)) == rows[..4]
  {
    var p := (t: Txn) => Within(f(t), b);
    assert Filter(rows[4..], p) == [] by {
      assert rows[4..][1..] == [];
    }
    assert Filter(rows[3..], p) == [rows[3]] by {
      assert rows[3..][1..] == rows[4..];
    }
    assert Filter(rows[2..], p) == [rows[2], rows[3]] by {
      assert rows[2..][1..] == rows[3..];
    }
    assert Filter(rows[1..], p) == [rows[1], rows[2], rows[3]] by {
      assert rows[1..][1..] == rows[2..];
    }
    assert Filter(rows, p) == [rows[0], rows[1], rows[2], rows[3]];
  }

  /** `grouped_df[grouped_df['ODO Diff'] >= 0]`: the per-plate totals whose
      summed distance is not negative. */
  function Scatter(rows: seq<Txn>): (ps: seq<Totals>)
    ensures forall p :: p in ps <==> p in GroupTotals(rows, Plate) && p.odo >= 0.0
  {
    Filter(GroupTotals(rows, Plate), (p: Totals) => p.odo >= 0.0)
  }

  /** The two `iqr_range` masks on the per-plate totals: the scatter points
      within both the distance fences and the fuel fences, each computed on
      the scatter points themselves. */
  function FitPoints(ps: seq<Totals>): (r: seq<Totals>)
    ensures forall p :: p in r <==>
      p in ps && Within(p.odo, IqrRange(Column(ps, TotalOdo))) && Within(p.fuel, IqrRange(Column(ps, TotalFuel)))
    ensures forall p ::
      multiset(r)[p] == if Within(p.odo, IqrRange(Column(ps, TotalOdo))) && Within(p.fuel, IqrRange(Column(ps, TotalFuel)))
                        then multiset(ps)[p] else 0
    ensures forall p :: p in r ==> p.odo >= 0.0 && p.fuel >= 0.0
  {
    var bo := IqrRange(Column(ps, TotalOdo));
    var bf := IqrRange(Column(ps, TotalFuel));
    FilterMultiplicity(ps, (p: Totals) => Within(p.odo, bo) && Within(p.fuel, bf));
    Filter(ps, (p: Totals) => Within(p.odo, bo) && Within(p.fuel, bf))
  }

  /** When no selected transaction has a negative distance, no plate's sum
      is negative either, and the scatter keeps every plate's totals. */
  lemma ScatterKeepsAll(rows: seq<Txn>)
    requires forall t :: t in rows ==> t.odoDiff >= 0.0
    ensures Scatter(rows) == GroupTotals(rows, Plate)
  {
    var ts := GroupTotals(rows, Plate);
    forall p | p in ts ensures p.odo >= 0.0 {
      var i :| 0 <= i < |ts| && ts[i] == p;
      assert forall t :: t in Rows(rows, Plate, p.key) ==> OdoOf(t) >= 0.0;
    }
    FilterKeepsAll(ts, (p: Totals) => p.odo >= 0.0);
  }

  /** What the page computes for one selection. */
  datatype OverviewView = OverviewView(
    fcuHistogram: seq<Txn>,    // rows plotted in the 'Txn FCU' histogram
    fuelHistogram: seq<Txn>,   // rows plotted in the 'Fuel Qty' histogram
    scatter: seq<Totals>,      // per-plate points of the scatter plot
    fitPoints: seq<Totals>)    // points the regression line is fitted to

  function Overview(df: seq<Txn>, selected: string): (v: OverviewView)
    ensures forall t :: t in v.fcuHistogram <==>
      t in SelectCategory(df, selected) && Within(t.txnFcu, IqrRange(Column(SelectCategory(df, selected), FcuOf)))
    ensures forall t :: t in v.fuelHistogram <==>
      t in SelectCategory(df, selected) && Within(t.fuelQty, IqrRange(Column(SelectCategory(df, selected), FuelOf)))
    ensures forall t ::
      multiset(v.fcuHistogram)[t] == if Within(t.txnFcu, IqrRange(Column(SelectCategory(df, selected), FcuOf)))
                                     then multiset(SelectCategory(df, selected))[t] else 0
    ensures forall t ::
      multiset(v.fuelHistogram)[t] == if Within(t.fuelQty, IqrRange(Column(SelectCategory(df, selected), FuelOf)))
                                      then multiset(SelectCategory(df, selected))[t] else 0
    ensures forall p :: p in v.scatter <==> p in GroupTotals(SelectCategory(df, selected), Plate) && p.odo >= 0.0
    ensures forall i, j :: 0 <= i < j < |v.scatter| ==> Below(v.scatter[i].key, v.scatter[j].key)
    ensures forall p :: p in v.fitPoints <==>
      p in v.scatter && Within(p.odo, IqrRange(Column(v.scatter, TotalOdo))) && Within(p.fuel, IqrRange(Column(v.scatter, TotalFuel)))
    ensures forall p ::
      multiset(v.fitPoints)[p] == if Within(p.odo, IqrRange(Column(v.scatter, TotalOdo))) && Within(p.fuel, IqrRange(Column(v.scatter, TotalFuel)))
                                  then multiset(v.scatter)[p] else 0
    ensures forall t :: t in v.fcuHistogram ==> t in df && t.txnFcu >= 0.0
    ensures forall t :: t in v.fuelHistogram ==> t in df && t.fuelQty >= 0.0
    ensures selected != "All" ==>
      forall t :: t in v.fcuHistogram || t in v.fuelHistogram ==> t.category == selected
    ensures forall p :: p in v.fitPoints ==> p in v.scatter && p.odo >= 0.0 && p.fuel >= 0.0
  {
    var rows := SelectCategory(df, selected);
    var ps := Scatter(rows);
    ScatterTotals(rows);
    OverviewView(HistogramRows(rows, FcuOf), HistogramRows(rows, FuelOf), ps, FitPoints(ps))
  }

  /** The scatter has at most one point per plate, in ascending plate
      order, and before the distance filter the per-plate totals add up to
      the totals of the selected rows. */
  lemma ScatterTotals(rows: seq<Txn>)
    ensures forall i, j :: 0 <= i < j < |Scatter(rows)| ==>
      Below(Scatter(rows)[i].key, Scatter(rows)[j].key) && Scatter(rows)[i].key != Scatter(rows)[j].key
    ensures Sum(GroupTotals(rows, Plate), TotalFuel) == Sum(rows, FuelOf)
    ensures Sum(GroupTotals(rows, Plate), TotalOdo) == Sum(rows, OdoOf)
  {
    GroupTotalsAddUp(rows, Plate);
    FilterKeepsOrder(GroupTotals(rows, Plate), (p: Totals) => p.odo >= 0.0,
      (p: Totals, p': Totals) => Below(p.key, p'.key));
  }
}
