/** Page 2, "Overconsumption Analysis": the three headline numbers and the
    overconsumption tables by category and by plate. */
module Overconsumption {
  import opened Wrappers
  import opened Records
  import opened Series
  import opened Rounding
  import opened Grouping

  /** `df['Transaction Id'].count()`: every row has an identifier, so every
      row is counted, and each is either above its limit or within it. */
  function TransactionCount(df: seq<Txn>): (n: nat)
    ensures n == Count(df, IsOver) + Count(df, WithinLimit)
  {
    CountSplit(df, IsOver, WithinLimit);
    |df|
  }

  /** `df['Overconsumption %'].dropna().count()`: rows above their limit.
      No more of them than transactions. */
  function OverconsumptionCount(df: seq<Txn>): (n: nat)
    ensures n <= TransactionCount(df)
    ensures n == |Filter(df, IsOver)|
  {
    Count(df, IsOver)
  }

  /** `(total - over) / total * 100`. pandas gives NaN for 0 / 0, so there is
      no percentage without transactions; otherwise it lies in [0, 100] and
      complements the overconsumption percentage to exactly 100. */
  function WithinLimitsPercentage(total: nat, over: nat): (r: Option<real>)
    ensures r.Some? <==> total > 0
    ensures r.Some? && over <= total ==> 0.0 <= r.value <= 100.0
    ensures r.Some? ==> r.value + over as real / total as real * 100.0 == 100.0
  {
    if total == 0 then None
    else
      Complement(total as real, over as real);
      Some((total as int - over as int) as real / total as real * 100.0)
  }

  lemma Complement(total: real, over: real)
    requires total > 0.0
    ensures (total - over) / total == 1.0 - over / total
    ensures over <= total ==> over / total <= 1.0
    ensures over >= 0.0 ==> over / total >= 0.0
  {
    assert (total - over) / total == total / total - over / total;
  }

  /** 1000 transactions of which 150 above the limit: 85 % within limits. */
  lemma WithinLimitsExample()
    ensures WithinLimitsPercentage(1000, 150) == Some(85.0)
  {
  }

  datatype Headline = Headline(total: nat, over: nat, withinPct: Option<real>)

  /** The three headline numbers: the transaction count, the count of
      transactions above their limit, and the share of transactions with an
      empty 'Overconsumption %' cell as a percentage. */
  function Headlines(df: seq<Txn>): (h: Headline)
    ensures h.over == Count(df, IsOver)
    ensures h.over <= h.total == |df|
    ensures h.withinPct.Some? <==> df != []
    ensures h.withinPct.Some? ==> 0.0 <= h.withinPct.value <= 100.0
    ensures h.withinPct.Some? ==>
      h.withinPct.value == Count(df, WithinLimit) as real / |df| as real * 100.0
  {
    var total := TransactionCount(df);
    var over := OverconsumptionCount(df);
    Headline(total, over, WithinLimitsPercentage(total, over))
  }

  /** One row of `groupby(key).agg({'Overconsumption %': 'count',
      'Overconsumption Liter': 'sum'})`. */
  datatype OverRow = OverRow(key: string, count: nat, liters: real)

  function RowLiters(row: OverRow): real { row.liters }

  function OverRowsOf(gs: seq<Group>): (t: seq<OverRow>)
    ensures |t| == |gs|
    ensures forall i :: 0 <= i < |gs| ==>
      t[i] == OverRow(gs[i].key, Count(gs[i].rows, IsOver), Sum(gs[i].rows, LitersOf))
  {
    if gs == [] then []
    else [OverRow(gs[0].key, Count(gs[0].rows, IsOver), Sum(gs[0].rows, LitersOf))] + OverRowsOf(gs[1..])
  }

  /** The aggregation table: one row per distinct key in ascending order,
      each with the non-null count and liter sum of exactly its key's rows. */
  function OverTable(df: seq<Txn>, key: KeyColumn): (t: seq<OverRow>)
    ensures forall i, j :: 0 <= i < j < |t| ==> Below(t[i].key, t[j].key)
    ensures forall i :: 0 <= i < |t| ==>
      && t[i].count == Count(Rows(df, key, t[i].key), IsOver)
      && t[i].liters == Sum(Rows(df, key, t[i].key), LitersOf)
    ensures forall x :: x in df ==> exists i :: 0 <= i < |t| && t[i].key == KeyOf(x, key)
    ensures forall i :: 0 <= i < |t| ==> Rows(df, key, t[i].key) != []
  {
    var gs := GroupBy(df, key);
    var t := OverRowsOf(gs);
    OverRowsCover(df, key, gs, t);
    t
  }

  /** The aggregation rows keep the keys of their groups, so every
      transaction's key has a row. */
  lemma OverRowsCover(df: seq<Txn>, key: KeyColumn, gs: seq<Group>, t: seq<OverRow>)
    requires |t| == |gs| && forall i :: 0 <= i < |gs| ==> t[i].key == gs[i].key
    requires forall x :: x in df ==> exists i :: 0 <= i < |gs| && gs[i].key == KeyOf(x, key)
    ensures forall x :: x in df ==> exists i :: 0 <= i < |t| && t[i].key == KeyOf(x, key)
  {
    forall x | x in df ensures exists i :: 0 <= i < |t| && t[i].key == KeyOf(x, key) {
      var i :| 0 <= i < |gs| && gs[i].key == KeyOf(x, key);
      assert t[i].key == KeyOf(x, key);
    }
  }

  /** `t[t['Overconsumption %'] != 0]`: the groups with at least one row above its limit. */
  function DropNoOver(t: seq<OverRow>): (r: seq<OverRow>)
    ensures forall row :: row in r <==> row in t && row.count >= 1
  {
    Filter(t, (row: OverRow) => row.count != 0)
  }

  /** The aggregation table without its zero-count rows: exactly one row per
      key that has a transaction above its limit, in ascending key order,
      with that key's count and liter sum. */
  function KeptTable(df: seq<Txn>, key: KeyColumn): (t: seq<OverRow>)
    ensures forall i, j :: 0 <= i < j < |t| ==> Below(t[i].key, t[j].key)
    ensures forall i :: 0 <= i < |t| ==>
      && 1 <= t[i].count == Count(Rows(df, key, t[i].key), IsOver)
      && t[i].liters == Sum(Rows(df, key, t[i].key), LitersOf)
    ensures forall x :: x in df && IsOver(x) ==> exists i :: 0 <= i < |t| && t[i].key == KeyOf(x, key)
  {
    var all := OverTable(df, key);
    var kept := DropNoOver(all);
    FilterKeepsOrder(all, (row: OverRow) => row.count != 0, (a: OverRow, b: OverRow) => Below(a.key, b.key));
    KeptRows(df, key, all, kept);
    KeptCover(df, key, all, kept);
    kept
  }

  /** A kept row is a row of the aggregation table, so it carries the count
      and the liter sum of its key. */
  lemma KeptRows(df: seq<Txn>, key: KeyColumn, all: seq<OverRow>, kept: seq<OverRow>)
    requires forall i :: 0 <= i < |all| ==>
      && all[i].count == Count(Rows(df, key, all[i].key), IsOver)
      && all[i].liters == Sum(Rows(df, key, all[i].key), LitersOf)
    requires forall row :: row in kept ==> row in all && row.count >= 1
    ensures forall i :: 0 <= i < |kept| ==>
      && 1 <= kept[i].count == Count(Rows(df, key, kept[i].key), IsOver)
      && kept[i].liters == Sum(Rows(df, key, kept[i].key), LitersOf)
  {
    forall i | 0 <= i < |kept|
      ensures 1 <= kept[i].count == Count(Rows(df, key, kept[i].key), IsOver)
      ensures kept[i].liters == Sum(Rows(df, key, kept[i].key), LitersOf)
    {
      assert kept[i] in kept;
      var j :| 0 <= j < |all| && all[j] == kept[i];
    }
  }

  /** The key of a transaction above its limit has a non-zero count, so its
      row survives the drop. */
  lemma KeptCover(df: seq<Txn>, key: KeyColumn, all: seq<OverRow>, kept: seq<OverRow>)
    requires forall i :: 0 <= i < |all| ==> all[i].count == Count(Rows(df, key, all[i].key), IsOver)
    requires forall x :: x in df ==> exists i :: 0 <= i < |all| && all[i].key == KeyOf(x, key)
    requires forall row :: row in all && row.count >= 1 ==> row in kept
    ensures forall x :: x in df && IsOver(x) ==> exists i :: 0 <= i < |kept| && kept[i].key == KeyOf(x, key)
  {
    forall x | x in df && IsOver(x) ensures exists i :: 0 <= i < |kept| && kept[i].key == KeyOf(x, key) {
      var i :| 0 <= i < |all| && all[i].key == KeyOf(x, key);
      OverCounted(df, key, x);
      assert all[i] in kept;
      var j :| 0 <= j < |kept| && kept[j] == all[i];
    }
  }

  /** A transaction above its limit is counted in its own key's group. */
  lemma OverCounted(df: seq<Txn>, key: KeyColumn, x: Txn)
    requires x in df && IsOver(x)
    ensures Count(Rows(df, key, KeyOf(x, key)), IsOver) >= 1
  {
    var g := Rows(df, key, KeyOf(x, key));
    assert x in g;
    assert x in Filter(g, IsOver);
  }

  /** The total of a table's count column. */
  function CountColumn<R>(t: seq<R>, count: R -> nat): nat
  {
    if t == [] then 0 else count(t[0]) + CountColumn(t[1..], count)
  }

  function OverCount(row: OverRow): nat { row.count }

  lemma {:induction false} CountColumnOfRows(gs: seq<Group>)
    ensures CountColumn(OverRowsOf(gs), OverCount) == CountGroups(gs, IsOver)
    ensures Sum(OverRowsOf(gs), RowLiters) == SumGroups(gs, LitersOf)
  {
    if gs != [] {
      CountColumnOfRows(gs[1..]);
      assert OverRowsOf(gs)[1..] == OverRowsOf(gs[1..]);
    }
  }

  /** Dropping rows with a zero count leaves the count total unchanged. */
  lemma {:induction false} DropNoOverKeepsCount(t: seq<OverRow>)
    ensures CountColumn(DropNoOver(t), OverCount) == CountColumn(t, OverCount)
  {
    if t != [] {
      DropNoOverKeepsCount(t[1..]);
    }
  }

  /** The table's counts, after the zero-count rows are dropped, add up to
      the overconsumption count of the headline; before the drop the liter
      sums add up to the liters of the whole table. */
  lemma OverTableAddsUp(df: seq<Txn>, key: KeyColumn)
    ensures CountColumn(KeptTable(df, key), OverCount) == OverconsumptionCount(df)
    ensures Sum(OverTable(df, key), RowLiters) == Sum(df, LitersOf)
  {
    CountColumnOfRows(GroupBy(df, key));
    GroupByCountsAddUp(df, key, IsOver);
    GroupBySumsAddUp(df, key, LitersOf);
    DropNoOverKeepsCount(OverTable(df, key));
  }

  /** `t['Overconsumption Liter'].round(decimals)`. */
  function RoundLiters(t: seq<OverRow>, decimals: nat): (r: seq<OverRow>)
    ensures |r| == |t|
    ensures forall i :: 0 <= i < |t| ==>
      && r[i].key == t[i].key && r[i].count == t[i].count
      && t[i].liters - 0.5 / Scale(decimals) <= r[i].liters <= t[i].liters + 0.5 / Scale(decimals)
  {
    if t == [] then []
    else [t[0].(liters := Round(t[0].liters, decimals))] + RoundLiters(t[1..], decimals)
  }

  /** The table by category: the kept rows with their liters rounded to
      whole liters. Exactly the categories with a transaction above its limit
      appear, each once, in ascending order, with its count and its liter sum
      to within half a liter. */
  function CategoryTable(df: seq<Txn>): (t: seq<OverRow>)
    ensures forall i, j :: 0 <= i < j < |t| ==> Below(t[i].key, t[j].key)
    ensures forall i :: 0 <= i < |t| ==>
      && 1 <= t[i].count == Count(Rows(df, Category, t[i].key), IsOver)
      && Sum(Rows(df, Category, t[i].key), LitersOf) - 0.5 <= t[i].liters
      && t[i].liters <= Sum(Rows(df, Category, t[i].key), LitersOf) + 0.5
    ensures forall x :: x in df && IsOver(x) ==> exists i :: 0 <= i < |t| && t[i].key == KeyOf(x, Category)
  {
    var kept := KeptTable(df, Category);
    var t := RoundLiters(kept, 0);
    assert Scale(0) == 1.0;
    RoundedCover(df, Category, kept, t);
    t
  }

  /** Rows that keep their keys index by index cover the same transactions. */
  lemma RoundedCover(df: seq<Txn>, key: KeyColumn, kept: seq<OverRow>, t: seq<OverRow>)
    requires |t| == |kept| && forall i :: 0 <= i < |kept| ==> t[i].key == kept[i].key
    requires forall x :: x in df && IsOver(x) ==> exists i :: 0 <= i < |kept| && kept[i].key == KeyOf(x, key)
    ensures forall x :: x in df && IsOver(x) ==> exists i :: 0 <= i < |t| && t[i].key == KeyOf(x, key)
  {
    forall x | x in df && IsOver(x) ensures exists i :: 0 <= i < |t| && t[i].key == KeyOf(x, key) {
      var i :| 0 <= i < |kept| && kept[i].key == KeyOf(x, key);
      assert t[i].key == KeyOf(x, key);
    }
  }

  /** A row of the table by plate, with its 'Tnx Weight'. */
  datatype WeightRow = WeightRow(key: string, count: nat, liters: real, weight: real)

  /** A row whose count is at least one and whose weight times its count
      gives back its liters. */
  predicate Weighted(row: WeightRow)
  {
    row.count >= 1 && row.weight * row.count as real == row.liters
  }

  /** `liters / count` per row; every row has a count of at least one, so the
      weight is always defined, and weight times count gives back the liters. */
  function Weigh(t: seq<OverRow>): (r: seq<WeightRow>)
    requires forall i :: 0 <= i < |t| ==> t[i].count >= 1
    ensures |r| == |t|
    ensures forall i :: 0 <= i < |t| ==>
      r[i].key == t[i].key && r[i].count == t[i].count && r[i].liters == t[i].liters && Weighted(r[i])
  {
    if t == [] then []
    else [WeightRow(t[0].key, t[0].count, t[0].liters, t[0].liters / t[0].count as real)] + Weigh(t[1..])
  }

  /** The table by plate: the kept rows with their liters rounded to two
      decimals, then 'Tnx Weight' as liters per counted transaction. Exactly
      the plates with a transaction above its limit appear, each once, in
      ascending order, with its count and its liter sum to within half a
      hundredth. */
  function PlateTable(df: seq<Txn>): (r: seq<WeightRow>)
    ensures forall i, j :: 0 <= i < j < |r| ==> Below(r[i].key, r[j].key)
    ensures forall i :: 0 <= i < |r| ==>
      && Weighted(r[i])
      && r[i].count == Count(Rows(df, Plate, r[i].key), IsOver)
      && Sum(Rows(df, Plate, r[i].key), LitersOf) - 0.005 <= r[i].liters
      && r[i].liters <= Sum(Rows(df, Plate, r[i].key), LitersOf) + 0.005
    ensures forall x :: x in df && IsOver(x) ==> exists i :: 0 <= i < |r| && r[i].key == KeyOf(x, Plate)
  {
    var kept := KeptTable(df, Plate);
    var rounded := RoundLiters(kept, 2);
    assert Scale(2) == 100.0;
    var r := Weigh(rounded);
    WeighedCover(df, Plate, kept, r);
    r
  }

  /** Weighed rows that keep their keys index by index cover the same
      transactions. */
  lemma WeighedCover(df: seq<Txn>, key: KeyColumn, kept: seq<OverRow>, r: seq<WeightRow>)
    requires |r| == |kept| && forall i :: 0 <= i < |kept| ==> r[i].key == kept[i].key
    requires forall x :: x in df && IsOver(x) ==> exists i :: 0 <= i < |kept| && kept[i].key == KeyOf(x, key)
    ensures forall x :: x in df && IsOver(x) ==> exists i :: 0 <= i < |r| && r[i].key == KeyOf(x, key)
  {
    forall x | x in df && IsOver(x) ensures exists i :: 0 <= i < |r| && r[i].key == KeyOf(x, key) {
      var i :| 0 <= i < |kept| && kept[i].key == KeyOf(x, key);
      assert r[i].key == KeyOf(x, key);
    }
  }

  /** Rounding the liters keeps the count column. */
  lemma {:induction false} RoundLitersKeepsCount(t: seq<OverRow>, decimals: nat)
    ensures CountColumn(RoundLiters(t, decimals), OverCount) == CountColumn(t, OverCount)
  {
    if t != [] {
      RoundLitersKeepsCount(t[1..], decimals);
      assert RoundLiters(t, decimals)[1..] == RoundLiters(t[1..], decimals);
    }
  }

  function WeightCount(row: WeightRow): nat { row.count }

  /** Adding the weight column keeps the count column. */
  lemma {:induction false} WeighKeepsCount(t: seq<OverRow>)
    requires forall i :: 0 <= i < |t| ==> t[i].count >= 1
    ensures CountColumn(Weigh(t), WeightCount) == CountColumn(t, OverCount)
  {
    if t != [] {
      WeighKeepsCount(t[1..]);
      assert Weigh(t)[1..] == Weigh(t[1..]);
    }
  }

  /** Both tables account for every transaction above its limit: the counts
      of each add up to the headline's overconsumption count. */
  lemma TablesAddUp(df: seq<Txn>)
    ensures CountColumn(CategoryTable(df), OverCount) == OverconsumptionCount(df)
    ensures CountColumn(PlateTable(df), WeightCount) == OverconsumptionCount(df)
  {
    OverTableAddsUp(df, Category);
    OverTableAddsUp(df, Plate);
    RoundLitersKeepsCount(KeptTable(df, Category), 0);
    var rounded := RoundLiters(KeptTable(df, Plate), 2);
    RoundLitersKeepsCount(KeptTable(df, Plate), 2);
    WeighKeepsCount(rounded);
  }

  /** `np.round` on the three plotted columns: the chart shows liters and
      weight rounded to whole numbers; the count column holds whole numbers
      already, which `np.round` leaves unchanged. */
  function ChartRows(t: seq<WeightRow>): (r: seq<WeightRow>)
    ensures |r| == |t|
    ensures forall i :: 0 <= i < |t| ==>
      && r[i].key == t[i].key && r[i].count == t[i].count
      && t[i].liters - 0.5 <= r[i].liters <= t[i].liters + 0.5
      && t[i].weight - 0.5 <= r[i].weight <= t[i].weight + 0.5
  {
    if t == [] then []
    else [t[0].(liters := Round(t[0].liters, 0), weight := Round(t[0].weight, 0))] + ChartRows(t[1..])
  }

  datatype OverconsumptionView = OverconsumptionView(
    headline: Headline,
    byCategory: seq<OverRow>,
    byPlate: seq<WeightRow>,
    chart: seq<WeightRow>)

  /** What the page computes: the headline numbers, the two tables and the
      chart, so that each part carries the promises of its own function (the
      percentage's value, the counts, the liters within their rounding, the
      weights, ascending keys, the chart's keys and counts those of the
      table by plate). How the counts agree across the parts is stated by
      HeadlineAgrees. */
  function OverconsumptionPage(df: seq<Txn>): (v: OverconsumptionView)
    ensures v.headline == Headlines(df)
    ensures v.byCategory == CategoryTable(df) && v.byPlate == PlateTable(df)
    ensures v.chart == ChartRows(v.byPlate)
  {
    var byPlate := PlateTable(df);
    OverconsumptionView(Headlines(df), CategoryTable(df), byPlate, ChartRows(byPlate))
  }

  /** On the page, the headline counts are those of the loaded table, and
      both tables' counts add up to the headline's overconsumption count. */
  lemma HeadlineAgrees(df: seq<Txn>, v: OverconsumptionView)
    requires v.headline == Headlines(df)
    requires v.byCategory == CategoryTable(df) && v.byPlate == PlateTable(df)
    ensures v.headline.total == |df|
    ensures v.headline.over == Count(df, IsOver)
    ensures CountColumn(v.byCategory, OverCount) == v.headline.over
    ensures CountColumn(v.byPlate, WeightCount) == v.headline.over
  {
    TablesAddUp(df);
  }
}
