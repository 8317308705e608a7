/** pandas' `groupby(key)`: one group per distinct key, groups in ascending
    key order (pandas sorts the keys by default), the rows of each group in
    their original order. */
module Grouping {
  import opened Records
  import opened Series

  /** Python's `<` on strings: lexicographic by code point, a proper prefix
      coming first. It is strict: no string is below itself, so ascending
      keys are pairwise distinct. */
  function Below(a: string, b: string): (r: bool)
    ensures r ==> a != b
  {
    if a == [] then b != []
    else b != [] && (a[0] < b[0] || (a[0] == b[0] && Below(a[1..], b[1..])))
  }

  /** A proper prefix sorts first ("ab" < "abc"). */
  lemma {:induction false} BelowPrefix(a: string, b: string)
    requires |a| < |b| && a == b[..|a|]
    ensures Below(a, b)
  {
    if a != [] {
      assert a[1..] == b[1..][..|a| - 1];
      BelowPrefix(a[1..], b[1..]);
    }
  }

  lemma {:induction false} BelowTransitive(a: string, b: string, c: string)
    requires Below(a, b) && Below(b, c)
    ensures Below(a, c)
  {
    if a != [] && a[0] == b[0] && b[0] == c[0] {
      BelowTransitive(a[1..], b[1..], c[1..]);
    }
  }

  /** Any two different strings are ordered one way or the other. */
  lemma {:induction false} BelowTotal(a: string, b: string)
    ensures a == b || Below(a, b) || Below(b, a)
  {
    if a != [] && b != [] && a[0] == b[0] {
      assert a == [a[0]] + a[1..] && b == [b[0]] + b[1..];
      BelowTotal(a[1..], b[1..]);
    }
  }

  /** Strictly ascending keys, hence pairwise distinct ones. */
  predicate Ascending(ks: seq<string>)
  {
    forall i, j :: 0 <= i < j < |ks| ==> Below(ks[i], ks[j])
  }

  lemma AscendingPrepend(k: string, ks: seq<string>)
    requires Ascending(ks)
    requires forall y :: y in ks ==> Below(k, y)
    ensures Ascending([k] + ks)
  {
    var r := [k] + ks;
    forall i, j | 0 <= i < j < |r| ensures Below(r[i], r[j]) {
      assert r[j] == ks[j - 1] && ks[j - 1] in ks;
      if i > 0 {
        assert r[i] == ks[i - 1];
      }
    }
  }

  /** Adds a key to an ascending list of keys, unless it is already there. */
  function InsertKey(k: string, ks: seq<string>): (r: seq<string>)
    requires Ascending(ks)
    ensures Ascending(r)
    ensures forall x :: x in r <==> x == k || x in ks
  {
    if ks == [] then [k]
    else if k == ks[0] then ks
    else if Below(k, ks[0]) then
      assert forall y :: y in ks ==> Below(k, y) by {
        forall y | y in ks ensures Below(k, y) {
          var j :| 0 <= j < |ks| && ks[j] == y;
          if j > 0 {
            BelowTransitive(k, ks[0], ks[j]);
          }
        }
      }
      AscendingPrepend(k, ks);
      [k] + ks
    else
      BelowTotal(k, ks[0]);
      assert ks == [ks[0]] + ks[1..];
      var rest := InsertKey(k, ks[1..]);
      assert forall y :: y in rest ==> Below(ks[0], y) by {
        forall y | y in rest ensures Below(ks[0], y) {
          if y != k {
            var j :| 0 <= j < |ks[1..]| && ks[1..][j] == y;
            assert ks[j + 1] == y;
          }
        }
      }
      AscendingPrepend(ks[0], rest);
      [ks[0]] + rest
  }

  /** The distinct keys of the rows, ascending. */
  function GroupKeys(rs: seq<Txn>, key: KeyColumn): (ks: seq<string>)
    ensures Ascending(ks)
    ensures forall x :: x in ks <==> exists t :: t in rs && KeyOf(t, key) == x
  {
    if rs == [] then []
    else
      assert rs == [rs[0]] + rs[1..];
      InsertKey(KeyOf(rs[0], key), GroupKeys(rs[1..], key))
  }

  /** The rows whose key is `k`, in order: one group's rows. */
  function Rows(rs: seq<Txn>, key: KeyColumn, k: string): seq<Txn>
  {
    Filter(rs, t => KeyOf(t, key) == k)
  }

  /** The rows whose key is not `k`, in order. */
  function Others(rs: seq<Txn>, key: KeyColumn, k: string): seq<Txn>
  {
    Filter(rs, t => KeyOf(t, key) != k)
  }

  datatype Group = Group(key: string, rows: seq<Txn>)

  function Groups(rs: seq<Txn>, key: KeyColumn, ks: seq<string>): (gs: seq<Group>)
    ensures |gs| == |ks|
    ensures forall i :: 0 <= i < |ks| ==> gs[i] == Group(ks[i], Rows(rs, key, ks[i]))
  {
    if ks == [] then [] else [Group(ks[0], Rows(rs, key, ks[0]))] + Groups(rs, key, ks[1..])
  }

  /** `groupby(key)`: the groups come in strictly ascending key order (so no
      key has two groups), every group is non-empty and holds exactly the
      rows with its key, and every row's key has a group. */
  function GroupBy(rs: seq<Txn>, key: KeyColumn): (gs: seq<Group>)
    ensures forall i, j :: 0 <= i < j < |gs| ==> Below(gs[i].key, gs[j].key)
    ensures forall i :: 0 <= i < |gs| ==> gs[i].rows == Rows(rs, key, gs[i].key) && gs[i].rows != []
    ensures forall t :: t in rs ==> exists i :: 0 <= i < |gs| && gs[i].key == KeyOf(t, key)
  {
    var ks := GroupKeys(rs, key);
    var gs := Groups(rs, key, ks);
    assert forall i :: 0 <= i < |gs| ==> gs[i].rows != [] by {
      forall i | 0 <= i < |gs| ensures gs[i].rows != [] {
        assert ks[i] in ks;
        var t :| t in rs && KeyOf(t, key) == ks[i];
        assert t in gs[i].rows;
      }
    }
    assert forall t :: t in rs ==> exists i :: 0 <= i < |gs| && gs[i].key == KeyOf(t, key) by {
      forall t | t in rs ensures exists i :: 0 <= i < |gs| && gs[i].key == KeyOf(t, key) {
        assert KeyOf(t, key) in ks;
        var i :| 0 <= i < |ks| && ks[i] == KeyOf(t, key);
        assert gs[i].key == KeyOf(t, key);
      }
    }
    gs
  }

  /** A column total taken group by group. */
  function SumGroups(gs: seq<Group>, f: Txn -> real): real
  {
    if gs == [] then 0.0 else Sum(gs[0].rows, f) + SumGroups(gs[1..], f)
  }

  /** A non-null count taken group by group. */
  function CountGroups(gs: seq<Group>, p: Txn -> bool): nat
  {
    if gs == [] then 0 else Count(gs[0].rows, p) + CountGroups(gs[1..], p)
  }

  lemma {:induction false} SplitSum(rs: seq<Txn>, key: KeyColumn, k: string, f: Txn -> real)
    ensures Sum(rs, f) == Sum(Rows(rs, key, k), f) + Sum(Others(rs, key, k), f)
  {
    if rs != [] {
      SplitSum(rs[1..], key, k, f);
    }
  }

  lemma {:induction false} SplitCount(rs: seq<Txn>, key: KeyColumn, k: string, p: Txn -> bool)
    ensures Count(rs, p) == Count(Rows(rs, key, k), p) + Count(Others(rs, key, k), p)
  {
    if rs != [] {
      SplitCount(rs[1..], key, k, p);
    }
  }

  /** Setting aside the rows of key `k` leaves every other group as it was. */
  lemma {:induction false} RowsOfOthers(rs: seq<Txn>, key: KeyColumn, k: string, k2: string)
    requires k != k2
    ensures Rows(Others(rs, key, k), key, k2) == Rows(rs, key, k2)
  {
    if rs != [] {
      RowsOfOthers(rs[1..], key, k, k2);
    }
  }

  lemma {:induction false} GroupsOfOthers(rs: seq<Txn>, key: KeyColumn, k: string, ks: seq<string>)
    requires k !in ks
    ensures Groups(Others(rs, key, k), key, ks) == Groups(rs, key, ks)
  {
    if ks != [] {
      RowsOfOthers(rs, key, k, ks[0]);
      GroupsOfOthers(rs, key, k, ks[1..]);
    }
  }

  /** Rows whose keys are all among `ks` exist only if some key does. */
  lemma KeysAmong(rs: seq<Txn>, key: KeyColumn, ks: seq<string>)
    requires forall t :: t in rs ==> KeyOf(t, key) in ks
    ensures rs != [] ==> ks != []
  {
    if rs != [] {
      assert KeyOf(rs[0], key) in ks;
    }
  }

  /** The first key of an ascending list is not among the others, and the
      rows of other keys all have keys among the others. */
  lemma PeelKey(rs: seq<Txn>, key: KeyColumn, ks: seq<string>)
    requires ks != [] && Ascending(ks)
    requires forall t :: t in rs ==> KeyOf(t, key) in ks
    ensures ks[0] !in ks[1..] && Ascending(ks[1..])
    ensures forall t :: t in Others(rs, key, ks[0]) ==> KeyOf(t, key) in ks[1..]
  {
    assert ks == [ks[0]] + ks[1..];
    forall t | t in Others(rs, key, ks[0]) ensures KeyOf(t, key) in ks[1..] {
      assert KeyOf(t, key) in ks;
    }
  }

  lemma {:induction false} GroupSumsAddUp(rs: seq<Txn>, key: KeyColumn, ks: seq<string>, f: Txn -> real)
    requires Ascending(ks)
    requires forall t :: t in rs ==> KeyOf(t, key) in ks
    ensures SumGroups(Groups(rs, key, ks), f) == Sum(rs, f)
    decreases ks
  {
    if ks == [] {
      KeysAmong(rs, key, ks);
    } else {
      PeelKey(rs, key, ks);
      SplitSum(rs, key, ks[0], f);
      GroupSumsAddUp(Others(rs, key, ks[0]), key, ks[1..], f);
      GroupsOfOthers(rs, key, ks[0], ks[1..]);
      assert Groups(rs, key, ks)[1..] == Groups(rs, key, ks[1..]);
    }
  }

  lemma {:induction false} GroupCountsAddUp(rs: seq<Txn>, key: KeyColumn, ks: seq<string>, p: Txn -> bool)
    requires Ascending(ks)
    requires forall t :: t in rs ==> KeyOf(t, key) in ks
    ensures CountGroups(Groups(rs, key, ks), p) == Count(rs, p)
    decreases ks
  {
    if ks == [] {
      KeysAmong(rs, key, ks);
    } else {
      PeelKey(rs, key, ks);
      SplitCount(rs, key, ks[0], p);
      GroupCountsAddUp(Others(rs, key, ks[0]), key, ks[1..], p);
      GroupsOfOthers(rs, key, ks[0], ks[1..]);
      assert Groups(rs, key, ks)[1..] == Groups(rs, key, ks[1..]);
    }
  }

  /** Per-group sums of any column add up to the column's total. */
  lemma GroupBySumsAddUp(rs: seq<Txn>, key: KeyColumn, f: Txn -> real)
    ensures SumGroups(GroupBy(rs, key), f) == Sum(rs, f)
  {
    GroupSumsAddUp(rs, key, GroupKeys(rs, key), f);
  }

  /** Per-group non-null counts add up to the count over all rows. */
  lemma GroupByCountsAddUp(rs: seq<Txn>, key: KeyColumn, p: Txn -> bool)
    ensures CountGroups(GroupBy(rs, key), p) == Count(rs, p)
  {
    GroupCountsAddUp(rs, key, GroupKeys(rs, key), p);
  }

  /** One row of `groupby(key).agg({'Fuel Qty': 'sum', 'ODO Diff': 'sum'})`. */
  datatype Totals = Totals(key: string, fuel: real, odo: real)

  function TotalFuel(t: Totals): real { t.fuel }

  function TotalOdo(t: Totals): real { t.odo }

  function TotalsOf(gs: seq<Group>): (ts: seq<Totals>)
    ensures |ts| == |gs|
    ensures forall i :: 0 <= i < |gs| ==>
      ts[i] == Totals(gs[i].key, Sum(gs[i].rows, FuelOf), Sum(gs[i].rows, OdoOf))
  {
    if gs == [] then [] else [Totals(gs[0].key, Sum(gs[0].rows, FuelOf), Sum(gs[0].rows, OdoOf))] + TotalsOf(gs[1..])
  }

  lemma {:induction false} TotalsColumns(gs: seq<Group>)
    ensures Sum(TotalsOf(gs), TotalFuel) == SumGroups(gs, FuelOf)
    ensures Sum(TotalsOf(gs), TotalOdo) == SumGroups(gs, OdoOf)
  {
    if gs != [] {
      TotalsColumns(gs[1..]);
      assert TotalsOf(gs)[1..] == TotalsOf(gs[1..]);
    }
  }

  /** Fuel and distance totals per key: one row per distinct key, in ascending
      key order, each holding the sums over exactly the rows with its key. */
  function GroupTotals(rs: seq<Txn>, key: KeyColumn): (ts: seq<Totals>)
    ensures forall i, j :: 0 <= i < j < |ts| ==> Below(ts[i].key, ts[j].key)
    ensures forall i :: 0 <= i < |ts| ==>
      && ts[i].fuel == Sum(Rows(rs, key, ts[i].key), FuelOf)
      && ts[i].odo == Sum(Rows(rs, key, ts[i].key), OdoOf)
    ensures forall t :: t in rs ==> exists i :: 0 <= i < |ts| && ts[i].key == KeyOf(t, key)
    ensures forall i :: 0 <= i < |ts| ==> Rows(rs, key, ts[i].key) != []
  {
    var gs := GroupBy(rs, key);
    var ts := TotalsOf(gs);
    TotalsCover(rs, key, gs, ts);
    ts
  }

  /** Totals keep the keys of their groups, so they cover the same rows. */
  lemma TotalsCover(rs: seq<Txn>, key: KeyColumn, gs: seq<Group>, ts: seq<Totals>)
    requires |ts| == |gs| && forall i :: 0 <= i < |gs| ==> ts[i].key == gs[i].key
    requires forall t :: t in rs ==> exists i :: 0 <= i < |gs| && gs[i].key == KeyOf(t, key)
    ensures forall t :: t in rs ==> exists i :: 0 <= i < |ts| && ts[i].key == KeyOf(t, key)
  {
    forall t | t in rs ensures exists i :: 0 <= i < |ts| && ts[i].key == KeyOf(t, key) {
      var i :| 0 <= i < |gs| && gs[i].key == KeyOf(t, key);
      assert ts[i].key == KeyOf(t, key);
    }
  }

  /** The per-key totals add up to the column totals of the input. */
  lemma GroupTotalsAddUp(rs: seq<Txn>, key: KeyColumn)
    ensures Sum(GroupTotals(rs, key), TotalFuel) == Sum(rs, FuelOf)
    ensures Sum(GroupTotals(rs, key), TotalOdo) == Sum(rs, OdoOf)
  {
    TotalsColumns(GroupBy(rs, key));
    GroupBySumsAddUp(rs, key, FuelOf);
    GroupBySumsAddUp(rs, key, OdoOf);
  }
}
