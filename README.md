# Fuel transaction dashboard: a verified model of its computations

The dashboard reads a table of fuel transactions. Each row has a
transaction id, a plate identifier ('Plate #', held as text), an
equipment category ('Long Description'), a fuel quantity, an odometer
difference, a fuel-consumption figure ('Txn FCU') and two
overconsumption cells, which are empty when the transaction stayed within
its limit. It shows three pages:

- **Overview**: a category dropdown in which "All" keeps every row. It
  shows histograms of 'Txn FCU' and 'Fuel Qty' trimmed to Tukey's fences
  (`iqr_range`: linearly interpolated quartiles, with the lower fence
  clamped at zero). It also shows a per-plate scatter of summed distance
  against summed fuel, keeping only plates whose summed distance is not
  negative, and the points inside both fences that the regression line is
  fitted to.
- **Overconsumption Analysis**: three headline numbers (transactions,
  transactions over their limit, percentage within limits), a table by
  category and a table by plate. The tables hold the count of
  overconsumption cells and the sum of overconsumed liters; groups with a
  zero count are dropped; the liters are rounded; the plate table adds
  'Tnx Weight' = liters / count. There is also a chart of the plate table
  rounded to whole numbers.
- **Consumption by Category**: per category and per plate, fuel and
  distance totals rounded to whole units, and the average consumption
  `liters / (odo / 100)` rounded to two decimals.

The code does assign in place: it resets a table's index (lines 141 and
169) and adds or overwrites whole columns (lines 144, 172, 182, 188-190,
225, 228, 248 and 251). Each such assignment replaces a column by a
function of the old table, row by row, and nothing else holds a reference
to the table. So the model writes these assignments as maps over the rows,
and every page is a function of the rows (`seq<Txn>`) whose properties are
lemmas. Quantities are `real`, counts are `nat`, and nullable cells are
`Option<real>`.

| file | module | models |
|---|---|---|
| `wrappers.dfy` | `Wrappers` | `Option` |
| `records.dfy` | `Records` | the transaction row and its columns |
| `series.dfy` | `Series` | boolean-mask selection, `count()`, `sum()` |
| `quantile.dfy` | `Quantile` | sorting, pandas' linear quantile, `iqr_range` |
| `rounding.dfy` | `Rounding` | numpy's round-half-to-even to `d` decimals |
| `grouping.dfy` | `Grouping` | `groupby(key)` with sorted string keys and per-key sums |
| `overview.dfy` | `Overview` | page 1 |
| `overconsumption.dfy` | `Overconsumption` | page 2 |
| `consumption.dfy` | `Consumption` | page 3 |

On these edge cases the model follows what the code does:

- On an empty column pandas' quantile is NaN, so both fences are NaN.
  Every comparison with NaN is false, so the histogram and the fit points
  become empty. `IqrRange` returns `None` for this case, and `Within` is
  then false. The histogram of an empty selection is only an empty chart,
  but an empty set of fit points makes `np.polyfit` (line 84) raise an
  error. That happens, for instance, when every plate's summed distance is
  negative: the scatter is then empty, its fences are NaN, and no point is
  within them.
- Nothing guards against `lower > upper`. The code filters silently, and
  the proved fact is that this happens exactly when the upper fence is
  negative (`Quantile.IqrRangeFences`).
- A division by zero gives NaN or infinity in pandas, not an error. The
  within-limits percentage and the average consumption are `None` in
  exactly those cases.
- The bound `lower <= Q1 <= Q3 <= upper` holds for columns without
  negative values (`Quantile.NonNegativeColumnFences`). If Q1 is negative,
  the zero clamp puts the lower fence above Q1.

## Model

| member | source | states |
|---|---|---|
| Series.Filter | StreamlitDash.py:46 | a boolean-mask selection keeps exactly the rows that pass the mask, and is never longer than the table |
| Series.FilterMultiplicity | StreamlitDash.py:46 | each passing row is kept as often as it occurs, and a failing row not at all |
| Series.FilterAppend | StreamlitDash.py:46 | selecting from a concatenation is the concatenation of the selections, so row order is kept |
| Series.FilterKeepsOrder | StreamlitDash.py:70 | any pairwise order of the rows (such as ascending plate keys) survives a selection |
| Series.FilterKeepsAll | StreamlitDash.py:70 | a mask that every row passes leaves the table unchanged |
| Series.CountSplit | StreamlitDash.py:114-122 | every row is counted exactly once by a predicate or by its negation |
| Series.Sum | StreamlitDash.py:67 | `sum()` of a column with no negative value is not negative |
| Series.Count | StreamlitDash.py:118 | `dropna().count()` is the length of the table after the empty cells are dropped, and at most the row count |
| Series.SumAppend | StreamlitDash.py:67 | a column sum over two parts of a table is the sum of the parts' sums |
| Quantile.Insert | StreamlitDash.py:18 | inserting into a sorted column keeps it sorted and adds exactly that value |
| Quantile.Sort | StreamlitDash.py:18 | the column pandas orders before taking a quantile is sorted and a permutation of the column |
| Quantile.SortedUnique | StreamlitDash.py:18 | two sorted arrangements of the same values are equal |
| Quantile.SortOfSorted | StreamlitDash.py:18 | sorting an already sorted column changes nothing |
| Quantile.Rank | StreamlitDash.py:18 | the interpolation position `(n-1)·q` lies on the index range |
| Quantile.RankMonotone | StreamlitDash.py:18-19 | a larger fraction gives a later position |
| Quantile.Lerp | StreamlitDash.py:18 | linear interpolation between two ordered values lies between them |
| Quantile.LerpMonotone | StreamlitDash.py:18 | interpolation is monotone in the fraction |
| Quantile.Interpolate | StreamlitDash.py:18 | the interpolated value lies between the values at the floor index and the next index, and between the minimum and maximum |
| Quantile.InterpolateMonotone | StreamlitDash.py:18-19 | a later position never gives a smaller value |
| Quantile.Quantile | StreamlitDash.py:18 | `quantile(q)` lies between the column's minimum and maximum |
| Quantile.QuantileMonotone | StreamlitDash.py:18-19 | `quantile(q1) <= quantile(q2)` whenever `q1 <= q2` |
| Quantile.Q1 | StreamlitDash.py:18 | the first quartile lies between the column's smallest and largest value |
| Quantile.Q3 | StreamlitDash.py:19 | the third quartile is at least the first and at most the column's largest value |
| Quantile.IqrRange | StreamlitDash.py:17-23 | there are no fences exactly when the column is empty (NaN in pandas), and the lower fence is never negative |
| Quantile.Fences | StreamlitDash.py:20-23 | the fences for given quartiles have a non-negative lower fence |
| Quantile.IqrRangeFences | StreamlitDash.py:17-23 | Q1 <= Q3; upper = Q3 + 1.5·IQR >= Q3; lower is 0 or Q1 - 1.5·IQR and at least the latter; lower <= upper exactly when upper >= 0 |
| Quantile.SortedFrom | StreamlitDash.py:18 | every value of the sorted column comes from the column |
| Quantile.NonNegativeColumnFences | StreamlitDash.py:17-23 | for a column without negative values, 0 <= lower <= Q1 <= Q3 <= upper |
| Quantile.SortOrderFree | StreamlitDash.py:18 | sorting forgets the order of its input |
| Quantile.QuartilesOrderFree | StreamlitDash.py:18-19 | the quartiles depend only on the values of the column |
| Quantile.IqrRangeOrderFree | StreamlitDash.py:17-23 | the fences depend only on the values of the column, not on the row order |
| Quantile.QuartilesOfSorted | StreamlitDash.py:18-19 | on a sorted column the quartiles are read off directly |
| Quantile.IqrRangeExample | StreamlitDash.py:17-23 | for fuel quantities 1, 2, 3, 4, 100: Q1 = 2, Q3 = 4, fences (0, 7) |
| Rounding.RoundHalfEven | StreamlitDash.py:144 | a whole number within 1/2 of the input, and even on a tie |
| Rounding.RoundHalfEvenUnique | StreamlitDash.py:144 | these three conditions determine the rounded value, so they specify rounding half to even completely |
| Rounding.RoundHalfEvenWhole | StreamlitDash.py:189 | a whole number rounds to itself |
| Rounding.Scale | StreamlitDash.py:172 | 10^d is at least 1 |
| Rounding.Round | StreamlitDash.py:172 | `round(d)` is within half a unit of the d-th decimal and is a whole number of such units |
| Rounding.RoundAt | StreamlitDash.py:172 | rounding to multiples of 1/s is within 1/(2s) and a whole number of units |
| Rounding.RoundWhole | StreamlitDash.py:189 | a whole number is unchanged by rounding to any number of decimals |
| Rounding.OnlyWholeNear | StreamlitDash.py:189 | the only whole number of units within half a unit of a whole number is that number |
| Rounding.ScaleWhole | StreamlitDash.py:172 | 10^d is a whole number |
| Grouping.Below | StreamlitDash.py:67 | Python's string order, by which groupby sorts its keys, is strict: no key sorts before itself, so ascending keys are distinct |
| Grouping.BelowPrefix | StreamlitDash.py:67 | a proper prefix sorts before the longer key |
| Grouping.BelowTransitive | StreamlitDash.py:67 | the string order of groupby keys is transitive |
| Grouping.BelowTotal | StreamlitDash.py:67 | any two different keys are ordered one way or the other |
| Grouping.InsertKey | StreamlitDash.py:67 | adding a key to an ascending key list keeps it ascending and adds exactly that key |
| Grouping.GroupKeys | StreamlitDash.py:67 | the group keys are ascending and are exactly the keys that occur in the rows |
| Grouping.Groups | StreamlitDash.py:67 | each group holds exactly the rows with its key |
| Grouping.GroupBy | StreamlitDash.py:67 | groups in strictly ascending key order, each non-empty and holding exactly its key's rows, and every row's key has a group |
| Grouping.SplitSum | StreamlitDash.py:67 | a column sum splits into the sum over one key's rows plus the sum over the others |
| Grouping.SplitCount | StreamlitDash.py:132-135 | a count splits into the count over one key's rows plus the count over the others |
| Grouping.GroupBySumsAddUp | StreamlitDash.py:67 | per-group sums add up to the sum over the whole table |
| Grouping.GroupByCountsAddUp | StreamlitDash.py:132-135 | per-group counts add up to the count over the whole table |
| Grouping.TotalsOf | StreamlitDash.py:67 | one totals row per group, holding its key and its fuel and distance sums |
| Grouping.TotalsColumns | StreamlitDash.py:67 | the totals columns add up to the per-group sums |
| Grouping.GroupTotals | StreamlitDash.py:67 | ascending keys, each of which occurs in the rows, each total the sum over exactly its key's rows, and every row's key present |
| Grouping.GroupTotalsAddUp | StreamlitDash.py:67 | the per-plate fuel and distance totals add up to the table's totals |
| Overview.SelectCategory | StreamlitDash.py:42-46 | "All" keeps the table; any other choice keeps exactly the rows of that category |
| Overview.SelectCategoryKeepsOrder | StreamlitDash.py:42-46 | the selection commutes with concatenation, so the original row order is kept |
| Overview.Within | StreamlitDash.py:52 | a value passes both inclusive comparisons only against existing fences that are not crossed; NaN fences pass nothing |
| Overview.MiddleHalfKept | StreamlitDash.py:51-52 | on a column without negative values, every value between the quartiles is within the fences, so the middle half is never trimmed |
| Overview.HistogramRows | StreamlitDash.py:51-52 | a histogram keeps exactly the rows within the column's own fences, each as many times as it occurs in the input, and none of them is negative |
| Overview.HistogramExample | StreamlitDash.py:59-60 | for fuel quantities 1, 2, 3, 4, 100 the histogram keeps the first four rows |
| Overview.KeepFirstFour | StreamlitDash.py:60 | with fences (0, 7) the values 1 to 4 are kept and 100 is dropped |
| Overview.Scatter | StreamlitDash.py:67-70 | the scatter holds exactly the per-plate totals whose summed distance is not negative |
| Overview.FitPoints | StreamlitDash.py:76-81 | exactly the scatter points within both the distance and the fuel fences, each as many times as it occurs in the scatter, all with non-negative coordinates |
| Overview.Overview | StreamlitDash.py:42-81 | each histogram holds exactly the selected rows within that column's fences, each as many times as it is selected; the scatter holds exactly the selection's per-plate totals with a non-negative distance, in ascending plate order; the fit points are exactly the scatter points within both of the scatter's fences, each as many times as it is in the scatter; shown rows are non-negative and of the selected category |
| Overview.ScatterTotals | StreamlitDash.py:67-70 | scatter keys are strictly ascending and distinct, and the per-plate totals add up to the table's totals |
| Overview.ScatterKeepsAll | StreamlitDash.py:67-70 | when no selected transaction has a negative distance, the scatter keeps every plate's totals |
| Overconsumption.TransactionCount | StreamlitDash.py:114 | every transaction is counted, each either above its limit or within it |
| Overconsumption.OverconsumptionCount | StreamlitDash.py:114-118 | the count of non-empty overconsumption cells is at most the transaction count |
| Overconsumption.WithinLimitsPercentage | StreamlitDash.py:122 | defined exactly when there are transactions, in [0, 100], and adds with the overconsumption percentage to exactly 100 |
| Overconsumption.WithinLimitsExample | StreamlitDash.py:122 | 1000 transactions with 150 over the limit give 85 % |
| Overconsumption.Headlines | StreamlitDash.py:114-122 | over is the count of rows above their limit, over <= total = row count; the percentage exists exactly for a non-empty table, lies in [0, 100] and is the share of transactions with an empty overconsumption cell |
| Overconsumption.OverRowsOf | StreamlitDash.py:132-135 | one row per group with its count of overconsumption cells and its liter sum |
| Overconsumption.OverTable | StreamlitDash.py:132-135 | ascending keys, each of which occurs in the table, each row's count and liters taken over exactly that key's transactions, and every transaction's key has a row |
| Overconsumption.OverRowsCover | StreamlitDash.py:132-135 | aggregation rows that keep their groups' keys cover every transaction |
| Overconsumption.DropNoOver | StreamlitDash.py:138 | keeps exactly the rows with a non-zero count |
| Overconsumption.KeptTable | StreamlitDash.py:132-138 | after the drop: ascending keys, each row with count >= 1 and the count and liters of exactly its key's rows, and a row for every key with a transaction above its limit |
| Overconsumption.KeptRows | StreamlitDash.py:138 | a kept row carries the count and liter sum of its key |
| Overconsumption.KeptCover | StreamlitDash.py:138 | the key of a transaction above its limit survives the drop |
| Overconsumption.OverCounted | StreamlitDash.py:132-138 | a transaction above its limit makes its key's count at least one |
| Overconsumption.CountColumnOfRows | StreamlitDash.py:132-135 | the count and liter columns add up to the per-group totals |
| Overconsumption.DropNoOverKeepsCount | StreamlitDash.py:138 | dropping the zero-count rows leaves the count total unchanged |
| Overconsumption.OverTableAddsUp | StreamlitDash.py:118-138 | after the drop the table's counts add up to the headline overconsumption count; before the drop the liters add up to the table's total |
| Overconsumption.RoundLiters | StreamlitDash.py:144 | keys and counts unchanged, liters within half a unit of the d-th decimal |
| Overconsumption.CategoryTable | StreamlitDash.py:132-144 | exactly the categories with a transaction above its limit, ascending, each with its count (>= 1) and its liter sum to within 1/2 |
| Overconsumption.RoundedCover | StreamlitDash.py:144 | rounding keeps the keys, so the rounded table covers the same transactions |
| Overconsumption.Weigh | StreamlitDash.py:182 | weight times count gives back the liters, and the other columns are copied |
| Overconsumption.PlateTable | StreamlitDash.py:159-182 | exactly the plates with a transaction above its limit, ascending, each with its count (>= 1), its liter sum to within 0.005, and weight times count equal to its liters |
| Overconsumption.WeighedCover | StreamlitDash.py:182 | adding the weight keeps the keys, so the plate table covers the same transactions |
| Overconsumption.RoundLitersKeepsCount | StreamlitDash.py:144 | rounding the liters leaves the count column's total unchanged |
| Overconsumption.WeighKeepsCount | StreamlitDash.py:182 | adding the weight leaves the count column's total unchanged |
| Overconsumption.TablesAddUp | StreamlitDash.py:118-182 | the counts of the category table and of the plate table each add up to the headline overconsumption count |
| Overconsumption.ChartRows | StreamlitDash.py:188-190 | the chart keeps keys and counts, with liters and weight within 1/2 of the table's |
| Overconsumption.OverconsumptionPage | StreamlitDash.py:112-196 | the page shows the headline numbers of the loaded table, the category table, the plate table and the chart of the plate table, so each part carries the contract of Headlines, CategoryTable, PlateTable and ChartRows: the percentage's value, the counts, the liters within their rounding, the weights, ascending keys and the chart's values |
| Overconsumption.HeadlineAgrees | StreamlitDash.py:112-182 | on the page, the headline total is the row count and the over count the number of rows above their limit, and the counts of both tables add up to that over count |
| Consumption.Per100 | StreamlitDash.py:225 | the exact average times the distance is 100 times the liters |
| Consumption.AverageConsumption | StreamlitDash.py:225-228 | no average exactly when the distance is zero; otherwise within 0.005 of the exact average |
| Consumption.Per100ScaleFree | StreamlitDash.py:225 | scaling liters and distance by the same positive factor leaves the average unchanged |
| Consumption.Per100Monotone | StreamlitDash.py:225 | more fuel over the same positive distance gives a higher average |
| Consumption.AverageExample | StreamlitDash.py:225-228 | 500 liters over 2500 km give 20.00 |
| Consumption.ConsumptionRowsOf | StreamlitDash.py:216-228 | totals rounded to whole units, keys kept, average computed from the rounded totals |
| Consumption.ConsumptionTable | StreamlitDash.py:213-228 | ascending keys, each of which occurs in the table; liters and distance within 1/2 of the sums over exactly that key's rows; the average is liters / (distance / 100) of the rounded columns rounded to two decimals, present exactly when the rounded distance is not zero; every transaction's key has a row |
| Consumption.RoundsToZero | StreamlitDash.py:216 | a total rounds to zero exactly when it lies in [-1/2, 1/2] |
| Consumption.NoAverageWhenNoDistance | StreamlitDash.py:216-228 | a row has no average exactly when its distance total lies in [-1/2, 1/2] |
| Consumption.RoundedTotals | StreamlitDash.py:216 | rounding every total to a whole unit moves the column totals by at most 1/2 per row |
| Consumption.ConsumptionPage | StreamlitDash.py:213-251 | the category table and the plate table each meet every clause of ConsumptionTable for their key, and each one's liter and distance columns add up to the table's total fuel and distance, to within 1/2 per row |

## Left out

- Streamlit layout, sidebar and page selection, markdown headings, and
  table display (lines 26-30 and every `st.` call) are presentation only.
- Loading and caching the CSV file (lines 8-13) is I/O. The model starts
  from the parsed rows.
- The dropdown's option list (lines 33-36) is UI. The model takes the
  chosen string as a parameter.
- Histogram binning (`nbins=30`), plotly figures, marker styling and the
  x-axis range of the overconsumption chart (line 198) are presentation
  only. The model does not capture that `max` of an empty column raises an
  error there.
- The regression line (lines 84-102, `np.polyfit` and the slope text) is
  floating-point least squares. The model stops at the points the line is
  fitted to (`Overview.FitPoints`). It does not capture that `np.polyfit`
  raises an error when there are no such points.
- Column renames and resetting the index to start at 1 (lines 141-150,
  169-179, 219-222, 242-245) change only labels.
- Rounding.Round: computed exactly on reals. numpy scales binary
  floating-point values, so a decimal tie that is not exactly representable
  in binary can round the other way.
- Consumption.AverageConsumption: float overflow and the difference between
  NaN and plus or minus infinity are not modelled. Both are `None`.
- Every cell except the two overconsumption cells is modelled as present.
  Empty ids, plates, categories, fuel quantities or distances, and pandas
  dropping rows with an empty group key, are not modelled.
- Both key columns, 'Plate #' and 'Long Description', are modelled as text
  and grouped in Python's string order. pandas may read a 'Plate #' column
  of digits only as integers and then order its groups numerically, where
  text order puts "10" before "9". That ordering is not modelled.
- The order of the aggregated columns in the two page-2 tables is a
  display detail and is not modelled.
