/** The transaction record the dashboard reads, one row of the loaded table. */
module Records {
  import opened Wrappers

  /** One fuel transaction. The two overconsumption cells are empty when the
      transaction stayed within its limit. */
  datatype Txn = Txn(
    id: int,                  // 'Transaction Id'
    plate: string,            // 'Plate #'
    category: string,         // 'Long Description'
    fuelQty: real,            // 'Fuel Qty'
    odoDiff: real,            // 'ODO Diff'
    txnFcu: real,             // 'Txn FCU'
    overPct: Option<real>,    // 'Overconsumption %'
    overLiter: Option<real>)  // 'Overconsumption Liter'

  /** The two columns the dashboard groups by. */
  datatype KeyColumn = Plate | Category

  function KeyOf(t: Txn, key: KeyColumn): string
  {
    match key
    case Plate => t.plate
    case Category => t.category
  }

  function FuelOf(t: Txn): real { t.fuelQty }

  function OdoOf(t: Txn): real { t.odoDiff }

  function FcuOf(t: Txn): real { t.txnFcu }

  /** The contribution of a row to a pandas sum of 'Overconsumption Liter':
      a missing cell is skipped, which is the same as adding zero. */
  function LitersOf(t: Txn): real
  {
    match t.overLiter
    case Some(x) => x
    case None => 0.0
  }

  /** A row that pandas' count() of 'Overconsumption %' counts: its cell is not empty. */
  predicate IsOver(t: Txn) { t.overPct.Some? }

  /** A row whose 'Overconsumption %' cell is empty: it stayed within its limit. */
  predicate WithinLimit(t: Txn) { t.overPct.None? }
}
