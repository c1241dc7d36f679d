/** Two sums over the stock ledger: the stocktaking report, and the check made with every backup. */
module InventoryReports {
  import opened Common
  import opened Inventory
  import opened InventoryBooks
  import Rows
  import Sorting

  // ---- The stocktaking report ----

  datatype Entry = Entry(initial: int, grossSales: int, cancellations: int, corrections: int)

  datatype ReportLine = ReportLine(entry: Entry, expected: int, actual: int, difference: int)

  const NoEntry := Entry(0, 0, 0, 0)

  function Abs(n: int): int { if n < 0 then -n else n }

  function Add(e: Entry, m: Movement): Entry {
    match m.kind
    case INITIALIZATION => e.(initial := e.initial + m.delta)
    case SALE => e.(grossSales := e.grossSales + Abs(m.delta))
    case CANCELLATION => e.(cancellations := e.cancellations + m.delta)
    case CORRECTION => e.(corrections := e.corrections + m.delta)
  }

  /** What the rows of one stock add up to. */
  function EntryOf(rows: seq<Movement>): Entry {
    Entry(KindTotal(rows, INITIALIZATION), -KindTotal(rows, SALE), KindTotal(rows, CANCELLATION), KindTotal(rows, CORRECTION))
  }

  function LineOf(e: Entry, actual: int): ReportLine {
    var expected := e.initial - e.grossSales + e.cancellations;
    ReportLine(e, expected, actual, actual - expected)
  }

  lemma EntrySnoc(rows: seq<Movement>, m: Movement)
    requires m.kind == SALE ==> m.delta < 0
    ensures EntryOf(rows + [m]) == Add(EntryOf(rows), m)
  {
    assert (rows + [m])[..|rows|] == rows;
  }

  method GetInventoryReport(l: Ledger, event: nat, mode: DataMode) returns (lines: map<Product, ReportLine>)
    requires forall i :: 0 <= i < |l.movements| ==> MovementRowOk(l.movements[i])
    ensures forall p :: p in lines <==> Tracked(l.stocks, StockKey(p, event, mode))
    ensures forall p :: Tracked(l.stocks, StockKey(p, event, mode)) ==>
      var key := StockKey(p, event, mode); p in lines && lines[p] == LineOf(EntryOf(Of(l.movements, key)), l.stocks[key].quantity)
  {
    var ledger: map<Product, Entry> := map[];
    for i := 0 to |l.movements|
      invariant forall p :: (if p in ledger then ledger[p] else NoEntry) == EntryOf(Of(l.movements[..i], StockKey(p, event, mode)))
    {
      var m := l.movements[i];
      forall p ensures Of(l.movements[..i + 1], StockKey(p, event, mode)) ==
                       if m.key == StockKey(p, event, mode) then Of(l.movements[..i], StockKey(p, event, mode)) + [m]
                       else Of(l.movements[..i], StockKey(p, event, mode))
      {
        Rows.Snoc(KeyOf, l.movements[..i], m, StockKey(p, event, mode));
        assert l.movements[..i] + [m] == l.movements[..i + 1];
      }
      if m.key.event == event && m.key.mode == mode {
        assert m.key == StockKey(m.key.product, event, mode);
        EntrySnoc(Of(l.movements[..i], m.key), m);
        ledger := ledger[m.key.product := Add(if m.key.product in ledger then ledger[m.key.product] else NoEntry, m)];
      }
    }
    assert l.movements[..|l.movements|] == l.movements;
    lines := map key | key in l.stocks && l.stocks[key].tracked && key.event == event && key.mode == mode ::
      key.product := LineOf(if key.product in ledger then ledger[key.product] else NoEntry, l.stocks[key].quantity);
    forall p ensures p in lines <==> Tracked(l.stocks, StockKey(p, event, mode)) {
      if p in lines { var key :| key in l.stocks && l.stocks[key].tracked && key.event == event && key.mode == mode && key.product == p; assert key == StockKey(p, event, mode); }
      if Tracked(l.stocks, StockKey(p, event, mode)) { assert StockKey(p, event, mode).product == p; }
    }
  }

  /** In every run, the difference a report shows is exactly what was corrected by hand. */
  lemma DifferenceIsCorrected(events: seq<Event>, key: StockKey)
    requires key in Run(Empty, events).stocks
    ensures var l := Run(Empty, events);
            var line := LineOf(EntryOf(Of(l.movements, key)), l.stocks[key].quantity);
            && line.difference == line.entry.corrections
            && line.entry.initial == l.stocks[key].initial
            && line.entry.grossSales - line.entry.cancellations == OpenSold(Of(l.movements, key), Of(l.movements, key))
  {
    RunKeepsBooks(Empty, events);
    var l := Run(Empty, events);
    var rows := Of(l.movements, key);
    assert AccountOk(l.stocks[key], rows);
    OfApart(l.movements, key);
    ChainBalances(rows);
    ChainIsSum(rows);
    OnlyOpening(rows);
  }

  lemma {:induction false} OnlyOpening(rows: seq<Movement>)
    requires rows != [] && Chained(rows)
    ensures KindTotal(rows, INITIALIZATION) == rows[0].after
    decreases |rows|
  {
    var front := rows[..|rows| - 1];
    if front == [] { assert KindTotal(front, INITIALIZATION) == 0; } else { OnlyOpening(front); }
  }

  // ---- The sum check of a backup ----

  function QuantityIn(mode: DataMode): ((StockKey, Stock)) -> int {
    (row: (StockKey, Stock)) => if row.0.mode == mode then row.1.quantity else 0
  }

  function DeltaIn(mode: DataMode): Movement -> int {
    (m: Movement) => if m.key.mode == mode then m.delta else 0
  }

  /** Adding both tables up and comparing: false is the error that stops a backup. */
  method QuantitiesMatch(rows: seq<(StockKey, Stock)>, ms: seq<Movement>, mode: DataMode) returns (ok: bool)
    ensures ok <==> Sorting.SumBy(QuantityIn(mode), rows) == Sorting.SumBy(DeltaIn(mode), ms)
  {
    var stocked, moved := 0, 0;
    for i := 0 to |rows|
      invariant stocked + Sorting.SumBy(QuantityIn(mode), rows[i..]) == Sorting.SumBy(QuantityIn(mode), rows)
    {
      assert rows[i..][1..] == rows[i + 1..];
      if rows[i].0.mode == mode { stocked := stocked + rows[i].1.quantity; }
    }
    for i := 0 to |ms|
      invariant moved + Sorting.SumBy(DeltaIn(mode), ms[i..]) == Sorting.SumBy(DeltaIn(mode), ms)
    {
      assert ms[i..][1..] == ms[i + 1..];
      if ms[i].key.mode == mode { moved := moved + ms[i].delta; }
    }
    return stocked == moved;
  }

  ghost predicate KeysApart(rows: seq<(StockKey, Stock)>) {
    forall i, j :: 0 <= i < j < |rows| ==> rows[i].0 != rows[j].0
  }

  ghost predicate HasKey(rows: seq<(StockKey, Stock)>, key: StockKey) {
    exists i :: 0 <= i < |rows| && rows[i].0 == key
  }

  lemma {:induction false} ChainTotal(rows: seq<Movement>, mode: DataMode, k: nat)
    requires Chained(rows) && k < |rows| && forall i :: 0 <= i < |rows| ==> rows[i].key.mode == mode
    ensures Sorting.SumBy(DeltaIn(mode), rows[k..]) == rows[|rows| - 1].after - rows[k].before
    decreases |rows| - k
  {
    assert rows[k..][1..] == rows[k + 1..];
    if k + 1 < |rows| { ChainTotal(rows, mode, k + 1); } else { assert rows[k + 1..] == []; }
  }

  lemma {:induction false} OtherModeTotal(rows: seq<Movement>, mode: DataMode)
    requires forall i :: 0 <= i < |rows| ==> rows[i].key.mode != mode
    ensures Sorting.SumBy(DeltaIn(mode), rows) == 0
  {
    if rows != [] { OtherModeTotal(rows[1..], mode); }
  }

  lemma StockIsItsTotal(l: Ledger, key: StockKey, mode: DataMode)
    requires Books(l) && key in l.stocks
    ensures Rows.PerAccount(KeyOf, DeltaIn(mode), l.movements)(key) == QuantityIn(mode)((key, l.stocks[key]))
  {
    var rows := Of(l.movements, key);
    assert AccountOk(l.stocks[key], rows);
    Rows.Members(KeyOf, l.movements, key);
    if key.mode == mode {
      ChainTotal(rows, mode, 0);
      assert rows[0..] == rows;
    } else {
      OtherModeTotal(rows, mode);
    }
  }

  function KeyOfRow(row: (StockKey, Stock)): StockKey { row.0 }

  ghost predicate ListsStocks(l: Ledger, rows: seq<(StockKey, Stock)>) {
    && KeysApart(rows)
    && (forall i :: 0 <= i < |rows| ==> rows[i].0 in l.stocks && l.stocks[rows[i].0] == rows[i].1)
    && (forall key :: key in l.stocks ==> HasKey(rows, key))
  }

  lemma RowsAreListed(l: Ledger, rows: seq<(StockKey, Stock)>)
    requires RowsKnown(l) && ListsStocks(l, rows)
    ensures Rows.Covers(KeyOf, l.movements, Sorting.Image(KeyOfRow, rows)) && Rows.Distinct(Sorting.Image(KeyOfRow, rows))
  {
    var keys := Sorting.Image(KeyOfRow, rows);
    forall i | 0 <= i < |l.movements| ensures KeyOf(l.movements[i]) in keys {
      assert HasKey(rows, l.movements[i].key);
      var j :| 0 <= j < |rows| && rows[j].0 == l.movements[i].key;
      assert keys[j] == KeyOfRow(rows[j]);
    }
  }

  lemma RowIsItsTotal(l: Ledger, row: (StockKey, Stock), mode: DataMode)
    requires Books(l) && row.0 in l.stocks && l.stocks[row.0] == row.1
    ensures QuantityIn(mode)(row) == Rows.PerAccount(KeyOf, DeltaIn(mode), l.movements)(KeyOfRow(row))
  {
    StockIsItsTotal(l, row.0, mode);
    assert row == (row.0, l.stocks[row.0]);
  }

  lemma StocksAreTheirTotals(l: Ledger, rows: seq<(StockKey, Stock)>, mode: DataMode)
    requires Books(l) && ListsStocks(l, rows)
    ensures Sorting.SumBy(QuantityIn(mode), rows)
         == Sorting.SumBy(Rows.PerAccount(KeyOf, DeltaIn(mode), l.movements), Sorting.Image(KeyOfRow, rows))
  {
    var total := Rows.PerAccount(KeyOf, DeltaIn(mode), l.movements);
    forall i | 0 <= i < |rows| ensures QuantityIn(mode)(rows[i]) == total(KeyOfRow(rows[i])) {
      RowIsItsTotal(l, rows[i], mode);
    }
    Sorting.SumOfImage(QuantityIn(mode), KeyOfRow, total, rows);
  }

  lemma BooksAddUp(l: Ledger, rows: seq<(StockKey, Stock)>, mode: DataMode)
    requires Books(l) && ListsStocks(l, rows)
    ensures Sorting.SumBy(QuantityIn(mode), rows) == Sorting.SumBy(DeltaIn(mode), l.movements)
  {
    RowsAreListed(l, rows);
    StocksAreTheirTotals(l, rows, mode);
    Rows.AccountsAddUp(KeyOf, DeltaIn(mode), l.movements, Sorting.Image(KeyOfRow, rows));
  }

  /** In every run, however the two tables are listed, the sum check of a backup passes. */
  lemma SumCheckNeverFails(events: seq<Event>, rows: seq<(StockKey, Stock)>, ms: seq<Movement>, mode: DataMode)
    requires multiset(ms) == multiset(Run(Empty, events).movements) && ListsStocks(Run(Empty, events), rows)
    ensures Sorting.SumBy(QuantityIn(mode), rows) == Sorting.SumBy(DeltaIn(mode), ms)
  {
    RunKeepsBooks(Empty, events);
    BooksAddUp(Run(Empty, events), rows, mode);
    Sorting.SumIgnoresOrder(DeltaIn(mode), ms, Run(Empty, events).movements);
  }
}
