/**
 * The backup checker's replay of the stock ledger, written without looking at how the rows came
 * about, and the reports that add the same rows up.
 */
module LedgerCheck {
  import opened Common
  import opened Inventory
  import opened InventoryBooks
  import Rows
  import Sorting

  datatype StockRow = StockRow(key: StockKey, stock: Stock)

  /** The two tables as a backup document lists them, in no particular order. */
  datatype Document = Document(stocks: seq<StockRow>, movements: seq<Movement>)

  predicate StockFieldsOk(s: Stock) {
    s.initial >= 0 && s.quantity >= 0 && (!s.tracked ==> s.initial == 0 && s.quantity == 0)
  }

  predicate NumbersOk(m: Movement) {
    m.before >= 0 && m.after >= 0 && m.after == m.before + m.delta && TypeFieldsOk(m)
  }

  /** By time, then id. */
  function Chronological(a: Movement, b: Movement): bool {
    a.createdAt < b.createdAt || (a.createdAt == b.createdAt && a.id <= b.id)
  }

  function IndexOf(rows: seq<Movement>, id: MovementId): (i: int)
    ensures -1 <= i < |rows|
    ensures i >= 0 ==> rows[i].id == id && forall j :: 0 <= j < i ==> rows[j].id != id
    ensures i == -1 ==> forall j :: 0 <= j < |rows| ==> rows[j].id != id
  {
    if rows == [] then -1
    else if rows[0].id == id then 0
    else var i := IndexOf(rows[1..], id); if i == -1 then -1 else i + 1
  }

  // ---- What the checker accepts ----

  ghost predicate HasStock(doc: Document, key: StockKey) {
    exists j :: 0 <= j < |doc.stocks| && doc.stocks[j].key == key && doc.stocks[j].stock.tracked
  }

  predicate Matches(c: Movement, s: Movement) {
    c.reverses == Some(s.id) && s.kind == SALE && s.key == c.key && s.order == c.order && s.item == c.item && s.delta == -c.delta
  }

  ghost predicate MovementAccepted(doc: Document, m: Movement) {
    && HasStock(doc, m.key) && NumbersOk(m)
    && (m.reverses.Some? ==> exists j :: 0 <= j < |doc.movements| && Matches(m, doc.movements[j]))
  }

  predicate StepAccepted(rows: seq<Movement>, i: nat)
    requires i < |rows|
  {
    && rows[i].before == (if i == 0 then 0 else rows[i - 1].after)
    && (i > 0 ==> rows[i].kind != INITIALIZATION)
    && (rows[i].reverses.Some? ==> IndexOf(rows, rows[i].reverses.value) < i)
  }

  ghost predicate ReplayAccepted(stock: Stock, rows: seq<Movement>) {
    if !stock.tracked then rows == []
    else
      && rows != [] && rows[0].kind == INITIALIZATION && rows[0].after == stock.initial
      && (forall i :: 0 <= i < |rows| ==> StepAccepted(rows, i))
      && rows[|rows| - 1].after == stock.quantity
  }

  ghost predicate StocksAccepted(doc: Document) {
    && (forall i :: 0 <= i < |doc.stocks| ==> StockFieldsOk(doc.stocks[i].stock))
    && (forall i, j :: 0 <= i < j < |doc.stocks| ==> doc.stocks[i].key != doc.stocks[j].key)
  }

  ghost predicate IdsAccepted(ms: seq<Movement>) {
    forall i, j :: 0 <= i < j < |ms| ==> ms[i].id != ms[j].id && ms[i].idem != ms[j].idem
  }

  ghost predicate ReversalsAccepted(ms: seq<Movement>) {
    forall i, j :: 0 <= i < j < |ms| && ms[i].reverses.Some? ==> ms[i].reverses != ms[j].reverses
  }

  ghost predicate ReplaysAccepted(doc: Document) {
    forall i :: 0 <= i < |doc.stocks| ==>
      ReplayAccepted(doc.stocks[i].stock, Sorting.Sort(Of(doc.movements, doc.stocks[i].key), Chronological))
  }

  ghost predicate Accepted(doc: Document) {
    && StocksAccepted(doc) && IdsAccepted(doc.movements)
    && (forall i :: 0 <= i < |doc.movements| ==> MovementAccepted(doc, doc.movements[i]))
    && ReversalsAccepted(doc.movements)
    && ReplaysAccepted(doc)
  }

  // ---- The checker ----

  method ValidateStocks(doc: Document) returns (byKey: Option<map<StockKey, Stock>>)
    ensures byKey.Some? <==> StocksAccepted(doc)
    ensures byKey.Some? ==> forall key :: (key in byKey.value && byKey.value[key].tracked) <==> HasStock(doc, key)
  {
    var stocks: map<StockKey, Stock> := map[];
    for i := 0 to |doc.stocks|
      invariant forall j :: 0 <= j < i ==> StockFieldsOk(doc.stocks[j].stock)
      invariant forall j, k :: 0 <= j < k < i ==> doc.stocks[j].key != doc.stocks[k].key
      invariant forall j :: 0 <= j < i ==> doc.stocks[j].key in stocks && stocks[doc.stocks[j].key] == doc.stocks[j].stock
      invariant forall key :: key in stocks ==> exists j :: 0 <= j < i && doc.stocks[j].key == key
    {
      var row := doc.stocks[i];
      if !StockFieldsOk(row.stock) || row.key in stocks { return None; }
      stocks := stocks[row.key := row.stock];
    }
    return Some(stocks);
  }

  method ValidateIds(ms: seq<Movement>) returns (byId: Option<map<MovementId, Movement>>)
    ensures byId.Some? <==> IdsAccepted(ms)
    ensures byId.Some? ==> forall i :: 0 <= i < |ms| ==> ms[i].id in byId.value
    ensures byId.Some? ==> forall id :: id in byId.value ==> byId.value[id].id == id && byId.value[id] in ms
  {
    byId := IndexById(ms);
    if byId.Some? {
      var distinct := KeysDistinct(ms);
      if !distinct { byId := None; }
    }
  }

  method IndexById(ms: seq<Movement>) returns (byId: Option<map<MovementId, Movement>>)
    ensures byId.Some? <==> forall i, j :: 0 <= i < j < |ms| ==> ms[i].id != ms[j].id
    ensures byId.Some? ==> forall i :: 0 <= i < |ms| ==> ms[i].id in byId.value
    ensures byId.Some? ==> forall id :: id in byId.value ==> byId.value[id].id == id && byId.value[id] in ms
  {
    var rows: map<MovementId, Movement> := map[];
    for i := 0 to |ms|
      invariant forall j :: 0 <= j < i ==> ms[j].id in rows
      invariant forall id :: id in rows ==> rows[id].id == id && exists j :: 0 <= j < i && ms[j] == rows[id]
      invariant forall j, k :: 0 <= j < k < i ==> ms[j].id != ms[k].id
    {
      if ms[i].id in rows { return None; }
      rows := rows[ms[i].id := ms[i]];
    }
    return Some(rows);
  }

  method KeysDistinct(ms: seq<Movement>) returns (ok: bool)
    ensures ok <==> forall i, j :: 0 <= i < j < |ms| ==> ms[i].idem != ms[j].idem
  {
    var seen: set<IdempotencyKey> := {};
    for i := 0 to |ms|
      invariant forall j :: 0 <= j < i ==> ms[j].idem in seen
      invariant forall x :: x in seen ==> exists j :: 0 <= j < i && ms[j].idem == x
      invariant forall j, k :: 0 <= j < k < i ==> ms[j].idem != ms[k].idem
    {
      if ms[i].idem in seen { return false; }
      seen := seen + {ms[i].idem};
    }
    return true;
  }

  lemma OfPrefix(ms: seq<Movement>, i: nat)
    requires i < |ms|
    ensures forall key :: Of(ms[..i + 1], key) == if ms[i].key == key then Of(ms[..i], key) + [ms[i]] else Of(ms[..i], key)
  {
    forall key ensures Of(ms[..i + 1], key) == if ms[i].key == key then Of(ms[..i], key) + [ms[i]] else Of(ms[..i], key) {
      Rows.Snoc(KeyOf, ms[..i], ms[i], key);
      assert ms[..i] + [ms[i]] == ms[..i + 1];
    }
  }

  /** The fields of every movement, and that no sale is reversed twice. */
  method ValidateMovements(doc: Document, stocks: map<StockKey, Stock>, byId: map<MovementId, Movement>) returns (ok: bool)
    requires forall key :: (key in stocks && stocks[key].tracked) <==> HasStock(doc, key)
    requires IdsAccepted(doc.movements)
    requires forall i :: 0 <= i < |doc.movements| ==> doc.movements[i].id in byId
    requires forall id :: id in byId ==> byId[id].id == id && byId[id] in doc.movements
    ensures ok <==> (forall i :: 0 <= i < |doc.movements| ==> MovementAccepted(doc, doc.movements[i]))
                    && ReversalsAccepted(doc.movements)
  {
    for i := 0 to |doc.movements|
      invariant forall j :: 0 <= j < i ==> MovementAccepted(doc, doc.movements[j])
    {
      ok := CheckMovement(doc, stocks, byId, doc.movements[i]);
      if !ok { return; }
    }
    ok := ReversedOnce(doc.movements);
  }

  method ReversedOnce(ms: seq<Movement>) returns (ok: bool)
    ensures ok <==> ReversalsAccepted(ms)
  {
    var reversed: set<MovementId> := {};
    for i := 0 to |ms|
      invariant forall j, k :: 0 <= j < k < i && ms[j].reverses.Some? ==> ms[j].reverses != ms[k].reverses
      invariant forall j :: 0 <= j < i && ms[j].reverses.Some? ==> ms[j].reverses.value in reversed
      invariant forall id :: id in reversed ==> exists j :: 0 <= j < i && ms[j].reverses == Some(id)
    {
      if ms[i].reverses.Some? {
        if ms[i].reverses.value in reversed { return false; }
        reversed := reversed + {ms[i].reverses.value};
      }
    }
    return true;
  }

  method GroupByStock(ms: seq<Movement>) returns (lists: map<StockKey, seq<Movement>>)
    ensures forall key :: Of(ms, key) == if key in lists then lists[key] else []
  {
    lists := map[];
    for i := 0 to |ms|
      invariant forall key :: Of(ms[..i], key) == if key in lists then lists[key] else []
    {
      OfPrefix(ms, i);
      var key := ms[i].key;
      lists := lists[key := (if key in lists then lists[key] else []) + [ms[i]]];
    }
    assert ms[..|ms|] == ms;
  }

  method CheckMovement(doc: Document, stocks: map<StockKey, Stock>, byId: map<MovementId, Movement>, m: Movement) returns (ok: bool)
    requires forall key :: (key in stocks && stocks[key].tracked) <==> HasStock(doc, key)
    requires IdsAccepted(doc.movements)
    requires forall i :: 0 <= i < |doc.movements| ==> doc.movements[i].id in byId
    requires forall id :: id in byId ==> byId[id].id == id && byId[id] in doc.movements
    ensures ok <==> MovementAccepted(doc, m)
  {
    if m.key !in stocks || !stocks[m.key].tracked || !NumbersOk(m) { return false; }
    if m.reverses.Some? {
      if m.reverses.value !in byId { return false; }
      var sale := byId[m.reverses.value];
      ghost var k :| 0 <= k < |doc.movements| && doc.movements[k] == sale;
      if !Matches(m, sale) {
        forall j | 0 <= j < |doc.movements| ensures !Matches(m, doc.movements[j]) {
          if doc.movements[j].id == sale.id { assert j == k; }
        }
        return false;
      }
    }
    return true;
  }

  /** Walks one stock's movements in time order with a running quantity. */
  method Replay(stock: Stock, rows: seq<Movement>) returns (ok: bool)
    ensures ok <==> ReplayAccepted(stock, rows)
  {
    if !stock.tracked { return |rows| == 0; }
    if |rows| == 0 || rows[0].kind != INITIALIZATION || rows[0].after != stock.initial { return false; }
    var quantity := 0;
    for i := 0 to |rows|
      invariant quantity == if i == 0 then 0 else rows[i - 1].after
      invariant forall j :: 0 <= j < i ==> StepAccepted(rows, j)
    {
      if rows[i].before != quantity || (i > 0 && rows[i].kind == INITIALIZATION)
         || (rows[i].reverses.Some? && IndexOf(rows, rows[i].reverses.value) >= i) {
        assert !StepAccepted(rows, i);
        return false;
      }
      quantity := rows[i].after;
    }
    return quantity == stock.quantity;
  }

  /** Replays every stock over its own rows. */
  method ReplayAll(doc: Document, lists: map<StockKey, seq<Movement>>) returns (ok: bool)
    requires forall key :: Of(doc.movements, key) == if key in lists then lists[key] else []
    ensures ok <==> ReplaysAccepted(doc)
  {
    for i := 0 to |doc.stocks|
      invariant forall j :: 0 <= j < i ==>
        ReplayAccepted(doc.stocks[j].stock, Sorting.Sort(Of(doc.movements, doc.stocks[j].key), Chronological))
    {
      var row := doc.stocks[i];
      var list := if row.key in lists then lists[row.key] else [];
      assert list == Of(doc.movements, row.key);
      var fine := Replay(row.stock, Sorting.Sort(list, Chronological));
      if !fine { return false; }
    }
    return true;
  }

  method ValidateLedger(doc: Document) returns (ok: bool)
    ensures ok <==> Accepted(doc)
  {
    var stocks := ValidateStocks(doc);
    if stocks.None? { return false; }
    var byId := ValidateIds(doc.movements);
    if byId.None? { return false; }
    var fieldsOk := ValidateMovements(doc, stocks.value, byId.value);
    if !fieldsOk { return false; }
    var lists := GroupByStock(doc.movements);
    ok := ReplayAll(doc, lists);
  }

  // ---- Which reachable ledgers it accepts ----

  ghost predicate Exports(l: Ledger, doc: Document) {
    && multiset(doc.movements) == multiset(l.movements)
    && (forall i, j :: 0 <= i < j < |doc.stocks| ==> doc.stocks[i].key != doc.stocks[j].key)
    && (forall i :: 0 <= i < |doc.stocks| ==> doc.stocks[i].key in l.stocks && l.stocks[doc.stocks[i].key] == doc.stocks[i].stock)
    && (forall key :: key in l.stocks ==> exists i :: 0 <= i < |doc.stocks| && doc.stocks[i].key == key)
  }

  /** The rows of each stock were written in the order that replay puts them in: by time, then id. */
  ghost predicate WrittenInOrder(l: Ledger) { Rows.Increase(KeyOf, Chronological, l.movements) }

  lemma ReplayOrderIsWritingOrder(l: Ledger, doc: Document, key: StockKey)
    requires Exports(l, doc) && WrittenInOrder(l)
    ensures Sorting.Sort(Of(doc.movements, key), Chronological) == Of(l.movements, key)
  {
    Rows.AccountAscends(KeyOf, Chronological, l.movements, key);
    Rows.SortedIsWritten(KeyOf, Chronological, doc.movements, l.movements, key);
  }

  lemma AccountReplays(stock: Stock, rows: seq<Movement>)
    requires AccountOk(stock, rows) && stock.tracked && RowsApart(rows)
    ensures ReplayAccepted(stock, rows)
  {
    forall i | 0 <= i < |rows| ensures StepAccepted(rows, i) {
      if rows[i].reverses.Some? {
        var j :| 0 <= j < i && Undoes(rows[i], rows[j]);
        var k := IndexOf(rows, rows[i].reverses.value);
        assert rows[j].id == rows[i].reverses.value;
      }
    }
  }

  lemma ExportedRowsAreRows(l: Ledger, doc: Document)
    requires Exports(l, doc) && AllApart(l.movements)
    ensures IdsAccepted(doc.movements) && ReversalsAccepted(doc.movements)
    ensures forall i :: 0 <= i < |doc.movements| ==> doc.movements[i] in l.movements
    ensures forall i :: 0 <= i < |l.movements| ==> l.movements[i] in doc.movements
  {
    forall i | 0 <= i < |doc.movements| ensures doc.movements[i] in l.movements {
      assert doc.movements[i] in multiset(l.movements);
    }
    forall i | 0 <= i < |l.movements| ensures l.movements[i] in doc.movements {
      assert l.movements[i] in multiset(doc.movements);
    }
    Sorting.NoDuplicates(l.movements, doc.movements);
    forall i, j | 0 <= i < j < |doc.movements|
      ensures Apart(doc.movements[i], doc.movements[j]) || Apart(doc.movements[j], doc.movements[i])
    {
      var a :| 0 <= a < |l.movements| && l.movements[a] == doc.movements[i];
      var b :| 0 <= b < |l.movements| && l.movements[b] == doc.movements[j];
      if a < b { assert Apart(l.movements[a], l.movements[b]); } else { assert Apart(l.movements[b], l.movements[a]); }
    }
  }

  lemma RowReversesEarlierSale(stock: Stock, rows: seq<Movement>, key: StockKey, m: Movement) returns (sale: Option<Movement>)
    requires AccountOk(stock, rows) && m in rows
    requires forall i :: 0 <= i < |rows| ==> rows[i].key == key
    ensures MovementRowOk(m) && (sale.Some? <==> m.reverses.Some?)
    ensures sale.Some? ==> sale.value in rows && Matches(m, sale.value)
  {
    var i :| 0 <= i < |rows| && rows[i] == m;
    sale := None;
    if m.reverses.Some? {
      var j :| 0 <= j < i && Undoes(rows[i], rows[j]);
      sale := Some(rows[j]);
    }
  }

  lemma StockIsListed(l: Ledger, doc: Document, key: StockKey)
    requires Exports(l, doc) && key in l.stocks && l.stocks[key].tracked
    ensures HasStock(doc, key)
  {
    var j :| 0 <= j < |doc.stocks| && doc.stocks[j].key == key;
    assert doc.stocks[j].stock.tracked;
  }

  lemma ReversalIsListed(l: Ledger, doc: Document, m: Movement)
    requires AccountsOk(l) && m.key in l.stocks && m in l.movements
    requires forall i :: 0 <= i < |l.movements| ==> l.movements[i] in doc.movements
    ensures NumbersOk(m)
    ensures m.reverses.Some? ==> exists j :: 0 <= j < |doc.movements| && Matches(m, doc.movements[j])
  {
    var rows := Of(l.movements, m.key);
    assert AccountOk(l.stocks[m.key], rows);
    Rows.Members(KeyOf, l.movements, m.key);
    var sale := RowReversesEarlierSale(l.stocks[m.key], rows, m.key, m);
    if sale.Some? {
      var k :| 0 <= k < |doc.movements| && doc.movements[k] == sale.value;
      assert Matches(m, doc.movements[k]);
    }
  }

  lemma MovementIsAccepted(l: Ledger, doc: Document, m: Movement)
    requires Books(l) && Exports(l, doc) && m in l.movements && l.stocks[m.key].tracked
    ensures MovementAccepted(doc, m)
  {
    ExportedRowsAreRows(l, doc);
    ReversalIsListed(l, doc, m);
    StockIsListed(l, doc, m.key);
  }

  ghost predicate AllTracked(l: Ledger) {
    forall key :: key in l.stocks ==> l.stocks[key].tracked
  }

  lemma TrackedBooksAreAccepted(l: Ledger, doc: Document)
    requires Books(l) && Exports(l, doc) && WrittenInOrder(l) && AllTracked(l)
    ensures Accepted(doc)
  {
    ExportedRowsAreRows(l, doc);
    forall i | 0 <= i < |doc.stocks|
      ensures StockFieldsOk(doc.stocks[i].stock)
      ensures ReplayAccepted(doc.stocks[i].stock, Sorting.Sort(Of(doc.movements, doc.stocks[i].key), Chronological))
    {
      var key := doc.stocks[i].key;
      assert AccountOk(l.stocks[key], Of(l.movements, key));
      OfApart(l.movements, key);
      ReplayOrderIsWritingOrder(l, doc, key);
      AccountReplays(l.stocks[key], Of(l.movements, key));
    }
    forall i | 0 <= i < |doc.movements| ensures MovementAccepted(doc, doc.movements[i]) {
      MovementIsAccepted(l, doc, doc.movements[i]);
    }
  }

  lemma UntrackedBooksAreRejected(l: Ledger, doc: Document, key: StockKey)
    requires Books(l) && Exports(l, doc) && key in l.stocks && !l.stocks[key].tracked
    ensures !Accepted(doc)
  {
    ExportedRowsAreRows(l, doc);
    assert AccountOk(l.stocks[key], Of(l.movements, key));
    Rows.Members(KeyOf, l.movements, key);
    var m := Of(l.movements, key)[0];
    var i :| 0 <= i < |doc.movements| && doc.movements[i] == m;
    assert !HasStock(doc, key);
    assert !MovementAccepted(doc, doc.movements[i]);
  }

  /** Whatever was booked, sold, cancelled, corrected and reset: the checker accepts the backup
      exactly when every stock in it is tracked, provided that replay sorts the rows of each stock as
      they were written. */
  lemma ReachableLedgersAreAccepted(events: seq<Event>, doc: Document)
    requires Exports(Run(Empty, events), doc) && WrittenInOrder(Run(Empty, events))
    ensures Accepted(doc) <==> AllTracked(Run(Empty, events))
  {
    RunKeepsBooks(Empty, events);
    var l := Run(Empty, events);
    if AllTracked(l) {
      TrackedBooksAreAccepted(l, doc);
    } else {
      var key :| key in l.stocks && !l.stocks[key].tracked;
      UntrackedBooksAreRejected(l, doc, key);
    }
  }

  // ---- Rows that sort out of the order they were written in ----

  predicate StartApart(a: Movement, b: Movement) {
    Chronological(b, a) && a.kind != INITIALIZATION ==> a.before != b.before
  }

  /** A row that sorts before one written earlier starts from another quantity than that one. */
  ghost predicate SwappedRowsStartApart(l: Ledger) {
    forall i, j :: 0 <= i < j < |l.movements| && l.movements[i].key == l.movements[j].key ==>
      StartApart(l.movements[i], l.movements[j])
  }

  /** Where sorting moves a row, the first row out of place does not continue the chain. */
  lemma MovedRowBreaksChain(stock: Stock, listed: seq<Movement>, written: seq<Movement>)
    requires AccountOk(stock, written) && stock.tracked && multiset(listed) == multiset(written)
    requires forall i, j :: 0 <= i < j < |written| ==> StartApart(written[i], written[j])
    requires Sorting.Sort(listed, Chronological) != written
    ensures !ReplayAccepted(stock, Sorting.Sort(listed, Chronological))
  {
    var sorted := Sorting.Sort(listed, Chronological);
    var i, k := Rows.SortingMoves(Chronological, listed, written);
    assert StartApart(written[i], written[k]);
    if i == 0 {
      assert sorted[0].kind != INITIALIZATION;
    } else {
      assert sorted[i - 1] == sorted[..i][i - 1] == written[i - 1];
      assert !StepAccepted(sorted, i);
    }
  }

  lemma MisplacedIsRejected(l: Ledger, doc: Document, key: StockKey)
    requires Books(l) && Exports(l, doc) && AllTracked(l) && SwappedRowsStartApart(l) && key in l.stocks
    requires Sorting.Sort(Of(doc.movements, key), Chronological) != Of(l.movements, key)
    ensures !Accepted(doc)
  {
    assert AccountOk(l.stocks[key], Of(l.movements, key));
    Rows.AccountKeeps(KeyOf, StartApart, l.movements, key);
    Rows.SameElementsSameAccount(KeyOf, doc.movements, l.movements, key);
    MovedRowBreaksChain(l.stocks[key], Of(doc.movements, key), Of(l.movements, key));
    var i :| 0 <= i < |doc.stocks| && doc.stocks[i].key == key;
    assert !ReplayAccepted(doc.stocks[i].stock, Sorting.Sort(Of(doc.movements, doc.stocks[i].key), Chronological));
  }

  /** Rows that sort as they were written were written in order. */
  lemma UnmovedIsInOrder(l: Ledger, doc: Document)
    requires Books(l) && Exports(l, doc)
    requires forall key :: key in l.stocks ==> Sorting.Sort(Of(doc.movements, key), Chronological) == Of(l.movements, key)
    ensures WrittenInOrder(l)
  {
    forall i, j | 0 <= i < j < |l.movements| && l.movements[i].key == l.movements[j].key
      ensures Chronological(l.movements[i], l.movements[j]) && !Chronological(l.movements[j], l.movements[i])
    {
      var key := l.movements[i].key;
      Sorting.SortSorts(Of(doc.movements, key), Chronological);
      Rows.AccountTells(KeyOf, Chronological, l.movements, key);
      assert Apart(l.movements[i], l.movements[j]);
    }
  }

  /** As long as a row that sorts before an earlier one starts from another quantity, the checker accepts
      the backup exactly when every stock is tracked and the rows of each stock ascend by time and id
      in the order they were written. */
  lemma TiesAreAcceptedExactly(events: seq<Event>, doc: Document)
    requires Exports(Run(Empty, events), doc) && SwappedRowsStartApart(Run(Empty, events))
    ensures Accepted(doc) <==> AllTracked(Run(Empty, events)) && WrittenInOrder(Run(Empty, events))
  {
    RunKeepsBooks(Empty, events);
    var l := Run(Empty, events);
    if !AllTracked(l) {
      var key :| key in l.stocks && !l.stocks[key].tracked;
      UntrackedBooksAreRejected(l, doc, key);
    } else if WrittenInOrder(l) {
      TrackedBooksAreAccepted(l, doc);
    } else {
      var key :| key in l.stocks && Sorting.Sort(Of(doc.movements, key), Chronological) != Of(l.movements, key) by {
        if forall key :: key in l.stocks ==> Sorting.Sort(Of(doc.movements, key), Chronological) == Of(l.movements, key) {
          UnmovedIsInOrder(l, doc);
        }
      }
      MisplacedIsRejected(l, doc, key);
    }
  }

  /** Within a stock, no row carries an earlier time than one written before it. */
  ghost predicate TimesNeverFall(l: Ledger) {
    forall i, j :: 0 <= i < j < |l.movements| && l.movements[i].key == l.movements[j].key ==>
      l.movements[i].createdAt <= l.movements[j].createdAt
  }

  /** Within a tick, a stock only falls or only rises: the rows of one sale, or of one cancellation. */
  ghost predicate TicksGoOneWay(l: Ledger) {
    forall i, j :: 0 <= i < j < |l.movements| && l.movements[i].key == l.movements[j].key ==>
      SameDirection(l.movements[i], l.movements[j])
  }

  predicate SameDirection(a: Movement, b: Movement) {
    a.createdAt == b.createdAt && a.kind != INITIALIZATION ==> (a.delta < 0 && b.delta < 0) || (a.delta > 0 && b.delta > 0)
  }

  lemma {:induction false} OneWayMovesOn(rows: seq<Movement>, i: nat, j: nat)
    requires i < j < |rows| && Chained(rows) && rows[i].kind != INITIALIZATION && rows[i].createdAt == rows[j].createdAt
    requires forall a, b :: 0 <= a < b < |rows| ==> rows[a].createdAt <= rows[b].createdAt && SameDirection(rows[a], rows[b])
    ensures if rows[i].delta < 0 then rows[j].before < rows[i].before else rows[i].before < rows[j].before
    decreases j
  {
    assert rows[j].before == rows[j - 1].after && rows[j - 1].after == rows[j - 1].before + rows[j - 1].delta;
    assert MovementRowOk(rows[j - 1]) && MovementRowOk(rows[i]);
    if i < j - 1 {
      assert rows[i].createdAt <= rows[j - 1].createdAt <= rows[j].createdAt;
      assert SameDirection(rows[i], rows[j - 1]);
      OneWayMovesOn(rows, i, j - 1);
    }
  }

  /** So it is with rows that share a tick because one sale, or one cancellation, wrote them all. */
  lemma OneWayTicksStartApart(events: seq<Event>)
    requires TimesNeverFall(Run(Empty, events)) && TicksGoOneWay(Run(Empty, events))
    ensures SwappedRowsStartApart(Run(Empty, events))
  {
    RunKeepsBooks(Empty, events);
    var l := Run(Empty, events);
    forall i, j | 0 <= i < j < |l.movements| && l.movements[i].key == l.movements[j].key
      ensures StartApart(l.movements[i], l.movements[j])
    {
      var key := l.movements[i].key;
      assert AccountOk(l.stocks[key], Of(l.movements, key));
      OneWayAccount(l, key);
      Rows.AccountTells(KeyOf, StartApart, l.movements, key);
    }
  }

  lemma OneWayAccount(l: Ledger, key: StockKey)
    requires TimesNeverFall(l) && TicksGoOneWay(l) && Chained(Of(l.movements, key))
    ensures forall i, j :: 0 <= i < j < |Of(l.movements, key)| ==> StartApart(Of(l.movements, key)[i], Of(l.movements, key)[j])
  {
    var rows := Of(l.movements, key);
    Rows.AccountKeeps(KeyOf, (a: Movement, b: Movement) => a.createdAt <= b.createdAt && SameDirection(a, b), l.movements, key);
    forall i, j | 0 <= i < j < |rows| ensures StartApart(rows[i], rows[j]) {
      if rows[i].createdAt == rows[j].createdAt && rows[i].kind != INITIALIZATION { OneWayMovesOn(rows, i, j); }
    }
  }

  // ---- A tie that is rejected ----

  const Key := StockKey(0, 0, TEST)

  function Row(id: MovementId, at: int, kind: Kind, delta: int, before: int, item: Option<ItemId>, idem: IdempotencyKey): Movement {
    Movement(id, at, Key, kind, delta, before, before + delta, if item.Some? then Some(0) else None, item, None, idem, 0)
  }

  const Opening := Row(0, 0, INITIALIZATION, 5, 0, None, ClientKey(0))
  const First := Row(2, 1, SALE, -1, 5, Some(0), SaleKey(0))
  const Second := Row(1, 1, SALE, -2, 4, Some(1), SaleKey(1))
  const Opened := Ledger(map[Key := Stock(true, 5, 5, false)], [Opening])
  const Sold := Ledger(map[Key := Stock(true, 5, 2, false)], [Opening, First, Second])

  /** An instance: two items of one product in one order, written within one clock tick, whose random
      ids sort the other way round. */
  lemma TiesCanBeRejected() returns (events: seq<Event>, doc: Document)
    ensures Exports(Run(Empty, events), doc) && AllTracked(Run(Empty, events)) && !Accepted(doc)
  {
    var stamps: Stamps := (k: nat) => Stamp(if k == 0 then 2 else if k == 1 then 1 else k + 1, 1);
    var items := [Item(0, 0, 1), Item(1, 0, 2)];
    var sell := SellOrder(0, TEST, 0, items, {}, stamps);
    events := [OpenFive, sell];
    RunTwo(OpenFive, sell);
    FiveAreOpened();
    SellingTwice(stamps);
    doc := Document([StockRow(Key, Sold.stocks[Key])], Sold.movements);
    SoldIsRejected(doc);
    SoldIsExported(doc);
  }

  const OpenFive := InitializeStock(Context(Some(TEST), Some(0)), Key, true, 5, false, Request(0, 0), Stamp(0, 0))

  lemma FiveAreOpened()
    ensures Next(Empty, OpenFive) == Opened
  {
  }

  lemma SellingTwice(stamps: Stamps)
    requires forall k: nat :: stamps(k) == Stamp(if k == 0 then 2 else if k == 1 then 1 else k + 1, 1)
    ensures Next(Opened, SellOrder(0, TEST, 0, [Item(0, 0, 1), Item(1, 0, 2)], {}, stamps)) == Sold
  {
    var items := [Item(0, 0, 1), Item(1, 0, 2)];
    SellTwo(Opened, items, stamps, Sold);
    SaleIsAdmissible(items, stamps);
  }

  lemma SoldIsExported(doc: Document)
    requires doc == Document([StockRow(Key, Sold.stocks[Key])], Sold.movements)
    ensures Exports(Sold, doc) && AllTracked(Sold)
  {
    assert doc.stocks[0].key == Key;
  }

  lemma SaleIsAdmissible(items: seq<Item>, stamps: Stamps)
    requires items == [Item(0, 0, 1), Item(1, 0, 2)]
    requires forall k: nat :: stamps(k) == Stamp(if k == 0 then 2 else if k == 1 then 1 else k + 1, 1)
    ensures FreshItems(Opened, items) && FreshStamps(Opened, stamps)
  {
  }

  lemma RunTwo(a: Event, b: Event)
    ensures Run(Empty, [a, b]) == Next(Next(Empty, a), b)
  {
    assert Run(Empty, [a, b]) == Run(Next(Empty, a), [b]);
    assert Run(Next(Empty, a), [b]) == Run(Next(Next(Empty, a), b), []);
  }

  lemma SoldIsRejected(doc: Document)
    requires doc == Document([StockRow(Key, Sold.stocks[Key])], Sold.movements)
    ensures !Accepted(doc)
  {
    assert [Second][1..] == [] && Of([], Key) == [];
    assert Of([Second], Key) == [Second] + Of([Second][1..], Key);
    assert Of([First, Second], Key) == [First, Second] by { assert [First, Second][1..] == [Second]; }
    assert Of([Opening, First, Second], Key) == [Opening, First, Second] by { assert [Opening, First, Second][1..] == [First, Second]; }
    SortThree(Opening, First, Second);
    assert !StepAccepted([Opening, Second, First], 1);
    assert !ReplayAccepted(doc.stocks[0].stock, [Opening, Second, First]);
  }

  lemma SortThree(a: Movement, b: Movement, c: Movement)
    requires Chronological(a, b) && Chronological(a, c) && Chronological(c, b) && !Chronological(b, c)
    ensures Sorting.Sort([a, b, c], Chronological) == [a, c, b]
  {
    var le := Chronological;
    assert Sorting.Sort([c], le) == [c] by { assert [c][1..] == []; }
    assert Sorting.Sort([b, c], le) == Sorting.Insert(b, [c], le) by { assert [b, c][1..] == [c]; }
    assert Sorting.Insert(b, [c], le) == [c] + Sorting.Insert(b, [], le) by { assert [c][1..] == []; }
    assert Sorting.Sort([a, b, c], le) == Sorting.Insert(a, [c, b], le) by { assert [a, b, c][1..] == [b, c]; }
  }

  lemma SellTwo(l: Ledger, items: seq<Item>, stamps: Stamps, after: Ledger)
    requires l.stocks == map[Key := Stock(true, 5, 5, false)]
    requires items == [Item(0, 0, 1), Item(1, 0, 2)] && stamps(0) == Stamp(2, 1) && stamps(1) == Stamp(1, 1)
    requires after == Ledger(map[Key := Stock(true, 5, 2, false)],
                             l.movements + [Row(2, 1, SALE, -1, 5, Some(0), SaleKey(0)), Row(1, 1, SALE, -2, 4, Some(1), SaleKey(1))])
    ensures Sell(l, 0, TEST, 0, items, {}, stamps) == Some(after)
  {
    var one, two := Item(0, 0, 1), Item(1, 0, 2);
    assert items[0] == one && items[1..] == [two] && [two][1..] == [];
    assert Ordered([two], 0) == 2 + Ordered([], 0);
    assert Ordered(items, 0) == 1 + Ordered([two], 0);
    assert Sorting.Sort(items[1..], ById) == [items[1]];
    assert Sorting.Sort(items, ById) == items;
    var l1 := Post(l, SaleRow(l, 0, TEST, 0, items[0], stamps(0)));
    var l2 := Post(l1, SaleRow(l1, 0, TEST, 0, items[1], stamps(1)));
    assert SellItems(l2, 0, TEST, 0, [], stamps, 2) == l2;
    assert SellItems(l1, 0, TEST, 0, items[1..], stamps, 1) == l2;
    assert l2 == after;
    assert CanSell(l, 0, TEST, items, {});
    assert SellItems(l, 0, TEST, 0, items, stamps, 0) == l2;
  }
}
