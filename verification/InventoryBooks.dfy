/** What every run of stock operations keeps, and what it says about a stock. */
module InventoryBooks {
  import opened Common
  import opened Inventory
  import Rows
  import Sorting

  function KeyOf(m: Movement): StockKey { m.key }

  /** The rows of one stock, in the order they were written. */
  function Of(ms: seq<Movement>, key: StockKey): seq<Movement> { Rows.Of(KeyOf, ms, key) }

  // ---- The invariant ----

  /** A cancellation undoes one sale of the same order item, completely. */
  ghost predicate Undoes(c: Movement, s: Movement) {
    c.reverses == Some(s.id) && s.kind == SALE && s.order == c.order && s.item == c.item && s.delta == -c.delta
  }

  ghost predicate Chained(rows: seq<Movement>) {
    forall i :: 0 <= i < |rows| ==>
      && MovementRowOk(rows[i])
      && rows[i].before == (if i == 0 then 0 else rows[i - 1].after)
      && (rows[i].kind == INITIALIZATION <==> i == 0)
  }

  ghost predicate Backed(rows: seq<Movement>) {
    forall i :: 0 <= i < |rows| && rows[i].reverses.Some? ==> exists j :: 0 <= j < i && Undoes(rows[i], rows[j])
  }

  ghost predicate AccountOk(stock: Stock, rows: seq<Movement>) {
    && StockRowOk(stock) && rows != []
    && rows[0].after == stock.initial && rows[|rows| - 1].after == stock.quantity
    && Chained(rows) && Backed(rows)
    && (!stock.tracked ==> |rows| == 1)
  }

  ghost predicate Apart(a: Movement, b: Movement) {
    a.id != b.id && a.idem != b.idem && (a.reverses.Some? ==> a.reverses != b.reverses)
  }

  ghost predicate AllApart(ms: seq<Movement>) {
    forall i, j :: 0 <= i < j < |ms| ==> Apart(ms[i], ms[j])
  }

  ghost predicate RowsKnown(l: Ledger) {
    forall i :: 0 <= i < |l.movements| ==>
      l.movements[i].key in l.stocks
      && (l.movements[i].idem.CancelKey? ==> l.movements[i].reverses == Some(l.movements[i].idem.sale))
  }

  ghost predicate AccountsOk(l: Ledger) {
    forall key :: key in l.stocks ==> AccountOk(l.stocks[key], Of(l.movements, key))
  }

  ghost predicate Books(l: Ledger) {
    RowsKnown(l) && AccountsOk(l) && AllApart(l.movements)
  }

  // ---- Posting ----

  ghost predicate NewId(ms: seq<Movement>, m: Movement) {
    forall i :: 0 <= i < |ms| ==> ms[i].id != m.id && ms[i].idem != m.idem
  }

  ghost predicate Postable(l: Ledger, m: Movement) {
    && Tracked(l.stocks, m.key) && m.before == l.stocks[m.key].quantity
    && MovementRowOk(m) && m.kind != INITIALIZATION && NewId(l.movements, m)
    && (m.idem.CancelKey? ==> m.reverses == Some(m.idem.sale))
    && (m.reverses.Some? ==> !IsReversed(l.movements, m.reverses.value) && exists i :: 0 <= i < |l.movements| && l.movements[i].key == m.key && Undoes(m, l.movements[i]))
  }

  lemma AccountGrows(stock: Stock, rows: seq<Movement>, m: Movement)
    requires AccountOk(stock, rows) && stock.tracked
    requires m.before == stock.quantity && MovementRowOk(m) && m.kind != INITIALIZATION
    requires m.reverses.Some? ==> exists j :: 0 <= j < |rows| && Undoes(m, rows[j])
    ensures AccountOk(stock.(quantity := m.after), rows + [m])
  {
    var rows' := rows + [m];
    forall i | 0 <= i < |rows'| && rows'[i].reverses.Some?
      ensures exists j :: 0 <= j < i && Undoes(rows'[i], rows'[j])
    {
      if i < |rows| {
        var j :| 0 <= j < i && Undoes(rows[i], rows[j]);
        assert Undoes(rows'[i], rows'[j]);
      } else {
        var j :| 0 <= j < |rows| && Undoes(m, rows[j]);
        assert Undoes(rows'[i], rows'[j]);
      }
    }
  }

  /** The sale that a row undoes is a row of the same stock. */
  lemma UndoneIsInAccount(l: Ledger, m: Movement)
    requires m.reverses.Some? ==> exists i :: 0 <= i < |l.movements| && l.movements[i].key == m.key && Undoes(m, l.movements[i])
    ensures m.reverses.Some? ==> exists j :: 0 <= j < |Of(l.movements, m.key)| && Undoes(m, Of(l.movements, m.key)[j])
  {
    if m.reverses.Some? {
      var i :| 0 <= i < |l.movements| && l.movements[i].key == m.key && Undoes(m, l.movements[i]);
      Rows.Members(KeyOf, l.movements, m.key);
      var j :| 0 <= j < |Of(l.movements, m.key)| && Of(l.movements, m.key)[j] == l.movements[i];
      assert Undoes(m, Of(l.movements, m.key)[j]);
    }
  }

  lemma PostKeepsAccounts(l: Ledger, m: Movement)
    requires AccountsOk(l) && Postable(l, m)
    ensures AccountsOk(Post(l, m))
  {
    forall key | key in l.stocks
      ensures AccountOk(Post(l, m).stocks[key], Of(Post(l, m).movements, key))
    {
      Rows.Snoc(KeyOf, l.movements, m, key);
      assert AccountOk(l.stocks[key], Of(l.movements, key));
      if key == m.key {
        UndoneIsInAccount(l, m);
        AccountGrows(l.stocks[key], Of(l.movements, key), m);
      }
    }
  }

  lemma PostStaysApart(l: Ledger, m: Movement)
    requires AllApart(l.movements) && NewId(l.movements, m)
    requires m.reverses.Some? ==> !IsReversed(l.movements, m.reverses.value)
    ensures AllApart(l.movements + [m])
  {
    forall i | 0 <= i < |l.movements|
      ensures Apart(l.movements[i], m)
    {
      if m.reverses.Some? { assert l.movements[i].reverses != m.reverses; }
    }
  }

  lemma PostStaysKnown(l: Ledger, m: Movement)
    requires RowsKnown(l) && m.key in l.stocks && (m.idem.CancelKey? ==> m.reverses == Some(m.idem.sale))
    ensures RowsKnown(Post(l, m))
  {
  }

  lemma PostKeepsBooks(l: Ledger, m: Movement)
    requires Books(l) && Postable(l, m)
    ensures Books(Post(l, m))
  {
    PostKeepsAccounts(l, m);
    PostStaysApart(l, m);
    PostStaysKnown(l, m);
  }

  // ---- Each operation ----

  ghost predicate FreshStamps(l: Ledger, stamps: Stamps) {
    && (forall k: nat, i :: 0 <= i < |l.movements| ==> l.movements[i].id != stamps(k).id)
    && (forall k: nat, j: nat :: k != j ==> stamps(k).id != stamps(j).id)
  }

  lemma OpeningKeepsBooks(l: Ledger, stock: Stock, row: Movement)
    requires Books(l) && row.key !in l.stocks && NewId(l.movements, row) && !row.idem.CancelKey?
    requires StockRowOk(stock) && MovementRowOk(row) && row.kind == INITIALIZATION && row.after == stock.initial == stock.quantity
    ensures Books(Ledger(l.stocks[row.key := stock], l.movements + [row]))
  {
    OpeningKeepsAccounts(l, stock, row);
    PostStaysApart(l, row);
  }

  lemma InitializeKeepsBooks(l: Ledger, c: Context, key: StockKey, tracked: bool, quantity: int, blocked: bool, idem: Request, stamp: Stamp)
    requires Books(l) && forall i :: 0 <= i < |l.movements| ==> l.movements[i].id != stamp.id
    ensures var l' := Initialize(l, c, key, tracked, quantity, blocked, idem, stamp); l'.Some? ==> Books(l'.value)
  {
    if Initialize(l, c, key, tracked, quantity, blocked, idem, stamp).Some? && !Used(l, ClientKey(idem.key)) {
      var row := Movement(stamp.id, stamp.at, key, INITIALIZATION, quantity, 0, quantity, None, None, None, ClientKey(idem.key), idem.fingerprint);
      OpeningKeepsBooks(l, Stock(tracked, quantity, quantity, blocked), row);
    }
  }

  lemma OpeningKeepsAccounts(l: Ledger, stock: Stock, row: Movement)
    requires RowsKnown(l) && AccountsOk(l) && row.key !in l.stocks
    requires StockRowOk(stock) && MovementRowOk(row) && row.kind == INITIALIZATION && row.after == stock.initial == stock.quantity
    ensures AccountsOk(Ledger(l.stocks[row.key := stock], l.movements + [row]))
  {
    var l' := Ledger(l.stocks[row.key := stock], l.movements + [row]);
    NoRowsYet(l, row.key);
    forall key | key in l'.stocks
      ensures AccountOk(l'.stocks[key], Of(l'.movements, key))
    {
      Rows.Snoc(KeyOf, l.movements, row, key);
      if key == row.key { FirstRow(stock, row); } else { assert AccountOk(l.stocks[key], Of(l.movements, key)); }
    }
  }

  lemma FirstRow(stock: Stock, row: Movement)
    requires StockRowOk(stock) && MovementRowOk(row) && row.kind == INITIALIZATION
    requires row.after == stock.initial == stock.quantity
    ensures AccountOk(stock, [row])
  {
  }

  lemma NoRowsYet(l: Ledger, key: StockKey)
    requires RowsKnown(l) && key !in l.stocks
    ensures Of(l.movements, key) == []
  {
    Rows.Nothing(KeyOf, l.movements, key);
  }

  lemma CorrectKeepsBooks(l: Ledger, c: Context, key: StockKey, quantity: int, idem: Request, stamp: Stamp)
    requires Books(l) && forall i :: 0 <= i < |l.movements| ==> l.movements[i].id != stamp.id
    ensures var l' := Correct(l, c, key, quantity, idem, stamp); l'.Some? ==> Books(l'.value)
  {
    if Admits(c, key) && !Used(l, ClientKey(idem.key)) && key in l.stocks {
      var row := CorrectionRow(l, key, quantity, idem, stamp);
      if Correct(l, c, key, quantity, idem, stamp).Some? {
        assert AccountOk(l.stocks[key], Of(l.movements, key));
        PostKeepsBooks(l, row);
      }
    }
  }

  lemma OnlyRowUnderKey(l: Ledger, idem: Request, i: nat)
    requires AllApart(l.movements) && i < |l.movements| && l.movements[i].idem == ClientKey(idem.key)
    ensures Used(l, ClientKey(idem.key)) && (Repeats(l, idem) <==> l.movements[i].fingerprint == idem.fingerprint)
  {
    assert forall j :: 0 <= j < |l.movements| && l.movements[j].idem == ClientKey(idem.key) ==> j == i;
  }

  /** Once a request was carried out, its repetition changes nothing and any other request under its
      key is refused, whatever was booked in between, for as long as its row is there. */
  lemma RepetitionsChangeNothing(l: Ledger, c: Context, i: nat, key: StockKey, tracked: bool, quantity: int, blocked: bool, idem: Request, stamp: Stamp)
    requires Books(l) && i < |l.movements| && l.movements[i].idem == ClientKey(idem.key)
    ensures var answer := if Admits(c, key) && l.movements[i].fingerprint == idem.fingerprint then Some(l) else None;
            Initialize(l, c, key, tracked, quantity, blocked, idem, stamp) == answer && Correct(l, c, key, quantity, idem, stamp) == answer
  {
    OnlyRowUnderKey(l, idem, i);
  }

  lemma SettingsKeepBooks(l: Ledger, c: Context, key: StockKey, blocked: bool)
    requires Books(l)
    ensures var l' := Settings(l, c, key, blocked); l'.Some? ==> Books(l'.value)
  {
    if Settings(l, c, key, blocked).Some? {
      var l' := Settings(l, c, key, blocked).value;
      forall k | k in l'.stocks ensures AccountOk(l'.stocks[k], Of(l'.movements, k)) {
        assert AccountOk(l.stocks[k], Of(l.movements, k));
      }
    }
  }

  /** Order items are new rows: positive quantities, distinct ids, never sold before. */
  ghost predicate FreshItems(l: Ledger, items: seq<Item>) {
    && (forall i :: 0 <= i < |items| ==> items[i].quantity > 0 && !Used(l, SaleKey(items[i].id)))
    && (forall i, j :: 0 <= i < j < |items| ==> items[i].id != items[j].id)
  }

  ghost predicate Sufficient(l: Ledger, event: nat, mode: DataMode, items: seq<Item>) {
    forall key :: Tracked(l.stocks, key) && key.event == event && key.mode == mode ==> Ordered(items, key.product) <= l.stocks[key].quantity
  }

  ghost predicate FreshFrom(l: Ledger, stamps: Stamps, k: nat) {
    && (forall n: nat, i :: n >= k && 0 <= i < |l.movements| ==> l.movements[i].id != stamps(n).id)
    && (forall n: nat, j: nat :: n != j ==> stamps(n).id != stamps(j).id)
  }

  lemma PostKeepsFresh(l: Ledger, m: Movement, stamps: Stamps, k: nat)
    requires FreshFrom(l, stamps, k) && m.key in l.stocks && m.id == stamps(k).id
    ensures FreshFrom(Post(l, m), stamps, k + 1)
  {
  }

  lemma SaleRowIsPostable(l: Ledger, event: nat, mode: DataMode, order: OrderId, items: seq<Item>, stamp: Stamp)
    requires Books(l) && items != [] && FreshItems(l, items) && Sufficient(l, event, mode, items)
    requires Tracked(l.stocks, StockKey(items[0].product, event, mode))
    requires forall i :: 0 <= i < |l.movements| ==> l.movements[i].id != stamp.id
    ensures var row := SaleRow(l, event, mode, order, items[0], stamp);
            Postable(l, row) && FreshItems(Post(l, row), items[1..]) && Sufficient(Post(l, row), event, mode, items[1..])
  {
    var row := SaleRow(l, event, mode, order, items[0], stamp);
    assert AccountOk(l.stocks[row.key], Of(l.movements, row.key));
    assert Ordered(items, items[0].product) >= items[0].quantity;
    assert !Used(l, SaleKey(items[0].id));
    forall i | 1 <= i < |items| ensures !Used(Post(l, row), SaleKey(items[i].id)) {
      assert !Used(l, SaleKey(items[i].id)) && items[0].id != items[i].id;
    }
  }

  lemma {:induction false} SellItemsKeepsBooks(l: Ledger, event: nat, mode: DataMode, order: OrderId, items: seq<Item>, stamps: Stamps, k: nat)
    requires Books(l) && FreshItems(l, items) && Sufficient(l, event, mode, items) && FreshFrom(l, stamps, k)
    ensures Books(SellItems(l, event, mode, order, items, stamps, k))
    decreases |items|
  {
    if items != [] {
      if Tracked(l.stocks, StockKey(items[0].product, event, mode)) {
        var row := SaleRow(l, event, mode, order, items[0], stamps(k));
        SaleRowIsPostable(l, event, mode, order, items, stamps(k));
        PostKeepsBooks(l, row);
        PostKeepsFresh(l, row, stamps, k);
        SellItemsKeepsBooks(Post(l, row), event, mode, order, items[1..], stamps, k + 1);
      } else {
        SellItemsKeepsBooks(l, event, mode, order, items[1..], stamps, k + 1);
      }
    }
  }

  lemma SellKeepsBooks(l: Ledger, event: nat, mode: DataMode, order: OrderId, items: seq<Item>, closed: set<Product>, stamps: Stamps)
    requires Books(l) && FreshItems(l, items) && FreshStamps(l, stamps)
    ensures var l' := Sell(l, event, mode, order, items, closed, stamps); l'.Some? ==> Books(l'.value)
  {
    var sorted := Sorting.Sort(items, ById);
    ByIdIsOrder();
    Sorting.SortSorts(items, ById);
    if CanSell(l, event, mode, items, closed) {
      SufficientSorted(l, event, mode, items, closed);
      FreshSorted(l, items, sorted);
      SellItemsKeepsBooks(l, event, mode, order, sorted, stamps, 0);
    }
  }

  lemma SufficientSorted(l: Ledger, event: nat, mode: DataMode, items: seq<Item>, closed: set<Product>)
    requires CanSell(l, event, mode, items, closed) && AccountsOk(l)
    ensures Sufficient(l, event, mode, Sorting.Sort(items, ById))
  {
    var sorted := Sorting.Sort(items, ById);
    ByIdIsOrder();
    Sorting.SortSorts(items, ById);
    UnorderedIsZero(items);
    forall key | Tracked(l.stocks, key) && key.event == event && key.mode == mode
      ensures Ordered(sorted, key.product) <= l.stocks[key].quantity
    {
      OrderedIgnoresOrder(sorted, items, key.product);
      assert AccountOk(l.stocks[key], Of(l.movements, key));
      if key.product in Products(items) {
        var i :| 0 <= i < |items| && items[i].product == key.product;
        assert key == StockKey(items[i].product, event, mode);
      }
    }
  }

  lemma FreshSorted(l: Ledger, items: seq<Item>, sorted: seq<Item>)
    requires FreshItems(l, items) && multiset(items) == multiset(sorted)
    ensures FreshItems(l, sorted)
  {
    forall i | 0 <= i < |sorted| ensures sorted[i].quantity > 0 && !Used(l, SaleKey(sorted[i].id)) {
      assert sorted[i] in multiset(items);
    }
    Sorting.NoDuplicates(items, sorted);
    forall i, j | 0 <= i < j < |sorted| ensures sorted[i].id != sorted[j].id {
      assert sorted[i] in multiset(items) && sorted[j] in multiset(items);
      var a :| 0 <= a < |items| && items[a] == sorted[i];
      var b :| 0 <= b < |items| && items[b] == sorted[j];
    }
  }

  // ---- Cancelling ----

  ghost predicate Open(l: Ledger, s: Movement, order: OrderId) {
    s.kind == SALE && s in l.movements && s.order == Some(order) && !IsReversed(l.movements, s.id)
  }

  ghost predicate OpenList(l: Ledger, sales: seq<Movement>, order: OrderId) {
    && (forall i :: 0 <= i < |sales| ==> Open(l, sales[i], order))
    && (forall i, j :: 0 <= i < j < |sales| ==> sales[i].id != sales[j].id)
  }

  lemma CancelRowIsPostable(l: Ledger, s: Movement, order: OrderId, stamp: Stamp)
    requires Books(l) && Open(l, s, order) && Tracked(l.stocks, s.key)
    requires forall i :: 0 <= i < |l.movements| ==> l.movements[i].id != stamp.id
    requires MovementRowOk(CancelRow(l, s, order, stamp))
    ensures Postable(l, CancelRow(l, s, order, stamp))
  {
    var row := CancelRow(l, s, order, stamp);
    var i :| 0 <= i < |l.movements| && l.movements[i] == s;
    assert Undoes(row, l.movements[i]);
  }

  lemma PostLeavesOthersOpen(l: Ledger, m: Movement, sales: seq<Movement>, order: OrderId)
    requires OpenList(l, sales, order) && m.key in l.stocks && sales != [] && m.reverses == Some(sales[0].id)
    ensures OpenList(Post(l, m), sales[1..], order)
  {
    forall i | 1 <= i < |sales| ensures Open(Post(l, m), sales[i], order) {
      assert Open(l, sales[i], order) && sales[0].id != sales[i].id;
    }
  }

  lemma {:induction false} CancelSalesKeepsBooks(l: Ledger, sales: seq<Movement>, order: OrderId, stamps: Stamps, k: nat)
    requires Books(l) && OpenList(l, sales, order) && FreshFrom(l, stamps, k)
    ensures var l' := CancelSales(l, sales, order, stamps, k); l'.Some? ==> Books(l'.value)
    decreases |sales|
  {
    if sales != [] {
      assert Open(l, sales[0], order);
      if Tracked(l.stocks, sales[0].key) {
        var row := CancelRow(l, sales[0], order, stamps(k));
        if MovementRowOk(row) {
          CancelRowIsPostable(l, sales[0], order, stamps(k));
          PostKeepsBooks(l, row);
          PostLeavesOthersOpen(l, row, sales, order);
          PostKeepsFresh(l, row, stamps, k);
          CancelSalesKeepsBooks(Post(l, row), sales[1..], order, stamps, k + 1);
        }
      } else {
        CancelSalesKeepsBooks(l, sales[1..], order, stamps, k + 1);
      }
    }
  }

  /** The items cancelled together belong to one order. */
  ghost predicate OfOrder(l: Ledger, items: set<ItemId>, order: OrderId) {
    forall i :: 0 <= i < |l.movements| && l.movements[i].item.Some? && l.movements[i].item.value in items
                ==> l.movements[i].order == Some(order)
  }

  lemma {:induction false} OpenSalesAreOpen(l: Ledger, ms: seq<Movement>, event: nat, mode: DataMode, items: set<ItemId>, order: OrderId)
    requires OfOrder(l, items, order) && AllApart(ms)
    requires forall i :: 0 <= i < |ms| ==> ms[i] in l.movements
    ensures OpenList(l, OpenSales(l.movements, ms, event, mode, items), order)
    ensures forall i :: 0 <= i < |OpenSales(l.movements, ms, event, mode, items)| ==> OpenSales(l.movements, ms, event, mode, items)[i] in ms
    decreases |ms|
  {
    if ms != [] {
      OpenSalesAreOpen(l, ms[1..], event, mode, items, order);
      var rest := OpenSales(l.movements, ms[1..], event, mode, items);
      forall i | 0 <= i < |rest| ensures rest[i].id != ms[0].id {
        var j :| 0 <= j < |ms[1..]| && ms[1..][j] == rest[i];
        assert Apart(ms[0], ms[j + 1]);
      }
    }
  }

  lemma SaleOrderIsOrder()
    ensures Sorting.IsOrder(SaleOrder)
  {
  }

  lemma CancelKeepsBooks(l: Ledger, event: nat, mode: DataMode, order: OrderId, items: set<ItemId>, stamps: Stamps)
    requires Books(l) && OfOrder(l, items, order) && FreshStamps(l, stamps)
    ensures var l' := Cancel(l, event, mode, order, items, stamps); l'.Some? ==> Books(l'.value)
  {
    var sales := OpenSales(l.movements, l.movements, event, mode, items);
    var sorted := Sorting.Sort(sales, SaleOrder);
    OpenSalesAreOpen(l, l.movements, event, mode, items, order);
    SaleOrderIsOrder();
    Sorting.SortSorts(sales, SaleOrder);
    OpenListSorted(l, sales, sorted, order);
    CancelSalesKeepsBooks(l, sorted, order, stamps, 0);
  }

  lemma OpenListSorted(l: Ledger, sales: seq<Movement>, sorted: seq<Movement>, order: OrderId)
    requires OpenList(l, sales, order) && multiset(sales) == multiset(sorted)
    ensures OpenList(l, sorted, order)
  {
    forall i | 0 <= i < |sorted| ensures Open(l, sorted[i], order) {
      assert sorted[i] in multiset(sales);
    }
    Sorting.NoDuplicates(sales, sorted);
    forall i, j | 0 <= i < j < |sorted| ensures sorted[i].id != sorted[j].id {
      assert sorted[i] in multiset(sales) && sorted[j] in multiset(sales);
      var a :| 0 <= a < |sales| && sales[a] == sorted[i];
      var b :| 0 <= b < |sales| && sales[b] == sorted[j];
    }
  }

  // ---- Resetting test data ----

  function Openings(rows: seq<Movement>): seq<Movement> {
    if rows == [] then []
    else if rows[0].kind == INITIALIZATION then [rows[0]] + Openings(rows[1..])
    else Openings(rows[1..])
  }

  lemma {:induction false} OfRemaining(ms: seq<Movement>, event: nat, key: StockKey)
    ensures Of(Remaining(ms, event), key) == if key.event == event && key.mode == TEST then Openings(Of(ms, key)) else Of(ms, key)
    decreases |ms|
  {
    if ms != [] {
      OfRemaining(ms[1..], event, key);
      var rest := Remaining(ms[1..], event);
      if !Resettable(ms[0], event) { assert ([ms[0]] + rest)[1..] == rest; }
      if ms[0].key == key { assert ([ms[0]] + Of(ms[1..], key))[1..] == Of(ms[1..], key); }
    }
  }

  lemma {:induction false} NoOpenings(rows: seq<Movement>)
    requires forall i :: 0 <= i < |rows| ==> rows[i].kind != INITIALIZATION
    ensures Openings(rows) == []
  {
    if rows != [] { NoOpenings(rows[1..]); }
  }

  lemma OneOpening(rows: seq<Movement>)
    requires Chained(rows) && rows != []
    ensures Openings(rows) == [rows[0]]
  {
    NoOpenings(rows[1..]);
  }

  lemma {:induction false} RemainingIn(ms: seq<Movement>, event: nat)
    requires AllApart(ms)
    ensures AllApart(Remaining(ms, event))
    ensures forall i :: 0 <= i < |Remaining(ms, event)| ==> Remaining(ms, event)[i] in ms
    decreases |ms|
  {
    if ms != [] {
      RemainingIn(ms[1..], event);
      var rest := Remaining(ms[1..], event);
      forall i | 0 <= i < |rest| ensures Apart(ms[0], rest[i]) {
        var j :| 0 <= j < |ms[1..]| && ms[1..][j] == rest[i];
        assert Apart(ms[0], ms[j + 1]);
      }
    }
  }

  function Total(rows: seq<Movement>): int {
    if rows == [] then 0 else rows[0].delta + Total(rows[1..])
  }

  lemma {:induction false} ExplainedIsTotal(ms: seq<Movement>, key: StockKey)
    ensures Explained(ms, key) == Total(Of(ms, key))
    decreases |ms|
  {
    if ms != [] {
      ExplainedIsTotal(ms[1..], key);
      if ms[0].key == key { assert ([ms[0]] + Of(ms[1..], key))[1..] == Of(ms[1..], key); }
    }
  }

  lemma ResetRows(l: Ledger, event: nat, key: StockKey)
    requires Books(l) && key in l.stocks && key.event == event && key.mode == TEST
    ensures Of(l.movements, key) != [] && Of(Remaining(l.movements, event), key) == [Of(l.movements, key)[0]]
    ensures Explained(Remaining(l.movements, event), key) == l.stocks[key].initial
  {
    var rows := Of(l.movements, key);
    assert AccountOk(l.stocks[key], rows);
    OfRemaining(l.movements, event, key);
    OneOpening(rows);
    ExplainedIsTotal(Remaining(l.movements, event), key);
    assert [rows[0]][1..] == [] && Total([]) == 0;
    assert rows[0].delta == rows[0].after;
  }

  lemma ResetAccount(l: Ledger, event: nat, key: StockKey)
    requires Books(l) && key in l.stocks
    ensures AccountOk(ResetTest(l, event).stocks[key], Of(ResetTest(l, event).movements, key))
    ensures key.event == event && key.mode == TEST ==> ResetTest(l, event).stocks[key].quantity == l.stocks[key].initial
    ensures !(key.event == event && key.mode == TEST) ==> ResetTest(l, event).stocks[key] == l.stocks[key]
  {
    var rows := Of(l.movements, key);
    assert AccountOk(l.stocks[key], rows);
    Rows.Members(KeyOf, l.movements, key);
    if key.event == event && key.mode == TEST {
      ResetRows(l, event, key);
      FirstRow(l.stocks[key].(quantity := l.stocks[key].initial), rows[0]);
    } else {
      OfRemaining(l.movements, event, key);
    }
  }

  lemma ResetKeepsBooks(l: Ledger, event: nat)
    requires Books(l)
    ensures Books(ResetTest(l, event))
  {
    var l' := ResetTest(l, event);
    RemainingIn(l.movements, event);
    forall i | 0 <= i < |l'.movements|
      ensures l'.movements[i].key in l'.stocks
      ensures l'.movements[i].idem.CancelKey? ==> l'.movements[i].reverses == Some(l'.movements[i].idem.sale)
    {
      var j :| 0 <= j < |l.movements| && l.movements[j] == l'.movements[i];
    }
    forall key | key in l'.stocks ensures AccountOk(l'.stocks[key], Of(l'.movements, key)) {
      ResetAccount(l, event, key);
    }
  }

  // ---- Whole runs ----

  datatype Event =
    | InitializeStock(context: Context, key: StockKey, tracked: bool, quantity: int, blocked: bool, idem: Request, stamp: Stamp)
    | CorrectStock(context: Context, key: StockKey, quantity: int, idem: Request, stamp: Stamp)
    | ChangeSettings(context: Context, key: StockKey, blocked: bool)
    | SellOrder(event: nat, mode: DataMode, order: OrderId, items: seq<Item>, closed: set<Product>, stamps: Stamps)
    | CancelItems(event: nat, mode: DataMode, order: OrderId, cancelled: set<ItemId>, stamps: Stamps)
    | ResetTestData(event: nat)

  /** What the database gives new rows, and what callers pass: fresh ids and items of one order. */
  ghost predicate Admissible(l: Ledger, e: Event) {
    match e
    case InitializeStock(_, _, _, _, _, _, stamp) => forall i :: 0 <= i < |l.movements| ==> l.movements[i].id != stamp.id
    case CorrectStock(_, _, _, _, stamp) => forall i :: 0 <= i < |l.movements| ==> l.movements[i].id != stamp.id
    case SellOrder(_, _, _, items, _, stamps) => FreshItems(l, items) && FreshStamps(l, stamps)
    case CancelItems(_, _, order, items, stamps) => OfOrder(l, items, order) && FreshStamps(l, stamps)
    case _ => true
  }

  ghost function Outcome(l: Ledger, e: Event): Option<Ledger> {
    match e
    case InitializeStock(c, key, tracked, quantity, blocked, idem, stamp) => Initialize(l, c, key, tracked, quantity, blocked, idem, stamp)
    case CorrectStock(c, key, quantity, idem, stamp) => Correct(l, c, key, quantity, idem, stamp)
    case ChangeSettings(c, key, blocked) => Settings(l, c, key, blocked)
    case SellOrder(event, mode, order, items, closed, stamps) => Sell(l, event, mode, order, items, closed, stamps)
    case CancelItems(event, mode, order, items, stamps) => Cancel(l, event, mode, order, items, stamps)
    case ResetTestData(event) => Some(ResetTest(l, event))
  }

  ghost function Next(l: Ledger, e: Event): Ledger {
    if Admissible(l, e) && Outcome(l, e).Some? then Outcome(l, e).value else l
  }

  ghost function Run(l: Ledger, events: seq<Event>): Ledger
    decreases |events|
  {
    if events == [] then l else Run(Next(l, events[0]), events[1..])
  }

  lemma NextKeepsBooks(l: Ledger, e: Event)
    requires Books(l)
    ensures Books(Next(l, e))
  {
    if Admissible(l, e) {
      match e
      case InitializeStock(c, key, tracked, quantity, blocked, idem, stamp) => InitializeKeepsBooks(l, c, key, tracked, quantity, blocked, idem, stamp);
      case CorrectStock(c, key, quantity, idem, stamp) => CorrectKeepsBooks(l, c, key, quantity, idem, stamp);
      case ChangeSettings(c, key, blocked) => SettingsKeepBooks(l, c, key, blocked);
      case SellOrder(event, mode, order, items, closed, stamps) => SellKeepsBooks(l, event, mode, order, items, closed, stamps);
      case CancelItems(event, mode, order, items, stamps) => CancelKeepsBooks(l, event, mode, order, items, stamps);
      case ResetTestData(event) => ResetKeepsBooks(l, event);
    }
  }

  lemma {:induction false} RunKeepsBooks(l: Ledger, events: seq<Event>)
    requires Books(l)
    ensures Books(Run(l, events))
    decreases |events|
  {
    if events != [] {
      NextKeepsBooks(l, events[0]);
      RunKeepsBooks(Next(l, events[0]), events[1..]);
    }
  }

  const Empty := Ledger(map[], [])

  // ---- Conservation ----

  function KindTotal(rows: seq<Movement>, kind: Kind): int {
    if rows == [] then 0 else KindTotal(rows[..|rows| - 1], kind) + if rows[|rows| - 1].kind == kind then rows[|rows| - 1].delta else 0
  }

  /** Quantity sold and not taken back, judged against all the rows. */
  function OpenSold(all: seq<Movement>, rows: seq<Movement>): int {
    if rows == [] then 0
    else OpenSold(all, rows[..|rows| - 1])
         + if rows[|rows| - 1].kind == SALE && !IsReversed(all, rows[|rows| - 1].id) then -rows[|rows| - 1].delta else 0
  }

  lemma IsReversedSnoc(all: seq<Movement>, m: Movement, id: MovementId)
    ensures IsReversed(all + [m], id) <==> IsReversed(all, id) || m.reverses == Some(id)
  {
    if IsReversed(all, id) {
      var i :| 0 <= i < |all| && all[i].reverses == Some(id);
      assert (all + [m])[i].reverses == Some(id);
    }
    if m.reverses == Some(id) { assert (all + [m])[|all|].reverses == Some(id); }
  }

  /** A row that reverses nothing leaves the open sales open. */
  lemma {:induction false} OpenSoldKept(all: seq<Movement>, rows: seq<Movement>, m: Movement)
    requires m.reverses.None?
    ensures OpenSold(all + [m], rows) == OpenSold(all, rows)
    decreases |rows|
  {
    if rows != [] {
      OpenSoldKept(all, rows[..|rows| - 1], m);
      IsReversedSnoc(all, m, rows[|rows| - 1].id);
    }
  }

  /** A cancellation closes exactly the sale it undoes. */
  lemma {:induction false} OpenSoldClosed(all: seq<Movement>, rows: seq<Movement>, m: Movement, j: int)
    requires m.reverses.Some? && !IsReversed(all, m.reverses.value)
    requires forall a, b :: 0 <= a < b < |rows| ==> rows[a].id != rows[b].id
    requires -1 <= j < |rows| && (j >= 0 ==> Undoes(m, rows[j]))
    requires j == -1 ==> forall a :: 0 <= a < |rows| ==> rows[a].id != m.reverses.value
    ensures OpenSold(all + [m], rows) == OpenSold(all, rows) - if j == -1 then 0 else m.delta
    decreases |rows|
  {
    if rows != [] {
      var last := rows[|rows| - 1];
      IsReversedSnoc(all, m, last.id);
      OpenSoldClosed(all, rows[..|rows| - 1], m, if j == |rows| - 1 then -1 else j);
    }
  }

  ghost predicate RowsApart(rows: seq<Movement>) {
    forall a, b :: 0 <= a < b < |rows| ==> rows[a].id != rows[b].id && (rows[a].reverses.Some? ==> rows[a].reverses != rows[b].reverses)
  }

  lemma {:induction false} OfApart(ms: seq<Movement>, key: StockKey)
    requires AllApart(ms)
    ensures RowsApart(Of(ms, key))
    decreases |ms|
  {
    if ms != [] {
      OfApart(ms[1..], key);
      Rows.Members(KeyOf, ms[1..], key);
      var rest := Of(ms[1..], key);
      forall b | 0 <= b < |rest|
        ensures ms[0].id != rest[b].id && (ms[0].reverses.Some? ==> ms[0].reverses != rest[b].reverses)
      {
        var i :| 0 <= i < |ms[1..]| && ms[1..][i] == rest[b];
        assert Apart(ms[0], ms[i + 1]);
      }
    }
  }

  lemma FrontKept(rows: seq<Movement>)
    requires |rows| > 1 && Chained(rows) && Backed(rows) && RowsApart(rows)
    ensures Chained(rows[..|rows| - 1]) && Backed(rows[..|rows| - 1]) && RowsApart(rows[..|rows| - 1])
  {
    var front := rows[..|rows| - 1];
    forall i | 0 <= i < |front| && front[i].reverses.Some?
      ensures exists j :: 0 <= j < i && Undoes(front[i], front[j])
    {
      var j :| 0 <= j < i && Undoes(rows[i], rows[j]);
      assert Undoes(front[i], front[j]);
    }
  }

  /** One more row changes the open sales by its own sale or by the sale it takes back. */
  lemma OpenSoldSnoc(front: seq<Movement>, m: Movement)
    requires Backed(front + [m]) && RowsApart(front + [m]) && MovementRowOk(m)
    ensures OpenSold(front + [m], front + [m]) == OpenSold(front, front)
              - if m.kind in {SALE, CANCELLATION} then m.delta else 0
  {
    var rows := front + [m];
    assert rows[..|front|] == front && rows[|front|] == m;
    if m.reverses.Some? {
      var j :| 0 <= j < |front| && Undoes(rows[|front|], rows[j]);
      forall i | 0 <= i < |front| ensures front[i].reverses != m.reverses {
        assert rows[i].reverses.Some? ==> rows[i].reverses != rows[|front|].reverses;
      }
      forall a, b | 0 <= a < b < |front| ensures front[a].id != front[b].id {
        assert rows[a].id != rows[b].id;
      }
      OpenSoldClosed(front, front, m, j);
    } else {
      OpenSoldKept(front, front, m);
      if m.kind == SALE { NewSaleIsOpen(rows, |front|); }
    }
  }

  /** The chain ends at opening plus corrections minus open sales. */
  lemma {:induction false} ChainBalances(rows: seq<Movement>)
    requires rows != [] && Chained(rows) && Backed(rows) && RowsApart(rows)
    ensures rows[|rows| - 1].after == rows[0].after + KindTotal(rows, CORRECTION) - OpenSold(rows, rows)
    decreases |rows|
  {
    var n := |rows| - 1;
    var front, m := rows[..n], rows[n];
    assert front + [m] == rows;
    OpenSoldSnoc(front, m);
    if n > 0 {
      FrontKept(rows);
      ChainBalances(front);
    } else {
      assert front == [];
    }
  }

  /** And it ends at the sum of its movements, kind by kind. */
  lemma {:induction false} ChainIsSum(rows: seq<Movement>)
    requires rows != [] && Chained(rows)
    ensures rows[|rows| - 1].after
         == KindTotal(rows, INITIALIZATION) + KindTotal(rows, SALE) + KindTotal(rows, CANCELLATION) + KindTotal(rows, CORRECTION)
    decreases |rows|
  {
    var front := rows[..|rows| - 1];
    if front == [] {
      assert forall kind :: KindTotal(front, kind) == 0;
    } else {
      ChainIsSum(front);
    }
  }

  lemma NewSaleIsOpen(rows: seq<Movement>, n: nat)
    requires n == |rows| - 1 && Backed(rows) && RowsApart(rows) && rows[n].kind == SALE && rows[n].reverses.None?
    ensures !IsReversed(rows, rows[n].id)
  {
    forall i | 0 <= i < |rows| ensures rows[i].reverses != Some(rows[n].id) {
      if rows[i].reverses.Some? {
        var j :| 0 <= j < i && Undoes(rows[i], rows[j]);
      }
    }
  }

  /** In every run, a stock is never negative and equals what it was opened with, plus corrections,
      minus the sales that were not taken back; and every sale is taken back at most once. */
  lemma StockIsConserved(events: seq<Event>, key: StockKey)
    requires key in Run(Empty, events).stocks
    ensures var l := Run(Empty, events);
            var rows := Of(l.movements, key);
            && 0 <= l.stocks[key].quantity
            && l.stocks[key].quantity == l.stocks[key].initial + KindTotal(rows, CORRECTION) - OpenSold(rows, rows)
            && (forall i, j :: 0 <= i < j < |rows| && rows[i].reverses.Some? ==> rows[i].reverses != rows[j].reverses)
  {
    RunKeepsBooks(Empty, events);
    var l := Run(Empty, events);
    assert AccountOk(l.stocks[key], Of(l.movements, key));
    OfApart(l.movements, key);
    ChainBalances(Of(l.movements, key));
  }
}
