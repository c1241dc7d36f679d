/** What a sale, a cancellation and a count do to the stocks, read off the rows alone. */
module InventoryLaws {
  import opened Common
  import opened Inventory
  import opened InventoryBooks
  import Rows
  import Sorting

  // ---- Cancelling ----

  ghost predicate TakenBack(ms: seq<Movement>, sale: Movement) {
    exists i :: 0 <= i < |ms| && ms[i].reverses == Some(sale.id)
  }

  /** A sale of one of the items, on this stock, that nothing has taken back. */
  ghost predicate Returns(all: seq<Movement>, m: Movement, key: StockKey, items: set<ItemId>) {
    m.key == key && m.kind == SALE && (exists item :: item in items && m.item == Some(item)) && !TakenBack(all, m)
  }

  ghost function ReturnOf(all: seq<Movement>, key: StockKey, items: set<ItemId>): Movement -> int {
    (m: Movement) => if Returns(all, m, key, items) then -m.delta else 0
  }

  /** What comes back to a stock when the items are cancelled. */
  ghost function Returned(l: Ledger, key: StockKey, items: set<ItemId>): int {
    Sorting.SumBy(ReturnOf(l.movements, key, items), l.movements)
  }

  function Back(key: StockKey): Movement -> int {
    (m: Movement) => if m.key == key then -m.delta else 0
  }

  lemma {:induction false} OpenSalesSum(all: seq<Movement>, ms: seq<Movement>, key: StockKey, items: set<ItemId>)
    ensures Sorting.SumBy(Back(key), OpenSales(all, ms, key.event, key.mode, items)) == Sorting.SumBy(ReturnOf(all, key, items), ms)
    decreases |ms|
  {
    if ms != [] {
      OpenSalesSum(all, ms[1..], key, items);
      var rest := OpenSales(all, ms[1..], key.event, key.mode, items);
      assert ([ms[0]] + rest)[1..] == rest;
    }
  }

  lemma {:induction false} OtherStocksOpenNothing(all: seq<Movement>, ms: seq<Movement>, event: nat, mode: DataMode, key: StockKey, items: set<ItemId>)
    requires key.event != event || key.mode != mode
    ensures Sorting.SumBy(Back(key), OpenSales(all, ms, event, mode, items)) == 0
    decreases |ms|
  {
    if ms != [] {
      OtherStocksOpenNothing(all, ms[1..], event, mode, key, items);
      var rest := OpenSales(all, ms[1..], event, mode, items);
      assert ([ms[0]] + rest)[1..] == rest;
    }
  }

  lemma {:induction false} ReturnedIsOpen(all: seq<Movement>, ms: seq<Movement>, event: nat, mode: DataMode, items: set<ItemId>, m: Movement)
    ensures m in OpenSales(all, ms, event, mode, items)
            <==> m in ms && m.key.event == event && m.key.mode == mode && Returns(all, m, m.key, items)
    decreases |ms|
  {
    if ms != [] { ReturnedIsOpen(all, ms[1..], event, mode, items, m); }
  }

  /** What booking a list of cancellations leaves. */
  ghost predicate BooksBack(l: Ledger, sales: seq<Movement>, order: OrderId, l': Ledger) {
    && l'.stocks.Keys == l.stocks.Keys
    && |l.movements| <= |l'.movements| && l'.movements[..|l.movements|] == l.movements
    && (forall key :: key in l.stocks ==>
          l'.stocks[key] == if l.stocks[key].tracked then l.stocks[key].(quantity := l.stocks[key].quantity + Sorting.SumBy(Back(key), sales))
                            else l.stocks[key])
    && (forall i :: 0 <= i < |sales| && Tracked(l.stocks, sales[i].key) ==> TakenBack(l'.movements, sales[i]))
    && (forall i :: |l.movements| <= i < |l'.movements| ==>
          exists j :: 0 <= j < |sales| && TakesBack(l'.movements[i], sales[j], order))
  }

  predicate TakesBack(m: Movement, sale: Movement, order: OrderId) {
    && m.kind == CANCELLATION && m.reverses == Some(sale.id) && m.delta == -sale.delta
    && m.key == sale.key && m.item == sale.item && m.order == Some(order)
  }

  lemma PostedBack(l: Ledger, sale: Movement, order: OrderId, stamp: Stamp)
    requires Tracked(l.stocks, sale.key)
    ensures var row := CancelRow(l, sale, order, stamp);
            && TakesBack(row, sale, order) && TakenBack(Post(l, row).movements, sale)
            && Post(l, row).stocks == l.stocks[sale.key := l.stocks[sale.key].(quantity := l.stocks[sale.key].quantity - sale.delta)]
            && Post(l, row).movements == l.movements + [row]
  {
    var row := CancelRow(l, sale, order, stamp);
    assert Post(l, row).movements[|l.movements|] == row;
  }

  lemma BookedOnTop(l: Ledger, next: Ledger, sales: seq<Movement>, order: OrderId, l': Ledger)
    requires sales != [] && Tracked(l.stocks, sales[0].key) && BooksBack(next, sales[1..], order, l')
    requires next.stocks == l.stocks[sales[0].key := l.stocks[sales[0].key].(quantity := l.stocks[sales[0].key].quantity - sales[0].delta)]
    requires |next.movements| == |l.movements| + 1 && next.movements[..|l.movements|] == l.movements
    requires TakesBack(next.movements[|l.movements|], sales[0], order)
    ensures BooksBack(l, sales, order, l')
  {
    assert l'.movements[..|l.movements|] == l'.movements[..|next.movements|][..|l.movements|];
    assert l'.movements[|l.movements|] == l'.movements[..|next.movements|][|l.movements|] == next.movements[|l.movements|];
    forall i | 0 <= i < |sales| && Tracked(l.stocks, sales[i].key) ensures TakenBack(l'.movements, sales[i]) {
      if i > 0 { assert sales[i] == sales[1..][i - 1]; }
    }
    forall i | |l.movements| <= i < |l'.movements| ensures exists j :: 0 <= j < |sales| && TakesBack(l'.movements[i], sales[j], order) {
      if i > |l.movements| {
        var j :| 0 <= j < |sales[1..]| && TakesBack(l'.movements[i], sales[1..][j], order);
        assert TakesBack(l'.movements[i], sales[j + 1], order);
      }
    }
  }

  lemma {:induction false} CancelSalesBookBack(l: Ledger, sales: seq<Movement>, order: OrderId, stamps: Stamps, k: nat)
    requires CancelSales(l, sales, order, stamps, k).Some?
    ensures BooksBack(l, sales, order, CancelSales(l, sales, order, stamps, k).value)
    decreases |sales|
  {
    var l' := CancelSales(l, sales, order, stamps, k).value;
    if sales == [] {
      assert l'.movements[..|l.movements|] == l.movements;
    } else if !Tracked(l.stocks, sales[0].key) {
      CancelSalesBookBack(l, sales[1..], order, stamps, k + 1);
      UntrackedSkipped(l, sales, order, l');
    } else {
      var row := CancelRow(l, sales[0], order, stamps(k));
      PostedBack(l, sales[0], order, stamps(k));
      CancelSalesBookBack(Post(l, row), sales[1..], order, stamps, k + 1);
      BookedOnTop(l, Post(l, row), sales, order, l');
    }
  }

  lemma UntrackedSkipped(l: Ledger, sales: seq<Movement>, order: OrderId, l': Ledger)
    requires sales != [] && !Tracked(l.stocks, sales[0].key) && BooksBack(l, sales[1..], order, l')
    ensures BooksBack(l, sales, order, l')
  {
    forall i | 0 <= i < |sales| && Tracked(l.stocks, sales[i].key) ensures TakenBack(l'.movements, sales[i]) {
      assert sales[i] == sales[1..][i - 1];
    }
    forall i | |l.movements| <= i < |l'.movements| ensures exists j :: 0 <= j < |sales| && TakesBack(l'.movements[i], sales[j], order) {
      var j :| 0 <= j < |sales[1..]| && TakesBack(l'.movements[i], sales[1..][j], order);
      assert TakesBack(l'.movements[i], sales[j + 1], order);
    }
  }

  lemma SortedSalesSum(sales: seq<Movement>, key: StockKey)
    ensures multiset(Sorting.Sort(sales, SaleOrder)) == multiset(sales)
    ensures Sorting.SumBy(Back(key), Sorting.Sort(sales, SaleOrder)) == Sorting.SumBy(Back(key), sales)
  {
    SaleOrderIsOrder();
    Sorting.SortSorts(sales, SaleOrder);
    Sorting.SumIgnoresOrder(Back(key), Sorting.Sort(sales, SaleOrder), sales);
  }

  /** Sales of the items in this event and mode, whose stock is tracked. */
  ghost predicate SaleOf(l: Ledger, m: Movement, event: nat, mode: DataMode, items: set<ItemId>) {
    && m in l.movements && m.kind == SALE && m.key.event == event && m.key.mode == mode
    && (exists item :: item in items && m.item == Some(item)) && Tracked(l.stocks, m.key)
  }

  ghost predicate TakesBackOne(l: Ledger, m: Movement, event: nat, mode: DataMode, items: set<ItemId>, order: OrderId) {
    exists sale :: sale in l.movements && sale.key.event == event && sale.key.mode == mode
                   && Returns(l.movements, sale, sale.key, items) && TakesBack(m, sale, order)
  }

  /** A cancellation takes back every open sale of its items on a tracked stock and nothing else: the
      stocks of its event and mode rise by what those sold, all other stocks and all earlier rows stay. */
  lemma CancellingReturnsAll(l: Ledger, event: nat, mode: DataMode, order: OrderId, items: set<ItemId>, stamps: Stamps)
    requires Cancel(l, event, mode, order, items, stamps).Some?
    ensures var l' := Cancel(l, event, mode, order, items, stamps).value;
            && l'.stocks.Keys == l.stocks.Keys
            && |l.movements| <= |l'.movements| && l'.movements[..|l.movements|] == l.movements
            && (forall m :: SaleOf(l, m, event, mode, items) ==> TakenBack(l'.movements, m))
            && (forall key :: key in l.stocks ==>
                  l'.stocks[key] == if l.stocks[key].tracked && key.event == event && key.mode == mode
                                    then l.stocks[key].(quantity := l.stocks[key].quantity + Returned(l, key, items)) else l.stocks[key])
            && (forall i :: |l.movements| <= i < |l'.movements| ==> TakesBackOne(l, l'.movements[i], event, mode, items, order))
  {
    var open := OpenSales(l.movements, l.movements, event, mode, items);
    var sales := Sorting.Sort(open, SaleOrder);
    var l' := Cancel(l, event, mode, order, items, stamps).value;
    CancelSalesBookBack(l, sales, order, stamps, 0);
    forall key | key in l.stocks
      ensures Sorting.SumBy(Back(key), sales) == if key.event == event && key.mode == mode then Returned(l, key, items) else 0
    {
      BackIsReturned(l, event, mode, items, key);
    }
    forall m | SaleOf(l, m, event, mode, items) ensures TakenBack(l'.movements, m) { SaleIsTakenBack(l, event, mode, order, items, l', sales, m); }
    forall i | |l.movements| <= i < |l'.movements| ensures TakesBackOne(l, l'.movements[i], event, mode, items, order) {
      var j :| 0 <= j < |sales| && TakesBack(l'.movements[i], sales[j], order);
      SortedSalesAreOpen(l, event, mode, items, sales[j]);
    }
  }

  lemma BackIsReturned(l: Ledger, event: nat, mode: DataMode, items: set<ItemId>, key: StockKey)
    ensures Sorting.SumBy(Back(key), Sorting.Sort(OpenSales(l.movements, l.movements, event, mode, items), SaleOrder))
         == if key.event == event && key.mode == mode then Returned(l, key, items) else 0
  {
    SortedSalesSum(OpenSales(l.movements, l.movements, event, mode, items), key);
    if key.event == event && key.mode == mode { OpenSalesSum(l.movements, l.movements, key, items); }
    else { OtherStocksOpenNothing(l.movements, l.movements, event, mode, key, items); }
  }

  /** The sales that are taken back are exactly the open ones. */
  lemma SortedSalesAreOpen(l: Ledger, event: nat, mode: DataMode, items: set<ItemId>, m: Movement)
    ensures m in Sorting.Sort(OpenSales(l.movements, l.movements, event, mode, items), SaleOrder)
            <==> m in l.movements && m.key.event == event && m.key.mode == mode && Returns(l.movements, m, m.key, items)
  {
    var open := OpenSales(l.movements, l.movements, event, mode, items);
    SortedSalesSum(open, m.key);
    assert m in Sorting.Sort(open, SaleOrder) <==> m in multiset(Sorting.Sort(open, SaleOrder));
    ReturnedIsOpen(l.movements, l.movements, event, mode, items, m);
  }

  lemma SaleIsTakenBack(l: Ledger, event: nat, mode: DataMode, order: OrderId, items: set<ItemId>, l': Ledger, sales: seq<Movement>, m: Movement)
    requires sales == Sorting.Sort(OpenSales(l.movements, l.movements, event, mode, items), SaleOrder)
    requires BooksBack(l, sales, order, l') && SaleOf(l, m, event, mode, items)
    ensures TakenBack(l'.movements, m)
  {
    if TakenBack(l.movements, m) {
      var i :| 0 <= i < |l.movements| && l.movements[i].reverses == Some(m.id);
      assert l'.movements[i] == l'.movements[..|l.movements|][i];
    } else {
      SortedSalesAreOpen(l, event, mode, items, m);
      var i :| 0 <= i < |sales| && sales[i] == m;
    }
  }

  // ---- When a cancellation goes through ----

  lemma {:induction false} NothingGoesAway(sales: seq<Movement>, key: StockKey)
    requires forall s :: s in sales ==> s.delta < 0
    ensures Sorting.SumBy(Back(key), sales) >= 0
  {
    if sales != [] {
      assert sales[0] in sales;
      NothingGoesAway(sales[1..], key);
    }
  }

  ghost predicate RoomFor(l: Ledger, sales: seq<Movement>) {
    forall key :: key in l.stocks && l.stocks[key].tracked ==> l.stocks[key].quantity + Sorting.SumBy(Back(key), sales) <= 2147483647
  }

  lemma RoomStepsDown(l: Ledger, sales: seq<Movement>, order: OrderId, stamp: Stamp)
    requires sales != [] && Tracked(l.stocks, sales[0].key)
    ensures RoomFor(Post(l, CancelRow(l, sales[0], order, stamp)), sales[1..]) <==> RoomFor(l, sales)
  {
    var next := Post(l, CancelRow(l, sales[0], order, stamp));
    assert forall key :: key in l.stocks ==>
      next.stocks[key].quantity + Sorting.SumBy(Back(key), sales[1..]) == l.stocks[key].quantity + Sorting.SumBy(Back(key), sales);
    assert forall key :: key in l.stocks ==> (next.stocks[key].tracked <==> l.stocks[key].tracked);
  }

  lemma RoomSkips(l: Ledger, sales: seq<Movement>)
    requires sales != [] && !Tracked(l.stocks, sales[0].key)
    ensures RoomFor(l, sales[1..]) <==> RoomFor(l, sales)
  {
    assert forall key :: key in l.stocks && l.stocks[key].tracked ==> Sorting.SumBy(Back(key), sales[1..]) == Sorting.SumBy(Back(key), sales);
  }

  lemma {:induction false} CancelSalesFit(l: Ledger, sales: seq<Movement>, order: OrderId, stamps: Stamps, k: nat)
    requires forall s :: s in sales ==> s.delta < 0 && s.item.Some?
    requires forall key :: key in l.stocks ==> InRange(l.stocks[key].quantity)
    ensures CancelSales(l, sales, order, stamps, k).Some? <==> RoomFor(l, sales)
    decreases |sales|
  {
    if sales == [] {
    } else if !Tracked(l.stocks, sales[0].key) {
      RoomSkips(l, sales);
      CancelSalesFit(l, sales[1..], order, stamps, k + 1);
    } else {
      assert sales[0] in sales;
      var row := CancelRow(l, sales[0], order, stamps(k));
      if MovementRowOk(row) {
        RoomStepsDown(l, sales, order, stamps(k));
        CancelSalesFit(Post(l, row), sales[1..], order, stamps, k + 1);
      } else {
        NothingGoesAway(sales[1..], sales[0].key);
        assert Sorting.SumBy(Back(sales[0].key), sales) == -sales[0].delta + Sorting.SumBy(Back(sales[0].key), sales[1..]);
      }
    }
  }

  /** A cancellation is refused exactly if some stock could not hold what comes back. */
  lemma CancellingNeedsRoom(l: Ledger, event: nat, mode: DataMode, order: OrderId, items: set<ItemId>, stamps: Stamps)
    requires Books(l)
    ensures Cancel(l, event, mode, order, items, stamps).Some?
            <==> forall key :: key in l.stocks && l.stocks[key].tracked && key.event == event && key.mode == mode ==>
                   l.stocks[key].quantity + Returned(l, key, items) <= 2147483647
  {
    var sales := Sorting.Sort(OpenSales(l.movements, l.movements, event, mode, items), SaleOrder);
    forall s | s in sales ensures s.delta < 0 && s.item.Some? {
      SortedSalesAreOpen(l, event, mode, items, s);
      RowsAreSound(l, s);
    }
    forall key | key in l.stocks
      ensures InRange(l.stocks[key].quantity)
      ensures Sorting.SumBy(Back(key), sales) == if key.event == event && key.mode == mode then Returned(l, key, items) else 0
    {
      StocksAreInRange(l, key);
      BackIsReturned(l, event, mode, items, key);
    }
    if forall key :: key in l.stocks && l.stocks[key].tracked && key.event == event && key.mode == mode ==>
         l.stocks[key].quantity + Returned(l, key, items) <= 2147483647
    {
      assert RoomFor(l, sales);
    }
    CancelSalesFit(l, sales, order, stamps, 0);
  }

  lemma RowsAreSound(l: Ledger, m: Movement)
    requires Books(l) && m in l.movements
    ensures MovementRowOk(m)
  {
    Rows.Members(KeyOf, l.movements, m.key);
    assert m.key in l.stocks;
    assert AccountOk(l.stocks[m.key], Of(l.movements, m.key));
  }

  lemma StocksAreInRange(l: Ledger, key: StockKey)
    requires Books(l) && key in l.stocks
    ensures InRange(l.stocks[key].quantity)
  {
    assert AccountOk(l.stocks[key], Of(l.movements, key));
  }

  // ---- Selling ----

  function Wanted(p: Product): Item -> int { (item: Item) => if item.product == p then item.quantity else 0 }

  /** How many units of a product the items ask for together. */
  function Needed(items: seq<Item>, p: Product): int { Sorting.SumBy(Wanted(p), items) }

  lemma {:induction false} OrderedIsNeeded(items: seq<Item>, p: Product)
    ensures Ordered(items, p) == Needed(items, p)
  {
    if items != [] { OrderedIsNeeded(items[1..], p); }
  }

  function IsTracked(stocks: map<StockKey, Stock>, event: nat, mode: DataMode): Item -> int {
    (item: Item) => if Tracked(stocks, StockKey(item.product, event, mode)) then 1 else 0
  }

  predicate SoldFor(m: Movement, item: Item, event: nat, mode: DataMode, order: OrderId) {
    && m.kind == SALE && m.key == StockKey(item.product, event, mode) && m.delta == 0 - item.quantity
    && m.item == Some(item.id) && m.order == Some(order) && m.reverses.None? && m.idem == SaleKey(item.id)
  }

  ghost predicate StocksTaken(l: Ledger, event: nat, mode: DataMode, items: seq<Item>, l': Ledger) {
    && l'.stocks.Keys == l.stocks.Keys
    && forall key :: key in l.stocks ==>
         l'.stocks[key] == if l.stocks[key].tracked && key.event == event && key.mode == mode
                           then l.stocks[key].(quantity := l.stocks[key].quantity - Needed(items, key.product)) else l.stocks[key]
  }

  /** Every item on a tracked stock has a new row, and there are no others. */
  ghost predicate RowsForAll(l: Ledger, event: nat, mode: DataMode, order: OrderId, items: seq<Item>, l': Ledger) {
    forall item :: item in items && Tracked(l.stocks, StockKey(item.product, event, mode)) ==>
      exists i :: |l.movements| <= i < |l'.movements| && SoldFor(l'.movements[i], item, event, mode, order)
  }

  ghost predicate SoldForOne(m: Movement, event: nat, mode: DataMode, order: OrderId, items: seq<Item>) {
    exists item :: item in items && SoldFor(m, item, event, mode, order)
  }

  ghost predicate RowsForNoOther(l: Ledger, event: nat, mode: DataMode, order: OrderId, items: seq<Item>, l': Ledger) {
    && |l'.movements| - |l.movements| == Sorting.SumBy(IsTracked(l.stocks, event, mode), items)
    && forall i :: |l.movements| <= i < |l'.movements| ==> SoldForOne(l'.movements[i], event, mode, order, items)
  }

  /** What recording a list of items leaves. */
  ghost predicate SoldAll(l: Ledger, event: nat, mode: DataMode, order: OrderId, items: seq<Item>, l': Ledger) {
    && StocksTaken(l, event, mode, items, l')
    && |l.movements| <= |l'.movements| && l'.movements[..|l.movements|] == l.movements
    && RowsForAll(l, event, mode, order, items, l') && RowsForNoOther(l, event, mode, order, items, l')
  }

  lemma {:induction false} SameTracking(a: map<StockKey, Stock>, b: map<StockKey, Stock>, event: nat, mode: DataMode, items: seq<Item>)
    requires forall key :: Tracked(a, key) <==> Tracked(b, key)
    ensures Sorting.SumBy(IsTracked(a, event, mode), items) == Sorting.SumBy(IsTracked(b, event, mode), items)
    decreases |items|
  {
    if items != [] { SameTracking(a, b, event, mode, items[1..]); }
  }

  /** The first item is booked on its tracked stock. */
  ghost predicate OneSold(l: Ledger, event: nat, mode: DataMode, order: OrderId, item: Item, next: Ledger) {
    var key := StockKey(item.product, event, mode);
    && Tracked(l.stocks, key) && next.stocks == l.stocks[key := l.stocks[key].(quantity := l.stocks[key].quantity - item.quantity)]
    && |next.movements| == |l.movements| + 1 && next.movements[..|l.movements|] == l.movements
    && SoldFor(next.movements[|l.movements|], item, event, mode, order)
  }

  lemma TakenOnTop(l: Ledger, next: Ledger, event: nat, mode: DataMode, order: OrderId, items: seq<Item>, l': Ledger)
    requires items != [] && OneSold(l, event, mode, order, items[0], next) && StocksTaken(next, event, mode, items[1..], l')
    ensures StocksTaken(l, event, mode, items, l')
  {
  }

  lemma RowsKept(l: Ledger, next: Ledger, l': Ledger)
    requires |next.movements| == |l.movements| + 1 <= |l'.movements|
    requires next.movements[..|l.movements|] == l.movements && l'.movements[..|next.movements|] == next.movements
    ensures l'.movements[..|l.movements|] == l.movements && l'.movements[|l.movements|] == next.movements[|l.movements|]
  {
    assert l'.movements[..|l.movements|] == l'.movements[..|next.movements|][..|l.movements|];
    assert l'.movements[|l.movements|] == l'.movements[..|next.movements|][|l.movements|];
  }

  lemma RowsOnTop(l: Ledger, next: Ledger, event: nat, mode: DataMode, order: OrderId, items: seq<Item>, l': Ledger)
    requires items != [] && |l'.movements| > |l.movements| && SoldFor(l'.movements[|l.movements|], items[0], event, mode, order)
    requires |next.movements| == |l.movements| + 1 && forall key :: Tracked(l.stocks, key) <==> Tracked(next.stocks, key)
    requires RowsForAll(next, event, mode, order, items[1..], l')
    ensures RowsForAll(l, event, mode, order, items, l')
  {
    forall item | item in items && Tracked(l.stocks, StockKey(item.product, event, mode))
      ensures exists i :: |l.movements| <= i < |l'.movements| && SoldFor(l'.movements[i], item, event, mode, order)
    {
      if item == items[0] { assert SoldFor(l'.movements[|l.movements|], item, event, mode, order); }
      else {
        assert item in items[1..] && Tracked(next.stocks, StockKey(item.product, event, mode));
        var i :| |next.movements| <= i < |l'.movements| && SoldFor(l'.movements[i], item, event, mode, order);
      }
    }
  }

  lemma NoOtherOnTop(l: Ledger, next: Ledger, event: nat, mode: DataMode, order: OrderId, items: seq<Item>, l': Ledger)
    requires items != [] && |l'.movements| > |l.movements| && SoldFor(l'.movements[|l.movements|], items[0], event, mode, order)
    requires |next.movements| == |l.movements| + 1 && Tracked(l.stocks, StockKey(items[0].product, event, mode))
    requires forall key :: Tracked(l.stocks, key) <==> Tracked(next.stocks, key)
    requires RowsForNoOther(next, event, mode, order, items[1..], l')
    ensures RowsForNoOther(l, event, mode, order, items, l')
  {
    SameTracking(l.stocks, next.stocks, event, mode, items[1..]);
    forall i | |l.movements| <= i < |l'.movements| ensures SoldForOne(l'.movements[i], event, mode, order, items) {
      if i == |l.movements| { assert items[0] in items && SoldFor(l'.movements[i], items[0], event, mode, order); }
      else {
        assert SoldForOne(l'.movements[i], event, mode, order, items[1..]);
        var item :| item in items[1..] && SoldFor(l'.movements[i], item, event, mode, order);
        assert item in items;
      }
    }
  }

  lemma SoldOnTop(l: Ledger, next: Ledger, event: nat, mode: DataMode, order: OrderId, items: seq<Item>, l': Ledger)
    requires items != [] && OneSold(l, event, mode, order, items[0], next) && SoldAll(next, event, mode, order, items[1..], l')
    ensures SoldAll(l, event, mode, order, items, l')
  {
    TakenOnTop(l, next, event, mode, order, items, l');
    RowsKept(l, next, l');
    RowsOnTop(l, next, event, mode, order, items, l');
    NoOtherOnTop(l, next, event, mode, order, items, l');
  }

  lemma SoldElsewhere(l: Ledger, event: nat, mode: DataMode, order: OrderId, items: seq<Item>, l': Ledger)
    requires items != [] && !Tracked(l.stocks, StockKey(items[0].product, event, mode)) && SoldAll(l, event, mode, order, items[1..], l')
    ensures SoldAll(l, event, mode, order, items, l')
  {
    forall item | item in items && Tracked(l.stocks, StockKey(item.product, event, mode)) ensures item in items[1..] { }
    forall i | |l.movements| <= i < |l'.movements| ensures SoldForOne(l'.movements[i], event, mode, order, items) {
      assert SoldForOne(l'.movements[i], event, mode, order, items[1..]);
      var item :| item in items[1..] && SoldFor(l'.movements[i], item, event, mode, order);
      assert item in items;
    }
  }

  lemma {:induction false} SellItemsSellAll(l: Ledger, event: nat, mode: DataMode, order: OrderId, items: seq<Item>, stamps: Stamps, k: nat)
    ensures SoldAll(l, event, mode, order, items, SellItems(l, event, mode, order, items, stamps, k))
    decreases |items|
  {
    var l' := SellItems(l, event, mode, order, items, stamps, k);
    if items == [] {
      assert l'.movements[..|l.movements|] == l.movements;
    } else if Tracked(l.stocks, StockKey(items[0].product, event, mode)) {
      var row := SaleRow(l, event, mode, order, items[0], stamps(k));
      assert Post(l, row).movements[|l.movements|] == row;
      SellItemsSellAll(Post(l, row), event, mode, order, items[1..], stamps, k + 1);
      SoldOnTop(l, Post(l, row), event, mode, order, items, l');
    } else {
      SellItemsSellAll(l, event, mode, order, items[1..], stamps, k + 1);
      SoldElsewhere(l, event, mode, order, items, l');
    }
  }

  lemma SoldInAnyOrder(l: Ledger, event: nat, mode: DataMode, order: OrderId, a: seq<Item>, b: seq<Item>, l': Ledger)
    requires multiset(a) == multiset(b) && SoldAll(l, event, mode, order, a, l')
    ensures SoldAll(l, event, mode, order, b, l')
  {
    assert forall item :: item in a <==> item in multiset(a);
    assert forall item :: item in b <==> item in multiset(b);
    Sorting.SumIgnoresOrder(IsTracked(l.stocks, event, mode), a, b);
    forall key | key in l.stocks ensures Needed(a, key.product) == Needed(b, key.product) { Sorting.SumIgnoresOrder(Wanted(key.product), a, b); }
  }

  ghost predicate Available(l: Ledger, event: nat, mode: DataMode, items: seq<Item>, item: Item, closed: set<Product>) {
    var key := StockKey(item.product, event, mode);
    && item.product !in closed
    && (key in l.stocks ==> !l.stocks[key].blocked && (l.stocks[key].tracked ==> Needed(items, item.product) <= l.stocks[key].quantity))
  }

  lemma AvailableCanSell(l: Ledger, event: nat, mode: DataMode, items: seq<Item>, closed: set<Product>)
    ensures CanSell(l, event, mode, items, closed) <==> forall item :: item in items ==> Available(l, event, mode, items, item, closed)
  {
    forall i | 0 <= i < |items|
      ensures Sellable(l.stocks, StockKey(items[i].product, event, mode), Ordered(items, items[i].product), closed)
              <==> Available(l, event, mode, items, items[i], closed)
    {
      OrderedIsNeeded(items, items[i].product);
    }
    if CanSell(l, event, mode, items, closed) {
      forall item | item in items ensures Available(l, event, mode, items, item, closed) {
        var i :| 0 <= i < |items| && items[i] == item;
        assert Sellable(l.stocks, StockKey(items[i].product, event, mode), Ordered(items, items[i].product), closed);
      }
    } else {
      var i :| 0 <= i < |items| && !Sellable(l.stocks, StockKey(items[i].product, event, mode), Ordered(items, items[i].product), closed);
      assert items[i] in items;
    }
  }

  /** A sale goes through exactly if no product is closed or blocked and every tracked stock holds all that is
      asked of it.  It then takes just that off each stock and writes one row per item on a tracked stock. */
  lemma SellingTakesAll(l: Ledger, event: nat, mode: DataMode, order: OrderId, items: seq<Item>, closed: set<Product>, stamps: Stamps)
    ensures Sell(l, event, mode, order, items, closed, stamps).Some?
            <==> forall item :: item in items ==> Available(l, event, mode, items, item, closed)
    ensures Sell(l, event, mode, order, items, closed, stamps).Some?
            ==> SoldAll(l, event, mode, order, items, Sell(l, event, mode, order, items, closed, stamps).value)
  {
    AvailableCanSell(l, event, mode, items, closed);
    if CanSell(l, event, mode, items, closed) {
      var sorted := Sorting.Sort(items, ById);
      ByIdIsOrder();
      Sorting.SortSorts(items, ById);
      SellItemsSellAll(l, event, mode, order, sorted, stamps, 0);
      SoldInAnyOrder(l, event, mode, order, sorted, items, SellItems(l, event, mode, order, sorted, stamps, 0));
    }
  }

  // ---- Opening, counting, blocking, resetting ----

  predicate KeyKnown(l: Ledger, key: nat) { exists m :: m in l.movements && m.idem == ClientKey(key) }

  lemma KnownIsUsed(l: Ledger, key: nat)
    ensures Used(l, ClientKey(key)) <==> KeyKnown(l, key)
  {
    if KeyKnown(l, key) {
      var m :| m in l.movements && m.idem == ClientKey(key);
      var i :| 0 <= i < |l.movements| && l.movements[i] == m;
    }
  }

  /** A stock is opened once, in the event's running mode, with a quantity that fits; an untracked one with none.
      Its first row brings it from nothing to that quantity. */
  lemma OpeningStocks(l: Ledger, c: Context, key: StockKey, tracked: bool, quantity: int, blocked: bool, idem: Request, stamp: Stamp)
    requires !KeyKnown(l, idem.key)
    ensures Initialize(l, c, key, tracked, quantity, blocked, idem, stamp).Some?
            <==> c.running == Some(key.mode) && c.productEvent == Some(key.event) && key !in l.stocks
                 && 0 <= quantity <= 2147483647 && (tracked || quantity == 0)
    ensures Initialize(l, c, key, tracked, quantity, blocked, idem, stamp).Some? ==>
              var l' := Initialize(l, c, key, tracked, quantity, blocked, idem, stamp).value;
              && l'.stocks == l.stocks[key := Stock(tracked, quantity, quantity, blocked)]
              && |l'.movements| == |l.movements| + 1 && l'.movements[..|l.movements|] == l.movements
              && var m := l'.movements[|l.movements|];
                 && m.key == key && m.kind == INITIALIZATION && m.before == 0 && m.after == m.delta == quantity
                 && m.order.None? && m.item.None? && m.reverses.None? && m.idem == ClientKey(idem.key) && m.fingerprint == idem.fingerprint
  {
    KnownIsUsed(l, idem.key);
  }

  /** A count sets a stock that is kept to another quantity that fits, and its row says by how much. */
  lemma CountingSetsStock(l: Ledger, c: Context, key: StockKey, quantity: int, idem: Request, stamp: Stamp)
    requires Books(l) && !KeyKnown(l, idem.key)
    ensures Correct(l, c, key, quantity, idem, stamp).Some?
            <==> c.running == Some(key.mode) && c.productEvent == Some(key.event) && key in l.stocks
                 && quantity != l.stocks[key].quantity && 0 <= quantity <= 2147483647 && l.stocks[key].tracked
    ensures Correct(l, c, key, quantity, idem, stamp).Some? ==>
              var l' := Correct(l, c, key, quantity, idem, stamp).value;
              && l'.stocks == l.stocks[key := l.stocks[key].(quantity := quantity)]
              && |l'.movements| == |l.movements| + 1 && l'.movements[..|l.movements|] == l.movements
              && var m := l'.movements[|l.movements|];
                 && m.key == key && m.kind == CORRECTION && m.before == l.stocks[key].quantity && m.before + m.delta == m.after == quantity
                 && m.order.None? && m.item.None? && m.reverses.None? && m.idem == ClientKey(idem.key) && m.fingerprint == idem.fingerprint
  {
    KnownIsUsed(l, idem.key);
    if key in l.stocks { assert AccountOk(l.stocks[key], Of(l.movements, key)); }
  }

  /** Blocking and unblocking touch nothing but the flag. */
  lemma BlockingSetsFlag(l: Ledger, c: Context, key: StockKey, blocked: bool)
    ensures Settings(l, c, key, blocked).Some? <==> c.running == Some(key.mode) && c.productEvent == Some(key.event) && key in l.stocks
    ensures Settings(l, c, key, blocked).Some? ==>
              Settings(l, c, key, blocked).value == Ledger(l.stocks[key := l.stocks[key].(blocked := blocked)], l.movements)
  {
  }
}
