/**
 * Stock per product, event and mode, and the append-only ledger of its movements.
 *
 * An operation is a function from the tables to the tables it leaves, or None where the
 * transaction is rolled back.  The class below performs the same operations in place.
 */
module Inventory {
  import opened Common
  import Sorting

  const MAX_INT := 2147483647

  type Product = nat
  type OrderId = nat
  type ItemId = nat
  type MovementId = nat

  datatype StockKey = StockKey(product: Product, event: nat, mode: DataMode)

  datatype Stock = Stock(tracked: bool, initial: int, quantity: int, blocked: bool)

  datatype Kind = INITIALIZATION | SALE | CANCELLATION | CORRECTION

  datatype IdempotencyKey = ClientKey(text: nat) | SaleKey(item: ItemId) | CancelKey(sale: MovementId)

  datatype Movement = Movement(
    id: MovementId, createdAt: int, key: StockKey, kind: Kind,
    delta: int, before: int, after: int,
    order: Option<OrderId>, item: Option<ItemId>, reverses: Option<MovementId>, idem: IdempotencyKey,
    fingerprint: nat)   // of the client's request; rows that the services number themselves are never compared by it

  /** A client's idempotency key with the fingerprint of everything else in its request. */
  datatype Request = Request(key: nat, fingerprint: nat)

  datatype Ledger = Ledger(stocks: map<StockKey, Stock>, movements: seq<Movement>)

  /** The identity and the time that a new row receives; the k-th row of an operation gets stamp(k). */
  datatype Stamp = Stamp(id: MovementId, at: int)

  type Stamps = nat -> Stamp

  datatype Item = Item(id: ItemId, product: Product, quantity: nat)

  // ---- The tables' own conditions on a row ----

  predicate InRange(n: int) { 0 <= n <= MAX_INT }

  predicate StockRowOk(s: Stock) {
    InRange(s.initial) && InRange(s.quantity) && (!s.tracked ==> s.initial == 0 && s.quantity == 0)
  }

  predicate TypeFieldsOk(m: Movement) {
    match m.kind
    case INITIALIZATION => m.before == 0 && m.delta >= 0 && m.after == m.delta && m.order.None? && m.item.None? && m.reverses.None?
    case SALE => m.delta < 0 && m.order.Some? && m.item.Some? && m.reverses.None?
    case CANCELLATION => m.delta > 0 && m.order.Some? && m.item.Some? && m.reverses.Some?
    case CORRECTION => m.delta != 0 && m.order.None? && m.item.None? && m.reverses.None?
  }

  predicate MovementRowOk(m: Movement) {
    InRange(m.before) && InRange(m.after) && m.after == m.before + m.delta && TypeFieldsOk(m)
  }

  predicate Used(l: Ledger, idem: IdempotencyKey) {
    exists i :: 0 <= i < |l.movements| && l.movements[i].idem == idem
  }

  /** A known key is a repetition only with the same fingerprint; with another one it is a conflict. */
  predicate Repeats(l: Ledger, idem: Request) {
    exists i :: 0 <= i < |l.movements| && l.movements[i].idem == ClientKey(idem.key) && l.movements[i].fingerprint == idem.fingerprint
  }

  // ---- Posting one movement ----

  function NewRow(l: Ledger, key: StockKey, kind: Kind, delta: int, order: Option<OrderId>, item: Option<ItemId>,
                  reverses: Option<MovementId>, idem: IdempotencyKey, stamp: Stamp): Movement
    requires key in l.stocks
  {
    var before := l.stocks[key].quantity;
    Movement(stamp.id, stamp.at, key, kind, delta, before, before + delta, order, item, reverses, idem, 0)
  }

  function Post(l: Ledger, m: Movement): Ledger
    requires m.key in l.stocks
  {
    Ledger(l.stocks[m.key := l.stocks[m.key].(quantity := m.after)], l.movements + [m])
  }

  // ---- The operations ----

  /** What the database says about the request: the mode its event runs in, and its product's event. */
  datatype Context = Context(running: Option<DataMode>, productEvent: Option<nat>)

  predicate Admits(c: Context, key: StockKey) {
    c.running == Some(key.mode) && c.productEvent == Some(key.event)
  }

  /** Starting to keep stock of a product. */
  function Initialize(l: Ledger, c: Context, key: StockKey, tracked: bool, quantity: int, blocked: bool, idem: Request, stamp: Stamp): Option<Ledger> {
    if !Admits(c, key) then None
    else if Used(l, ClientKey(idem.key)) then (if Repeats(l, idem) then Some(l) else None)
    else if key in l.stocks then None
    else
      var stock := Stock(tracked, quantity, quantity, blocked);
      var row := Movement(stamp.id, stamp.at, key, INITIALIZATION, quantity, 0, quantity, None, None, None, ClientKey(idem.key), idem.fingerprint);
      if StockRowOk(stock) && MovementRowOk(row) then Some(Ledger(l.stocks[key := stock], l.movements + [row])) else None
  }

  function CorrectionRow(l: Ledger, key: StockKey, quantity: int, idem: Request, stamp: Stamp): Movement
    requires key in l.stocks
  {
    NewRow(l, key, CORRECTION, quantity - l.stocks[key].quantity, None, None, None, ClientKey(idem.key), stamp).(fingerprint := idem.fingerprint)
  }

  /** Setting a counted quantity. */
  function Correct(l: Ledger, c: Context, key: StockKey, quantity: int, idem: Request, stamp: Stamp): Option<Ledger> {
    if !Admits(c, key) then None
    else if Used(l, ClientKey(idem.key)) then (if Repeats(l, idem) then Some(l) else None)
    else if key !in l.stocks then None
    else
      var row := CorrectionRow(l, key, quantity, idem, stamp);
      if MovementRowOk(row) && StockRowOk(l.stocks[key].(quantity := quantity)) then Some(Post(l, row)) else None
  }

  function Settings(l: Ledger, c: Context, key: StockKey, blocked: bool): Option<Ledger> {
    if !Admits(c, key) || key !in l.stocks then None
    else Some(l.(stocks := l.stocks[key := l.stocks[key].(blocked := blocked)]))
  }

  predicate Tracked(stocks: map<StockKey, Stock>, key: StockKey) { key in stocks && stocks[key].tracked }

  function Ordered(items: seq<Item>, p: Product): nat {
    if items == [] then 0
    else (if items[0].product == p then items[0].quantity else 0) + Ordered(items[1..], p)
  }

  /** A sale is possible when no product is closed or blocked and every tracked stock suffices. */
  ghost predicate CanSell(l: Ledger, event: nat, mode: DataMode, items: seq<Item>, closed: set<Product>) {
    forall i :: 0 <= i < |items| ==>
      var key := StockKey(items[i].product, event, mode);
      && items[i].product !in closed
      && (key in l.stocks ==> !l.stocks[key].blocked)
      && (Tracked(l.stocks, key) ==> Ordered(items, items[i].product) <= l.stocks[key].quantity)
  }

  function ById(a: Item, b: Item): bool { a.id <= b.id }

  function SaleRow(l: Ledger, event: nat, mode: DataMode, order: OrderId, item: Item, stamp: Stamp): Movement
    requires StockKey(item.product, event, mode) in l.stocks
  {
    NewRow(l, StockKey(item.product, event, mode), SALE, 0 - item.quantity, Some(order), Some(item.id), None, SaleKey(item.id), stamp)
  }

  /** One SALE per item, in the order of the item ids, each continuing where the last one ended. */
  function SellItems(l: Ledger, event: nat, mode: DataMode, order: OrderId, items: seq<Item>, stamps: Stamps, k: nat): Ledger
    decreases |items|
  {
    if items == [] then l
    else
      var key := StockKey(items[0].product, event, mode);
      var l' := if Tracked(l.stocks, key)
                then Post(l, SaleRow(l, event, mode, order, items[0], stamps(k)))
                else l;
      SellItems(l', event, mode, order, items[1..], stamps, k + 1)
  }

  ghost function Sell(l: Ledger, event: nat, mode: DataMode, order: OrderId, items: seq<Item>, closed: set<Product>, stamps: Stamps): Option<Ledger> {
    if CanSell(l, event, mode, items, closed)
    then Some(SellItems(l, event, mode, order, Sorting.Sort(items, ById), stamps, 0))
    else None
  }

  predicate IsReversed(ms: seq<Movement>, id: MovementId) {
    exists i :: 0 <= i < |ms| && ms[i].reverses == Some(id)
  }

  /** The sales of these items that nothing has reversed yet. */
  function OpenSales(all: seq<Movement>, ms: seq<Movement>, event: nat, mode: DataMode, items: set<ItemId>): seq<Movement> {
    if ms == [] then []
    else
      var m, rest := ms[0], OpenSales(all, ms[1..], event, mode, items);
      if m.kind == SALE && m.key.event == event && m.key.mode == mode && m.item.Some? && m.item.value in items
         && !IsReversed(all, m.id)
      then [m] + rest else rest
  }

  function ItemOf(m: Movement): nat { if m.item.Some? then m.item.value else 0 }

  /** By product, then item, then id. */
  function SaleOrder(a: Movement, b: Movement): bool {
    a.key.product < b.key.product
    || (a.key.product == b.key.product
        && (ItemOf(a) < ItemOf(b) || (ItemOf(a) == ItemOf(b) && a.id <= b.id)))
  }

  function CancelRow(l: Ledger, sale: Movement, order: OrderId, stamp: Stamp): Movement
    requires sale.key in l.stocks
  {
    NewRow(l, sale.key, CANCELLATION, -sale.delta, Some(order), sale.item, Some(sale.id), CancelKey(sale.id), stamp)
  }

  function CancelSales(l: Ledger, sales: seq<Movement>, order: OrderId, stamps: Stamps, k: nat): Option<Ledger>
    decreases |sales|
  {
    if sales == [] then Some(l)
    else if !Tracked(l.stocks, sales[0].key) then CancelSales(l, sales[1..], order, stamps, k + 1)
    else
      var row := CancelRow(l, sales[0], order, stamps(k));
      if MovementRowOk(row) then CancelSales(Post(l, row), sales[1..], order, stamps, k + 1) else None
  }

  function Cancel(l: Ledger, event: nat, mode: DataMode, order: OrderId, items: set<ItemId>, stamps: Stamps): Option<Ledger> {
    CancelSales(l, Sorting.Sort(OpenSales(l.movements, l.movements, event, mode, items), SaleOrder), order, stamps, 0)
  }

  predicate Resettable(m: Movement, event: nat) {
    m.key.event == event && m.key.mode == TEST && m.kind != INITIALIZATION
  }

  function Remaining(ms: seq<Movement>, event: nat): seq<Movement> {
    if ms == [] then []
    else if Resettable(ms[0], event) then Remaining(ms[1..], event)
    else [ms[0]] + Remaining(ms[1..], event)
  }

  /** What a ledger says a stock must be. */
  function Explained(ms: seq<Movement>, key: StockKey): int {
    if ms == [] then 0 else (if ms[0].key == key then ms[0].delta else 0) + Explained(ms[1..], key)
  }

  predicate Affected(ms: seq<Movement>, key: StockKey, event: nat) {
    exists i :: 0 <= i < |ms| && ms[i].key == key && Resettable(ms[i], event)
  }

  /** Before an event goes live: TEST sales, cancellations and corrections go, stocks follow the rest. */
  function ResetTest(l: Ledger, event: nat): Ledger {
    var rest := Remaining(l.movements, event);
    Ledger(map key | key in l.stocks ::
             if Affected(l.movements, key, event) then l.stocks[key].(quantity := Explained(rest, key)) else l.stocks[key],
           rest)
  }

  // ---- The service ----

  datatype Reservation = Reservation(before: int, after: int)

  /** What a sale leaves of the stock rows. */
  function Reserved(stocks: map<StockKey, Stock>, event: nat, mode: DataMode, items: seq<Item>): map<StockKey, Stock> {
    map key | key in stocks ::
      if stocks[key].tracked && key.event == event && key.mode == mode
      then stocks[key].(quantity := stocks[key].quantity - Ordered(items, key.product)) else stocks[key]
  }

  /** The ledger rows of a sale, chained from the reserved quantities. */
  function SaleRows(next: map<Product, int>, event: nat, mode: DataMode, order: OrderId, items: seq<Item>, stamps: Stamps, k: nat): seq<Movement>
    decreases |items|
  {
    if items == [] then []
    else if items[0].product !in next then SaleRows(next, event, mode, order, items[1..], stamps, k + 1)
    else
      var before: int := next[items[0].product];
      var after: int := before - items[0].quantity;
      [Movement(stamps(k).id, stamps(k).at, StockKey(items[0].product, event, mode), SALE, 0 - items[0].quantity, before, after,
                Some(order), Some(items[0].id), None, SaleKey(items[0].id), 0)]
      + SaleRows(next[items[0].product := after], event, mode, order, items[1..], stamps, k + 1)
  }

  function Reservations(stocks: map<StockKey, Stock>, event: nat, mode: DataMode, items: seq<Item>): map<Product, Reservation> {
    map p | p in Products(items) && Tracked(stocks, StockKey(p, event, mode)) ::
      var before := stocks[StockKey(p, event, mode)].quantity; Reservation(before, before - Ordered(items, p))
  }

  function Products(items: seq<Item>): set<Product> {
    set i | 0 <= i < |items| :: items[i].product
  }

  class InventoryService {
    var stocks: map<StockKey, Stock>
    var movements: seq<Movement>

    ghost function View(): Ledger
      reads this
    {
      Ledger(stocks, movements)
    }

    /** Adds up the lines per product, then takes each product's sum off its stock; a product that
        cannot be sold rolls everything back. */
    method ReserveSale(event: nat, mode: DataMode, items: seq<Item>, closed: set<Product>) returns (r: Option<map<Product, Reservation>>)
      modifies this`stocks
      ensures r.Some? <==> CanSell(old(View()), event, mode, items, closed)
      ensures r.None? ==> stocks == old(stocks)
      ensures r.Some? ==> stocks == Reserved(old(stocks), event, mode, items)
      ensures r.Some? ==> r.value == Reservations(old(stocks), event, mode, items)
    {
      var quantities := AddUp(items);
      ghost var l := View();
      r := TakeAll(event, mode, quantities, closed);
      if r.None? {
        ghost var p :| p in quantities && !Sellable(l.stocks, StockKey(p, event, mode), quantities[p], closed);
        NotSellable(l, event, mode, items, closed, p);
      } else {
        SellableMeansCanSell(l, event, mode, items, closed);
        TakenIsReserved(l.stocks, event, mode, items, quantities);
        MadeIsReservations(l.stocks, event, mode, items, quantities);
      }
    }

    method TakeAll(event: nat, mode: DataMode, quantities: map<Product, nat>, closed: set<Product>) returns (r: Option<map<Product, Reservation>>)
      modifies this`stocks
      ensures r.Some? <==> forall p :: p in quantities ==> Sellable(old(stocks), StockKey(p, event, mode), quantities[p], closed)
      ensures r.None? ==> stocks == old(stocks)
      ensures r.Some? ==> stocks == Taken(old(stocks), event, mode, quantities, quantities.Keys)
      ensures r.Some? ==> r.value == Made(old(stocks), event, mode, quantities, quantities.Keys)
    {
      var before := stocks;
      var changes: map<Product, Reservation> := map[];
      var todo := quantities.Keys;
      ghost var done: set<Product> := {};
      while todo != {}
        invariant done + todo == quantities.Keys && done !! todo
        invariant forall p :: p in done ==> Sellable(before, StockKey(p, event, mode), quantities[p], closed)
        invariant stocks == Taken(before, event, mode, quantities, done)
        invariant changes == Made(before, event, mode, quantities, done)
        decreases todo
      {
        var p :| p in todo;
        var key := StockKey(p, event, mode);
        NotYetTaken(before, event, mode, quantities, done, p, closed);
        TakeOne(before, event, mode, quantities, done, p);
        MakeOne(before, event, mode, quantities, done, p);
        if !Sellable(stocks, key, quantities[p], closed) {
          stocks := before;
          return None;
        }
        if Tracked(stocks, key) {
          var left := stocks[key].quantity - quantities[p];
          changes := changes[p := Reservation(stocks[key].quantity, left)];
          stocks := stocks[key := stocks[key].(quantity := left)];
        }
        todo, done := todo - {p}, done + {p};
      }
      assert done == quantities.Keys;
      return Some(changes);
    }

    method AddUp(items: seq<Item>) returns (quantities: map<Product, nat>)
      ensures quantities.Keys == Products(items)
      ensures forall p :: p in quantities ==> quantities[p] == Ordered(items, p)
    {
      quantities := map[];
      for i := 0 to |items|
        invariant quantities.Keys == Products(items[..i])
        invariant forall p :: p in quantities ==> quantities[p] == Ordered(items[..i], p)
      {
        var p := items[i].product;
        assert items[..i + 1] == items[..i] + [items[i]];
        OrderedSnoc(items[..i], items[i]);
        UnorderedIsZero(items[..i]);
        quantities := quantities[p := (if p in quantities then quantities[p] else 0) + items[i].quantity];
      }
      assert items[..|items|] == items;
    }

    method RecordSales(event: nat, mode: DataMode, order: OrderId, items: seq<Item>, reservations: map<Product, Reservation>, stamps: Stamps)
      modifies this`movements
      ensures movements == old(movements)
        + SaleRows(map p | p in reservations :: reservations[p].before, event, mode, order, Sorting.Sort(items, ById), stamps, 0)
    {
      var next: map<Product, int> := map p | p in reservations :: reservations[p].before;
      var sorted := Sorting.Sort(items, ById);
      ghost var start, before := next, movements;
      for i := 0 to |sorted|
        invariant movements + SaleRows(next, event, mode, order, sorted[i..], stamps, i)
               == before + SaleRows(start, event, mode, order, sorted, stamps, 0)
      {
        var item := sorted[i];
        assert sorted[i..][0] == item && sorted[i..][1..] == sorted[i + 1..];
        if item.product in next {
          var after: int := next[item.product] - item.quantity;
          movements := movements + [Movement(stamps(i).id, stamps(i).at, StockKey(item.product, event, mode), SALE,
                                             0 - item.quantity, next[item.product], after, Some(order), Some(item.id), None, SaleKey(item.id), 0)];
          next := next[item.product := after];
        }
      }
    }

    /** Both halves, as the order transaction calls them. */
    method SellOrder(event: nat, mode: DataMode, order: OrderId, items: seq<Item>, closed: set<Product>, stamps: Stamps) returns (ok: bool)
      modifies this
      ensures ok <==> Sell(old(View()), event, mode, order, items, closed, stamps).Some?
      ensures ok ==> Some(View()) == Sell(old(View()), event, mode, order, items, closed, stamps)
      ensures !ok ==> View() == old(View())
    {
      ghost var l := View();
      var reservations := ReserveSale(event, mode, items, closed);
      if reservations.None? { return false; }
      RecordSales(event, mode, order, items, reservations.value, stamps);
      TwoPhasesAreOne(l, event, mode, order, items, stamps);
      assert (map p | p in reservations.value :: reservations.value[p].before) == Befores(l.stocks, event, mode, items);
      return true;
    }

    method CancelItems(event: nat, mode: DataMode, order: OrderId, items: set<ItemId>, stamps: Stamps) returns (ok: bool)
      requires forall i :: 0 <= i < |movements| ==> movements[i].key in stocks
      modifies this
      ensures ok <==> Cancel(old(View()), event, mode, order, items, stamps).Some?
      ensures ok ==> Some(View()) == Cancel(old(View()), event, mode, order, items, stamps)
      ensures !ok ==> View() == old(View())
    {
      var sales := Sorting.Sort(OpenSales(movements, movements, event, mode, items), SaleOrder);
      var before := (stocks, movements);
      ghost var target := Cancel(View(), event, mode, order, items, stamps);
      for i := 0 to |sales|
        invariant CancelSales(View(), sales[i..], order, stamps, i) == target
      {
        assert sales[i..][0] == sales[i] && sales[i..][1..] == sales[i + 1..];
        var sale := sales[i];
        if sale.key in stocks && stocks[sale.key].tracked {
          var was := stocks[sale.key].quantity;
          var row := Movement(stamps(i).id, stamps(i).at, sale.key, CANCELLATION, -sale.delta, was, was - sale.delta,
                              Some(order), sale.item, Some(sale.id), CancelKey(sale.id), 0);
          if !MovementRowOk(row) {
            stocks, movements := before.0, before.1;
            return false;
          }
          stocks := stocks[sale.key := stocks[sale.key].(quantity := was - sale.delta)];
          movements := movements + [row];
        }
      }
      return true;
    }

    method InitializeStock(c: Context, key: StockKey, tracked: bool, quantity: int, blocked: bool, idem: Request, stamp: Stamp) returns (ok: bool)
      modifies this
      ensures ok <==> Initialize(old(View()), c, key, tracked, quantity, blocked, idem, stamp).Some?
      ensures Some(View()) == if ok then Initialize(old(View()), c, key, tracked, quantity, blocked, idem, stamp) else Some(old(View()))
    {
      if !Admits(c, key) { return false; }
      if exists i :: 0 <= i < |movements| && movements[i].idem == ClientKey(idem.key) {
        return exists i :: 0 <= i < |movements| && movements[i].idem == ClientKey(idem.key) && movements[i].fingerprint == idem.fingerprint;
      }
      if key in stocks { return false; }
      var stock := Stock(tracked, quantity, quantity, blocked);
      var row := Movement(stamp.id, stamp.at, key, INITIALIZATION, quantity, 0, quantity, None, None, None, ClientKey(idem.key), idem.fingerprint);
      if !StockRowOk(stock) || !MovementRowOk(row) { return false; }
      stocks, movements := stocks[key := stock], movements + [row];
      return true;
    }

    method CorrectStock(c: Context, key: StockKey, quantity: int, idem: Request, stamp: Stamp) returns (ok: bool)
      modifies this
      ensures ok <==> Correct(old(View()), c, key, quantity, idem, stamp).Some?
      ensures Some(View()) == if ok then Correct(old(View()), c, key, quantity, idem, stamp) else Some(old(View()))
    {
      if !Admits(c, key) { return false; }
      if exists i :: 0 <= i < |movements| && movements[i].idem == ClientKey(idem.key) {
        return exists i :: 0 <= i < |movements| && movements[i].idem == ClientKey(idem.key) && movements[i].fingerprint == idem.fingerprint;
      }
      if key !in stocks { return false; }
      var was := stocks[key].quantity;
      var row := Movement(stamp.id, stamp.at, key, CORRECTION, quantity - was, was, quantity, None, None, None, ClientKey(idem.key), idem.fingerprint);
      if !MovementRowOk(row) || !StockRowOk(stocks[key].(quantity := quantity)) { return false; }
      stocks, movements := stocks[key := stocks[key].(quantity := quantity)], movements + [row];
      return true;
    }

    method ResetTestInventory(event: nat)
      modifies this
      ensures View() == ResetTest(old(View()), event)
    {
      ghost var was := movements;
      var affected := set key | key in stocks && Affected(movements, key, event);
      movements := Remaining(movements, event);
      ghost var before := stocks;
      var todo := affected;
      while todo != {}
        invariant todo <= affected <= stocks.Keys && stocks.Keys == before.Keys
        invariant movements == Remaining(was, event)
        invariant forall key :: key in before ==>
          stocks[key] == if key in affected - todo then before[key].(quantity := Explained(movements, key)) else before[key]
        decreases todo
      {
        var key :| key in todo;
        var quantity := Explained(movements, key);
        assert key in affected - (todo - {key});
        if quantity != stocks[key].quantity { stocks := stocks[key := stocks[key].(quantity := quantity)]; }
        todo := todo - {key};
      }
      forall key | key in before
        ensures stocks[key] == if Affected(was, key, event) then before[key].(quantity := Explained(movements, key)) else before[key]
      {
        assert key in affected <==> Affected(was, key, event);
      }
      assert stocks == ResetTest(Ledger(before, was), event).stocks;
    }
  }

  // ---- Why reserving first and recording later is one step ----

  predicate Sellable(stocks: map<StockKey, Stock>, key: StockKey, quantity: nat, closed: set<Product>) {
    key.product !in closed && (key in stocks ==> !stocks[key].blocked) && (Tracked(stocks, key) ==> quantity <= stocks[key].quantity)
  }

  /** The stock rows when some of the products are done, and what was reserved for them. */
  ghost function Taken(stocks: map<StockKey, Stock>, event: nat, mode: DataMode, quantities: map<Product, nat>, done: set<Product>): map<StockKey, Stock> {
    map key | key in stocks ::
      if key.event == event && key.mode == mode && key.product in done && key.product in quantities && stocks[key].tracked
      then stocks[key].(quantity := stocks[key].quantity - quantities[key.product]) else stocks[key]
  }

  ghost function Made(stocks: map<StockKey, Stock>, event: nat, mode: DataMode, quantities: map<Product, nat>, done: set<Product>): map<Product, Reservation> {
    map p | p in done && p in quantities && Tracked(stocks, StockKey(p, event, mode)) ::
      Reservation(stocks[StockKey(p, event, mode)].quantity, stocks[StockKey(p, event, mode)].quantity - quantities[p])
  }

  lemma NotYetTaken(stocks: map<StockKey, Stock>, event: nat, mode: DataMode, quantities: map<Product, nat>, done: set<Product>,
                    p: Product, closed: set<Product>)
    requires p in quantities && p !in done
    ensures var key, taken := StockKey(p, event, mode), Taken(stocks, event, mode, quantities, done);
            && (Sellable(taken, key, quantities[p], closed) <==> Sellable(stocks, key, quantities[p], closed))
            && (Tracked(taken, key) <==> Tracked(stocks, key))
            && (key in stocks ==> key in taken && taken[key] == stocks[key])
  {
  }

  lemma TakeOne(stocks: map<StockKey, Stock>, event: nat, mode: DataMode, quantities: map<Product, nat>, done: set<Product>, p: Product)
    requires p in quantities && p !in done
    ensures var key, taken := StockKey(p, event, mode), Taken(stocks, event, mode, quantities, done);
            Taken(stocks, event, mode, quantities, done + {p})
            == if Tracked(stocks, key) then taken[key := stocks[key].(quantity := stocks[key].quantity - quantities[p])] else taken
  {
  }

  lemma MakeOne(stocks: map<StockKey, Stock>, event: nat, mode: DataMode, quantities: map<Product, nat>, done: set<Product>, p: Product)
    requires p in quantities && p !in done
    ensures var key, made := StockKey(p, event, mode), Made(stocks, event, mode, quantities, done);
            Made(stocks, event, mode, quantities, done + {p})
            == if Tracked(stocks, key) then made[p := Reservation(stocks[key].quantity, stocks[key].quantity - quantities[p])] else made
  {
  }

  lemma TakenIsReserved(stocks: map<StockKey, Stock>, event: nat, mode: DataMode, items: seq<Item>, quantities: map<Product, nat>)
    requires quantities.Keys == Products(items)
    requires forall p :: p in quantities ==> quantities[p] == Ordered(items, p)
    ensures Taken(stocks, event, mode, quantities, Products(items)) == Reserved(stocks, event, mode, items)
  {
    UnorderedIsZero(items);
  }

  lemma MadeIsReservations(stocks: map<StockKey, Stock>, event: nat, mode: DataMode, items: seq<Item>, quantities: map<Product, nat>)
    requires quantities.Keys == Products(items)
    requires forall p :: p in quantities ==> quantities[p] == Ordered(items, p)
    ensures Made(stocks, event, mode, quantities, Products(items)) == Reservations(stocks, event, mode, items)
  {
  }

  lemma {:induction false} OrderedSnoc(items: seq<Item>, x: Item)
    ensures forall p :: Ordered(items + [x], p) == Ordered(items, p) + if x.product == p then x.quantity else 0
    decreases |items|
  {
    if items == [] {
      assert items + [x] == [x];
    } else {
      assert (items + [x])[1..] == items[1..] + [x];
      OrderedSnoc(items[1..], x);
    }
  }

  lemma {:induction false} UnorderedIsZero(items: seq<Item>)
    ensures forall p :: p !in Products(items) ==> Ordered(items, p) == 0
    decreases |items|
  {
    if items != [] {
      UnorderedIsZero(items[1..]);
      assert items[0].product in Products(items);
      forall p | p in Products(items[1..]) ensures p in Products(items) {
        var i :| 0 <= i < |items[1..]| && items[1..][i].product == p;
        assert items[i + 1].product == p;
      }
    }
  }

  lemma NotSellable(l: Ledger, event: nat, mode: DataMode, items: seq<Item>, closed: set<Product>, p: Product)
    requires p in Products(items)
    requires !Sellable(l.stocks, StockKey(p, event, mode), Ordered(items, p), closed)
    ensures !CanSell(l, event, mode, items, closed)
  {
    var i :| 0 <= i < |items| && items[i].product == p;
  }

  lemma SellableMeansCanSell(l: Ledger, event: nat, mode: DataMode, items: seq<Item>, closed: set<Product>)
    requires forall p :: p in Products(items) ==> Sellable(l.stocks, StockKey(p, event, mode), Ordered(items, p), closed)
    ensures CanSell(l, event, mode, items, closed)
  {
    forall i | 0 <= i < |items|
      ensures Sellable(l.stocks, StockKey(items[i].product, event, mode), Ordered(items, items[i].product), closed)
    {
      assert items[i].product in Products(items);
    }
  }

  function Befores(stocks: map<StockKey, Stock>, event: nat, mode: DataMode, items: seq<Item>): map<Product, int> {
    map p | p in Products(items) && Tracked(stocks, StockKey(p, event, mode)) :: stocks[StockKey(p, event, mode)].quantity
  }

  lemma {:induction false} OrderedIgnoresOrder(a: seq<Item>, b: seq<Item>, p: Product)
    requires multiset(a) == multiset(b)
    ensures Ordered(a, p) == Ordered(b, p)
    decreases |a|
  {
    if a == [] {
      assert |multiset(b)| == |b| == 0;
    } else {
      var i := Sorting.Without(a, b);
      OrderedIgnoresOrder(a[1..], b[..i] + b[i + 1..], p);
      OrderedConcat(b[..i], b[i + 1..], p);
      OrderedConcat(b[..i] + [b[i]], b[i + 1..], p);
      OrderedSnoc(b[..i], b[i]);
      assert b == b[..i] + [b[i]] + b[i + 1..];
    }
  }

  lemma {:induction false} OrderedConcat(a: seq<Item>, b: seq<Item>, p: Product)
    ensures Ordered(a + b, p) == Ordered(a, p) + Ordered(b, p)
    decreases |a|
  {
    if a == [] { assert a + b == b; } else {
      assert (a + b)[1..] == a[1..] + b;
      OrderedConcat(a[1..], b, p);
    }
  }

  lemma ReservedStep(l: Ledger, event: nat, mode: DataMode, order: OrderId, items: seq<Item>, stamp: Stamp)
    requires items != [] && Tracked(l.stocks, StockKey(items[0].product, event, mode))
    ensures var l' := Post(l, SaleRow(l, event, mode, order, items[0], stamp));
            Reserved(l'.stocks, event, mode, items[1..]) == Reserved(l.stocks, event, mode, items)
  {
  }

  lemma ReservedSkip(l: Ledger, event: nat, mode: DataMode, items: seq<Item>)
    requires items != [] && !Tracked(l.stocks, StockKey(items[0].product, event, mode))
    ensures Reserved(l.stocks, event, mode, items[1..]) == Reserved(l.stocks, event, mode, items)
  {
  }

  /** The running quantities of the recorded rows are those of the stock rows. */
  ghost predicate InStep(next: map<Product, int>, stocks: map<StockKey, Stock>, event: nat, mode: DataMode, items: seq<Item>) {
    && (forall i :: 0 <= i < |items| ==> (items[i].product in next <==> Tracked(stocks, StockKey(items[i].product, event, mode))))
    && (forall p :: p in next ==> StockKey(p, event, mode) in stocks && next[p] == stocks[StockKey(p, event, mode)].quantity)
  }

  lemma StaysInStep(next: map<Product, int>, l: Ledger, event: nat, mode: DataMode, order: OrderId, items: seq<Item>, stamp: Stamp)
    requires items != [] && InStep(next, l.stocks, event, mode, items)
    ensures InStep(next, l.stocks, event, mode, items[1..])
    ensures items[0].product in next ==>
      var l' := Post(l, SaleRow(l, event, mode, order, items[0], stamp));
      InStep(next[items[0].product := next[items[0].product] - items[0].quantity], l'.stocks, event, mode, items[1..])
  {
  }

  /** The fold over the items leaves the reserved stocks and appends the recorded rows. */
  lemma {:induction false} FoldIsReserveAndRecord(l: Ledger, event: nat, mode: DataMode, order: OrderId, items: seq<Item>,
                                                  next: map<Product, int>, stamps: Stamps, k: nat)
    requires InStep(next, l.stocks, event, mode, items)
    ensures SellItems(l, event, mode, order, items, stamps, k)
         == Ledger(Reserved(l.stocks, event, mode, items), l.movements + SaleRows(next, event, mode, order, items, stamps, k))
    decreases |items|
  {
    if items == [] {
      assert Reserved(l.stocks, event, mode, items) == l.stocks;
    } else {
      StaysInStep(next, l, event, mode, order, items, stamps(k));
      if items[0].product in next {
        var l' := Post(l, SaleRow(l, event, mode, order, items[0], stamps(k)));
        ReservedStep(l, event, mode, order, items, stamps(k));
        FoldIsReserveAndRecord(l', event, mode, order, items[1..], next[items[0].product := next[items[0].product] - items[0].quantity], stamps, k + 1);
      } else {
        ReservedSkip(l, event, mode, items);
        FoldIsReserveAndRecord(l, event, mode, order, items[1..], next, stamps, k + 1);
      }
    }
  }

  lemma ReservedIgnoresOrder(stocks: map<StockKey, Stock>, event: nat, mode: DataMode, a: seq<Item>, b: seq<Item>)
    requires multiset(a) == multiset(b)
    ensures Reserved(stocks, event, mode, a) == Reserved(stocks, event, mode, b)
  {
    forall key | key in stocks ensures Ordered(a, key.product) == Ordered(b, key.product) {
      OrderedIgnoresOrder(a, b, key.product);
    }
  }

  lemma SameProducts(a: seq<Item>, b: seq<Item>)
    requires multiset(a) == multiset(b)
    ensures forall i :: 0 <= i < |a| ==> a[i].product in Products(b)
  {
    forall i | 0 <= i < |a| ensures a[i].product in Products(b) {
      assert a[i] in multiset(b);
      var j :| 0 <= j < |b| && b[j] == a[i];
      assert b[j].product == a[i].product;
    }
  }

  lemma ByIdIsOrder()
    ensures Sorting.IsOrder(ById)
  {
  }

  lemma TwoPhasesAreOne(l: Ledger, event: nat, mode: DataMode, order: OrderId, items: seq<Item>, stamps: Stamps)
    ensures SellItems(l, event, mode, order, Sorting.Sort(items, ById), stamps, 0)
         == Ledger(Reserved(l.stocks, event, mode, items),
                   l.movements + SaleRows(Befores(l.stocks, event, mode, items), event, mode, order, Sorting.Sort(items, ById), stamps, 0))
  {
    var sorted := Sorting.Sort(items, ById);
    ByIdIsOrder();
    Sorting.SortSorts(items, ById);
    SameProducts(sorted, items);
    FoldIsReserveAndRecord(l, event, mode, order, sorted, Befores(l.stocks, event, mode, items), stamps, 0);
    ReservedIgnoresOrder(l.stocks, event, mode, sorted, items);
  }
}
