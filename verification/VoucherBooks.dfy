/** What every run of voucher and order operations keeps, and the checker that replays the ledger. */
module VoucherBooks {
  import opened Common
  import opened Payments
  import opened Vouchers
  import Rows
  import Sorting

  // ---- Shares of a redemption ----

  function ShareSum(shares: seq<Share>): nat {
    if shares == [] then 0 else shares[0].amount + ShareSum(shares[1..])
  }

  lemma {:induction false} SharesAddUp(items: seq<Item>, k: nat, amount: nat)
    requires k <= |items|
    ensures ShareSum(Shares(items, k, amount)) + Left(items, k, amount) == amount
    ensures Left(items, k, amount) == 0 <==> amount <= GrossFrom(items, k)
    decreases |items| - k
  {
    if k < |items| && amount > 0 {
      var part := Min(Cost(items[k]), amount);
      SharesAddUp(items, k + 1, amount - part);
      if part > 0 {
        assert ([Share(k, part)] + Shares(items, k + 1, amount - part))[1..] == Shares(items, k + 1, amount - part);
      }
    }
  }

  lemma {:induction false} SharesFit(items: seq<Item>, k: nat, amount: nat)
    requires k <= |items|
    ensures var shares := Shares(items, k, amount);
            && (forall i :: 0 <= i < |shares| ==> k <= shares[i].item < |items| && 0 < shares[i].amount <= Cost(items[shares[i].item]))
            && (forall i, j :: 0 <= i < j < |shares| ==> shares[i].item < shares[j].item)
    decreases |items| - k
  {
    if k < |items| && amount > 0 {
      var part: nat := Min(Cost(items[k]), amount);
      SharesFit(items, k + 1, amount - part);
      if part > 0 { assert Shares(items, k, amount)[1..] == Shares(items, k + 1, amount - part); }
    }
  }

  /** The shares of an amount are positive, bounded by their items, one per item, and add up to what
      was not left over; nothing is left over exactly when the items cost enough. */
  lemma SharesCover(items: seq<Item>, k: nat, amount: nat)
    requires k <= |items|
    ensures var shares := Shares(items, k, amount);
            && ShareSum(shares) + Left(items, k, amount) == amount
            && (Left(items, k, amount) == 0 <==> amount <= GrossFrom(items, k))
            && (forall i :: 0 <= i < |shares| ==>
                  k <= shares[i].item < |items|
                  && 0 < shares[i].amount <= items[shares[i].item].unit * items[shares[i].item].quantity)
            && (forall i, j :: 0 <= i < j < |shares| ==> shares[i].item < shares[j].item)
  {
    SharesAddUp(items, k, amount);
    SharesFit(items, k, amount);
  }

  // ---- Orders ----

  /** An order never costs more than its items. */
  ghost predicate Covered(o: Order) { o.total <= Gross(o.items) }

  lemma {:induction false} RemainingAtMostGross(items: seq<Item>)
    ensures Remaining(items) <= Gross(items)
  {
    if items != [] { RemainingAtMostGross(items[1..]); }
  }

  lemma {:induction false} GrossIgnoresState(a: seq<Item>, b: seq<Item>)
    requires |a| == |b| && forall k :: 0 <= k < |a| ==> a[k].unit == b[k].unit && a[k].quantity == b[k].quantity
    ensures Gross(a) == Gross(b)
    decreases |a|
  {
    if a != [] { GrossIgnoresState(a[1..], b[1..]); }
  }

  lemma OrdersStayCovered(o: Order, lines: seq<Line>, ps: seq<Payment>, k: nat, rest: Option<Remainder>, amount: nat)
    requires Covered(o)
    ensures AddPayments(o, ps).Some? ==> Covered(AddPayments(o, ps).value)
    ensures SplitPayment(o, lines, ps).Some? ==> Covered(SplitPayment(o, lines, ps).value)
    ensures CancelItem(o, k).Some? ==> Covered(CancelItem(o, k).value)
    ensures CancelOrder(o).Some? ==> Covered(CancelOrder(o).value)
    ensures Covered(Settled(o, amount, rest))
  {
    if SplitPayment(o, lines, ps).Some? { GrossIgnoresState(o.items, SplitPayment(o, lines, ps).value.items); }
    if CancelOrder(o).Some? { GrossIgnoresState(o.items, CancelOrder(o).value.items); }
    if CancelItem(o, k).Some? {
      GrossIgnoresState(o.items, CancelItem(o, k).value.items);
      RemainingAtMostGross(CancelItem(o, k).value.items);
    }
  }

  lemma CreatedIsCovered(items: seq<Item>, refund: nat, ps: seq<Payment>)
    requires Create(items, refund, ps).Some?
    ensures Covered(Create(items, refund, ps).value)
  {
    GrossIgnoresState(items, Create(items, refund, ps).value.items);
  }

  // ---- The ledger of one voucher ----

  predicate FieldsOk(m: Movement) {
    && m.before >= 0 && m.after >= 0 && m.after == m.before + m.delta
    && match m.kind
       case ISSUE =>
         m.delta > 0 && m.before == 0 && m.order.None? && m.payment.None? && m.funding.Some?
         && (if m.funding.value.kind == CASH
             then m.funding.value.tendered.Some? && m.funding.value.tendered.value >= m.delta
                  && m.funding.value.change == Some(m.funding.value.tendered.value - m.delta)
             else m.funding.value == Funding(CARD, None, None))
       case REDEEM => m.delta < 0 && m.order.Some? && m.payment.Some? && m.funding.None?
       case CANCEL => m.delta < 0 && m.after == 0 && m.order.None? && m.payment.None? && m.hasReason && m.funding.None?
  }

  predicate VoucherRowOk(v: Voucher) {
    0 < v.initial && 0 <= v.balance <= v.initial && (v.status == ACTIVE <==> v.balance > 0)
  }

  function StatusAfter(last: Movement): VoucherStatus {
    if last.kind == CANCEL then CANCELLED else if last.after == 0 then DEPLETED else ACTIVE
  }

  ghost predicate AccountOk(v: Voucher, rows: seq<Movement>) {
    && VoucherRowOk(v) && rows != []
    && rows[0].after == v.initial
    && rows[|rows| - 1].after == v.balance && v.status == StatusAfter(rows[|rows| - 1])
    && forall i :: 0 <= i < |rows| ==>
         FieldsOk(rows[i]) && rows[i].scope == v.scope
         && rows[i].before == (if i == 0 then 0 else rows[i - 1].after)
         && (rows[i].kind == ISSUE <==> i == 0)
         && (rows[i].kind == CANCEL ==> i == 1 && |rows| == 2)
  }

  function AllocSum(allocs: seq<Allocation>, m: MovementId): nat {
    if allocs == [] then 0 else (if allocs[0].movement == m then allocs[0].amount else 0) + AllocSum(allocs[1..], m)
  }

  ghost predicate AccountsOk(b: Bank) {
    forall v :: v in b.vouchers ==> AccountOk(b.vouchers[v], Of(b.movements, v))
  }

  ghost predicate MovementsKnown(b: Bank) {
    forall i :: 0 <= i < |b.movements| ==>
      var m := b.movements[i];
      && m.voucher in b.vouchers
      && (m.order.Some? ==>
            m.order.value in b.orders && b.orders[m.order.value].scope == m.scope
            && m.payment.Some? && m.payment.value < |b.orders[m.order.value].order.payments|)
  }

  ghost predicate Differ(a: Movement, c: Movement) {
    a.id != c.id && a.idem != c.idem && (a.payment.Some? && c.payment.Some? && a.order == c.order ==> a.payment != c.payment)
  }

  ghost predicate AllDiffer(ms: seq<Movement>) {
    forall i, j :: 0 <= i < j < |ms| ==> Differ(ms[i], ms[j])
  }

  ghost predicate AllocKnown(b: Bank, a: Allocation) {
    && a.amount > 0 && a.order in b.orders && a.item < |b.orders[a.order].order.items|
    && exists j :: 0 <= j < |b.movements| && b.movements[j].id == a.movement && b.movements[j].kind == REDEEM && b.movements[j].order == Some(a.order)
  }

  ghost predicate AllocationsOk(b: Bank) {
    && (forall i :: 0 <= i < |b.allocations| ==> AllocKnown(b, b.allocations[i]))
    && (forall i, j :: 0 <= i < j < |b.allocations| ==>
          (b.allocations[i].movement, b.allocations[i].item) != (b.allocations[j].movement, b.allocations[j].item))
    && (forall i :: 0 <= i < |b.movements| ==>
          AllocSum(b.allocations, b.movements[i].id) == if b.movements[i].kind == REDEEM then -b.movements[i].delta else 0)
  }

  ghost predicate OrdersOk(b: Bank) {
    forall id :: id in b.orders ==> Covered(b.orders[id].order)
  }

  ghost predicate Books(b: Bank) {
    AccountsOk(b) && MovementsKnown(b) && AllDiffer(b.movements) && AllocationsOk(b) && OrdersOk(b)
  }

  // ---- One operation after the other ----

  ghost predicate NewId(b: Bank, stamp: Stamp) {
    && (forall i :: 0 <= i < |b.movements| ==> b.movements[i].id != stamp.id)
    && (forall i :: 0 <= i < |b.allocations| ==> b.allocations[i].movement != stamp.id)
  }

  /** One more movement of a voucher, with the voucher row it leaves. */
  lemma AccountsGrow(b: Bank, m: Movement, row: Voucher, b': Bank)
    requires AccountsOk(b)
    requires b'.vouchers == b.vouchers[m.voucher := row] && b'.movements == b.movements + [m]
    requires AccountOk(row, Of(b.movements, m.voucher) + [m])
    ensures AccountsOk(b')
  {
    forall v | v in b'.vouchers ensures AccountOk(b'.vouchers[v], Of(b'.movements, v)) {
      Rows.Snoc(VoucherOf, b.movements, m, v);
      if v != m.voucher { assert AccountOk(b.vouchers[v], Of(b.movements, v)); }
    }
  }

  lemma {:induction false} NoAllocations(allocs: seq<Allocation>, id: MovementId)
    requires forall i :: 0 <= i < |allocs| ==> allocs[i].movement != id
    ensures AllocSum(allocs, id) == 0
  {
    if allocs != [] { NoAllocations(allocs[1..], id); }
  }

  lemma {:induction false} AllocSumConcat(a: seq<Allocation>, c: seq<Allocation>, id: MovementId)
    ensures AllocSum(a + c, id) == AllocSum(a, id) + AllocSum(c, id)
    decreases |a|
  {
    if a == [] { assert a + c == c; } else {
      assert (a + c)[1..] == a[1..] + c;
      AllocSumConcat(a[1..], c, id);
    }
  }

  lemma {:induction false} AllocSumOfShares(shares: seq<Share>, movement: MovementId, order: OrderId, id: MovementId)
    ensures AllocSum(AllocationsOf(shares, movement, order), id) == if id == movement then ShareSum(shares) else 0
    decreases |shares|
  {
    if shares != [] {
      assert AllocationsOf(shares, movement, order)[1..] == AllocationsOf(shares[1..], movement, order);
      AllocSumOfShares(shares[1..], movement, order, id);
    }
  }

  /** A movement without allocations leaves the allocations in order. */
  lemma PlainMovementKeepsAllocations(b: Bank, m: Movement, b': Bank)
    requires AllocationsOk(b) && m.kind != REDEEM
    requires b'.movements == b.movements + [m] && b'.allocations == b.allocations && b'.orders == b.orders
    requires forall i :: 0 <= i < |b.allocations| ==> b.allocations[i].movement != m.id
    ensures AllocationsOk(b')
  {
    NoAllocations(b.allocations, m.id);
    forall i | 0 <= i < |b.allocations| ensures AllocKnown(b', b.allocations[i]) {
      AllocStaysKnown(b, b', b.allocations[i]);
    }
  }

  lemma AllocStaysKnown(b: Bank, b': Bank, a: Allocation)
    requires AllocKnown(b, a) && |b.movements| <= |b'.movements| && b'.movements[..|b.movements|] == b.movements
    requires a.order in b'.orders && |b.orders[a.order].order.items| <= |b'.orders[a.order].order.items|
    ensures AllocKnown(b', a)
  {
    var j :| 0 <= j < |b.movements| && b.movements[j].id == a.movement && b.movements[j].kind == REDEEM && b.movements[j].order == Some(a.order);
    assert b'.movements[j] == b.movements[j];
  }

  /** One more movement that touches no order, and one changed voucher. */
  lemma PlainMovementKeepsBooks(b: Bank, m: Movement, row: Voucher)
    requires Books(b) && m.kind != REDEEM && m.order.None? && m.payment.None?
    requires (forall i :: 0 <= i < |b.movements| ==> b.movements[i].id != m.id && b.movements[i].idem != m.idem)
    requires forall i :: 0 <= i < |b.allocations| ==> b.allocations[i].movement != m.id
    requires AccountOk(row, Of(b.movements, m.voucher) + [m])
    ensures Books(b.(vouchers := b.vouchers[m.voucher := row], movements := b.movements + [m]))
  {
    var b' := b.(vouchers := b.vouchers[m.voucher := row], movements := b.movements + [m]);
    AccountsGrow(b, m, row, b');
    PlainMovementKeepsAllocations(b, m, b');
    PlainMovementKeepsLinks(b, m, b');
  }

  lemma PlainMovementKeepsLinks(b: Bank, m: Movement, b': Bank)
    requires MovementsKnown(b) && AllDiffer(b.movements) && m.order.None? && m.payment.None?
    requires forall i :: 0 <= i < |b.movements| ==> b.movements[i].id != m.id && b.movements[i].idem != m.idem
    requires b'.movements == b.movements + [m] && b'.orders == b.orders && b'.vouchers.Keys == b.vouchers.Keys + {m.voucher}
    ensures MovementsKnown(b') && AllDiffer(b'.movements)
  {
    forall i | 0 <= i < |b'.movements| ensures b'.movements[i].voucher in b'.vouchers {
      if i < |b.movements| { assert b'.movements[i] == b.movements[i]; }
    }
  }

  lemma IssuedAccount(scope: Scope, amount: int, m: Movement)
    requires amount >= 1 && m.kind == ISSUE && m.scope == scope && FieldsOk(m) && m.delta == amount
    ensures AccountOk(Voucher(scope, amount, amount, ACTIVE), [m])
  {
  }

  lemma IssueKeepsBooks(b: Bank, v: VoucherId, scope: Scope, amount: int, kind: PaymentMethod, tendered: Option<int>, idem: Request, stamp: Stamp)
    requires Books(b) && NewId(b, stamp)
    ensures var b' := Issue(b, v, scope, amount, kind, tendered, idem, stamp); b'.Some? ==> Books(b'.value)
  {
    var b' := Issue(b, v, scope, amount, kind, tendered, idem, stamp);
    if b'.Some? && !Used(b, idem) {
      var m := b'.value.movements[|b.movements|];
      Rows.Nothing(VoucherOf, b.movements, v);
      assert Of(b.movements, v) + [m] == [m];
      IssuedAccount(scope, amount, m);
      PlainMovementKeepsBooks(b, m, Voucher(scope, amount, amount, ACTIVE));
    }
  }

  /** Once a request was carried out, its repetition changes nothing and any other request under its
      key is refused, whatever was booked in between. */
  lemma RepetitionsChangeNothing(b: Bank, i: nat, v: VoucherId, scope: Scope, amount: int, kind: PaymentMethod, tendered: Option<int>,
                                 order: OrderId, rest: Option<Remainder>, blank: bool, idem: Request, stamp: Stamp)
    requires AllDiffer(b.movements) && i < |b.movements| && b.movements[i].idem == idem.key
    ensures var answer := if b.movements[i].fingerprint == idem.fingerprint then Some(b) else None;
            && Issue(b, v, scope, amount, kind, tendered, idem, stamp) == answer
            && Redeem(b, v, scope, order, rest, idem, stamp) == answer
            && Cancel(b, v, scope, blank, idem, stamp) == answer
  {
    assert forall j :: 0 <= j < |b.movements| && b.movements[j].idem == idem.key ==> j == i;
  }

  lemma CancelKeepsBooks(b: Bank, v: VoucherId, scope: Scope, blank: bool, idem: Request, stamp: Stamp)
    requires Books(b) && NewId(b, stamp)
    ensures var b' := Cancel(b, v, scope, blank, idem, stamp); b'.Some? ==> Books(b'.value)
  {
    var b' := Cancel(b, v, scope, blank, idem, stamp);
    if b'.Some? && !Used(b, idem) {
      var m := b'.value.movements[|b.movements|];
      assert AccountOk(b.vouchers[v], Of(b.movements, v));
      PlainMovementKeepsBooks(b, m, b'.value.vouchers[v]);
    }
  }

  lemma RedeemKeepsAccounts(b: Bank, v: VoucherId, scope: Scope, order: OrderId, rest: Option<Remainder>, idem: Request, stamp: Stamp)
    requires AccountsOk(b) && MayRedeem(b, v, scope, order, rest) && !Used(b, idem)
    requires Redeem(b, v, scope, order, rest, idem, stamp).Some?
    ensures AccountsOk(Redeem(b, v, scope, order, rest, idem, stamp).value)
  {
    var b' := Redeem(b, v, scope, order, rest, idem, stamp).value;
    var m := RedeemRow(b, v, scope, order, idem, stamp);
    assert AccountOk(b.vouchers[v], Of(b.movements, v));
    AccountsGrow(b, m, b'.vouchers[v], b');
  }

  lemma AddedAllocations(b: Bank, b': Bank, shares: seq<Share>, m: Movement, order: OrderId)
    requires AllocationsOk(b) && m.kind == REDEEM && ShareSum(shares) == -m.delta
    requires forall i :: 0 <= i < |b.movements| ==> b.movements[i].id != m.id
    requires forall i :: 0 <= i < |b.allocations| ==> b.allocations[i].movement != m.id
    requires b'.movements == b.movements + [m] && b'.allocations == b.allocations + AllocationsOf(shares, m.id, order)
    ensures forall i :: 0 <= i < |b'.movements| ==>
      AllocSum(b'.allocations, b'.movements[i].id) == if b'.movements[i].kind == REDEEM then -b'.movements[i].delta else 0
  {
    NoAllocations(b.allocations, m.id);
    forall i | 0 <= i < |b'.movements|
      ensures AllocSum(b'.allocations, b'.movements[i].id) == if b'.movements[i].kind == REDEEM then -b'.movements[i].delta else 0
    {
      AllocSumConcat(b.allocations, AllocationsOf(shares, m.id, order), b'.movements[i].id);
      AllocSumOfShares(shares, m.id, order, b'.movements[i].id);
    }
  }

  lemma RedeemKeepsAllocations(b: Bank, v: VoucherId, scope: Scope, order: OrderId, rest: Option<Remainder>, idem: Request, stamp: Stamp)
    requires AllocationsOk(b) && NewId(b, stamp) && MayRedeem(b, v, scope, order, rest) && !Used(b, idem)
    requires Redeem(b, v, scope, order, rest, idem, stamp).Some?
    ensures AllocationsOk(Redeem(b, v, scope, order, rest, idem, stamp).value)
  {
    var b' := Redeem(b, v, scope, order, rest, idem, stamp).value;
    var items := b.orders[order].order.items;
    var shares := Shares(items, 0, Redeemable(b, v, order));
    SharesCover(items, 0, Redeemable(b, v, order));
    AddedAllocations(b, b', shares, RedeemRow(b, v, scope, order, idem, stamp), order);
    forall i | 0 <= i < |b'.allocations| ensures AllocKnown(b', b'.allocations[i]) {
      if i < |b.allocations| { AllocStaysKnown(b, b', b.allocations[i]); }
      else { assert b'.movements[|b.movements|].id == stamp.id; }
    }
  }

  lemma RedeemKeepsBooks(b: Bank, v: VoucherId, scope: Scope, order: OrderId, rest: Option<Remainder>, idem: Request, stamp: Stamp)
    requires Books(b) && NewId(b, stamp)
    ensures var b' := Redeem(b, v, scope, order, rest, idem, stamp); b'.Some? ==> Books(b'.value)
  {
    var b' := Redeem(b, v, scope, order, rest, idem, stamp);
    if b'.Some? && !Used(b, idem) {
      RedeemKeepsAccounts(b, v, scope, order, rest, idem, stamp);
      RedeemKeepsAllocations(b, v, scope, order, rest, idem, stamp);
      OrdersStayCovered(b.orders[order].order, [], [], 0, rest, Redeemable(b, v, order));
      RedeemKeepsLinks(b, v, scope, order, rest, idem, stamp);
    }
  }

  lemma RedeemKeepsLinks(b: Bank, v: VoucherId, scope: Scope, order: OrderId, rest: Option<Remainder>, idem: Request, stamp: Stamp)
    requires MovementsKnown(b) && AllDiffer(b.movements) && NewId(b, stamp) && MayRedeem(b, v, scope, order, rest) && !Used(b, idem)
    requires Redeem(b, v, scope, order, rest, idem, stamp).Some?
    ensures MovementsKnown(Redeem(b, v, scope, order, rest, idem, stamp).value)
    ensures AllDiffer(Redeem(b, v, scope, order, rest, idem, stamp).value.movements)
  {
    var b' := Redeem(b, v, scope, order, rest, idem, stamp).value;
    forall i | 0 <= i < |b.movements| ensures Differ(b.movements[i], b'.movements[|b.movements|]) {
      assert b.movements[i].idem != idem.key;
    }
  }

  /** Orders may come, and their payments may grow; the ledger does not mind. */
  ghost predicate OrdersGrow(b: Bank, b': Bank) {
    && b'.vouchers == b.vouchers && b'.movements == b.movements && b'.allocations == b.allocations
    && forall id :: id in b.orders ==>
         id in b'.orders && b'.orders[id].scope == b.orders[id].scope
         && |b'.orders[id].order.items| == |b.orders[id].order.items|
         && |b'.orders[id].order.payments| >= |b.orders[id].order.payments|
  }

  lemma OrdersGrowKeepsAllocations(b: Bank, b': Bank)
    requires AllocationsOk(b) && OrdersGrow(b, b')
    ensures AllocationsOk(b')
  {
    forall i | 0 <= i < |b.allocations| ensures AllocKnown(b', b.allocations[i]) { AllocStaysKnown(b, b', b.allocations[i]); }
  }

  lemma OrdersGrowKeepsAccounts(b: Bank, b': Bank)
    requires AccountsOk(b) && OrdersGrow(b, b')
    ensures AccountsOk(b')
  {
    forall v | v in b'.vouchers ensures AccountOk(b'.vouchers[v], Of(b'.movements, v)) {
      assert AccountOk(b.vouchers[v], Of(b.movements, v));
    }
  }

  lemma OrdersGrowKeepsLinks(b: Bank, b': Bank)
    requires MovementsKnown(b) && AllDiffer(b.movements) && OrdersGrow(b, b')
    ensures MovementsKnown(b') && AllDiffer(b'.movements)
  {
  }

  lemma OrdersGrowKeepsBooks(b: Bank, b': Bank)
    requires Books(b) && OrdersGrow(b, b') && OrdersOk(b')
    ensures Books(b')
  {
    OrdersGrowKeepsAllocations(b, b');
    OrdersGrowKeepsAccounts(b, b');
    OrdersGrowKeepsLinks(b, b');
  }

  lemma OrderChangeKeepsBooks(b: Bank, id: OrderId, o: Order)
    requires Books(b) && id in b.orders && Covered(o)
    requires |o.items| == |b.orders[id].order.items| && |o.payments| >= |b.orders[id].order.payments|
    ensures Books(b.(orders := b.orders[id := b.orders[id].(order := o)]))
  {
    OrdersGrowKeepsBooks(b, b.(orders := b.orders[id := b.orders[id].(order := o)]));
  }

  lemma PlaceKeepsBooks(b: Bank, id: OrderId, scope: Scope, items: seq<Item>, refund: nat, ps: seq<Payment>)
    requires Books(b)
    ensures var b' := PlaceOrder(b, id, scope, items, refund, ps); b'.Some? ==> Books(b'.value)
  {
    var b' := PlaceOrder(b, id, scope, items, refund, ps);
    if b'.Some? {
      CreatedIsCovered(items, refund, ps);
      OrdersGrowKeepsBooks(b, b'.value);
    }
  }

  // ---- Runs ----

  datatype Event =
    | IssueEvent(v: VoucherId, scope: Scope, amount: int, kind: PaymentMethod, tendered: Option<int>, idem: Request, stamp: Stamp)
    | RedeemEvent(v: VoucherId, scope: Scope, order: OrderId, rest: Option<Remainder>, idem: Request, stamp: Stamp)
    | CancelEvent(v: VoucherId, scope: Scope, blank: bool, idem: Request, stamp: Stamp)
    | PlaceEvent(order: OrderId, scope: Scope, items: seq<Item>, refund: nat, payments: seq<Payment>)
    | PayEvent(order: OrderId, payments: seq<Payment>)
    | SplitEvent(order: OrderId, lines: seq<Line>, payments: seq<Payment>)
    | CancelItemEvent(order: OrderId, item: nat)
    | CancelOrderEvent(order: OrderId)

  function Outcome(b: Bank, e: Event): Option<Bank> {
    match e
    case IssueEvent(v, scope, amount, kind, tendered, idem, stamp) => Issue(b, v, scope, amount, kind, tendered, idem, stamp)
    case RedeemEvent(v, scope, order, rest, idem, stamp) => Redeem(b, v, scope, order, rest, idem, stamp)
    case CancelEvent(v, scope, blank, idem, stamp) => Cancel(b, v, scope, blank, idem, stamp)
    case PlaceEvent(order, scope, items, refund, ps) => PlaceOrder(b, order, scope, items, refund, ps)
    case PayEvent(order, ps) => if order in b.orders then WithOrder(b, order, AddPayments(b.orders[order].order, ps)) else None
    case SplitEvent(order, lines, ps) => if order in b.orders then WithOrder(b, order, SplitPayment(b.orders[order].order, lines, ps)) else None
    case CancelItemEvent(order, item) => if order in b.orders then WithOrder(b, order, CancelItem(b.orders[order].order, item)) else None
    case CancelOrderEvent(order) => if order in b.orders then WithOrder(b, order, CancelOrder(b.orders[order].order)) else None
  }

  ghost predicate Admissible(b: Bank, e: Event) {
    (e.IssueEvent? || e.RedeemEvent? || e.CancelEvent?) ==> NewId(b, e.stamp)
  }

  ghost function Next(b: Bank, e: Event): Bank {
    if Admissible(b, e) && Outcome(b, e).Some? then Outcome(b, e).value else b
  }

  ghost function Run(b: Bank, events: seq<Event>): Bank
    decreases |events|
  {
    if events == [] then b else Run(Next(b, events[0]), events[1..])
  }

  const Empty := Bank(map[], [], [], map[])

  lemma NextKeepsBooks(b: Bank, e: Event)
    requires Books(b)
    ensures Books(Next(b, e))
  {
    if Admissible(b, e) && Outcome(b, e).Some? {
      match e
      case IssueEvent(v, scope, amount, kind, tendered, idem, stamp) => IssueKeepsBooks(b, v, scope, amount, kind, tendered, idem, stamp);
      case RedeemEvent(v, scope, order, rest, idem, stamp) => RedeemKeepsBooks(b, v, scope, order, rest, idem, stamp);
      case CancelEvent(v, scope, blank, idem, stamp) => CancelKeepsBooks(b, v, scope, blank, idem, stamp);
      case PlaceEvent(order, scope, items, refund, ps) => PlaceKeepsBooks(b, order, scope, items, refund, ps);
      case PayEvent(order, ps) =>
        OrdersStayCovered(b.orders[order].order, [], ps, 0, None, 0);
        OrderChangeKeepsBooks(b, order, AddPayments(b.orders[order].order, ps).value);
      case SplitEvent(order, lines, ps) =>
        OrdersStayCovered(b.orders[order].order, lines, ps, 0, None, 0);
        OrderChangeKeepsBooks(b, order, SplitPayment(b.orders[order].order, lines, ps).value);
      case CancelItemEvent(order, item) =>
        OrdersStayCovered(b.orders[order].order, [], [], item, None, 0);
        OrderChangeKeepsBooks(b, order, CancelItem(b.orders[order].order, item).value);
      case CancelOrderEvent(order) =>
        OrdersStayCovered(b.orders[order].order, [], [], 0, None, 0);
        OrderChangeKeepsBooks(b, order, CancelOrder(b.orders[order].order).value);
    }
  }

  lemma {:induction false} RunKeepsBooks(b: Bank, events: seq<Event>)
    requires Books(b)
    ensures Books(Run(b, events))
    decreases |events|
  {
    if events != [] {
      NextKeepsBooks(b, events[0]);
      RunKeepsBooks(Next(b, events[0]), events[1..]);
    }
  }

  // ---- Redemption ----

  lemma {:induction false} CompletedConcat(a: seq<Payment>, c: seq<Payment>)
    ensures CompletedPaid(a + c) == CompletedPaid(a) + CompletedPaid(c)
    decreases |a|
  {
    if a == [] { assert a + c == c; } else {
      assert (a + c)[1..] == a[1..] + c;
      CompletedConcat(a[1..], c);
    }
  }

  lemma SettledIsPaid(o: Order, amount: nat, rest: Option<Remainder>)
    requires 0 < amount <= Outstanding(o) && (rest.Some? <==> Outstanding(o) > amount)
    requires rest.Some? ==> rest.value.kind in {CASH, CARD}
    ensures var o' := Settled(o, amount, rest); o'.status == PAID && CompletedPaid(o'.payments) == o'.total == o.total
  {
    var voucher := [Payment(amount, VOUCHER)];
    CompletedConcat(o.payments, voucher);
    assert voucher[1..] == [];
    if rest.Some? {
      var more := [Payment(Outstanding(o) - amount, rest.value.kind)];
      assert more[1..] == [];
      CompletedConcat(o.payments + voucher, more);
    } else {
      assert o.payments + voucher + [] == o.payments + voucher;
    }
  }

  /** In every reachable state a permitted redemption goes through: the amount can always be spread
      over the order's items, and the order ends PAID with payments equal to its total. */
  lemma RedemptionSettlesOrder(events: seq<Event>, v: VoucherId, scope: Scope, order: OrderId, rest: Option<Remainder>, idem: Request, stamp: Stamp)
    requires MayRedeem(Run(Empty, events), v, scope, order, rest) && !Used(Run(Empty, events), idem)
    ensures var b := Run(Empty, events);
            var b' := Redeem(b, v, scope, order, rest, idem, stamp);
            && b'.Some?
            && b'.value.orders[order].order.status == PAID
            && CompletedPaid(b'.value.orders[order].order.payments) == b.orders[order].order.total
            && b'.value.vouchers[v].balance == b.vouchers[v].balance - Redeemable(b, v, order) >= 0
            && ShareSum(Shares(b.orders[order].order.items, 0, Redeemable(b, v, order))) == Redeemable(b, v, order)
  {
    RunKeepsBooks(Empty, events);
    var b := Run(Empty, events);
    var o, amount := b.orders[order].order, Redeemable(b, v, order);
    SharesCover(o.items, 0, amount);
    GrossIsFrom(o.items, 0);
    assert o.items[0..] == o.items;
    assert Covered(o);
    SettledIsPaid(o, amount, rest);
  }

  /** In every run a cancelled voucher was never redeemed: it was issued, and cancelled in full. */
  lemma CancelledVouchersWereUnused(events: seq<Event>, v: VoucherId)
    requires v in Run(Empty, events).vouchers && Run(Empty, events).vouchers[v].status == CANCELLED
    ensures var rows := Of(Run(Empty, events).movements, v);
            |rows| == 2 && rows[0].kind == ISSUE && rows[1].kind == CANCEL && rows[1].delta == -rows[0].delta
  {
    RunKeepsBooks(Empty, events);
    var b := Run(Empty, events);
    var rows := Of(b.movements, v);
    assert AccountOk(b.vouchers[v], rows);
    assert rows[|rows| - 1].kind == CANCEL;
    assert FieldsOk(rows[0]) && FieldsOk(rows[1]) && rows[1].before == rows[0].after;
  }

  // ---- The checker ----

  datatype VoucherRow = VoucherRow(id: VoucherId, voucher: Voucher)

  datatype Document = Document(vouchers: seq<VoucherRow>, movements: seq<Movement>, allocations: seq<Allocation>, orders: map<OrderId, Placed>)

  function Chronological(a: Movement, c: Movement): bool {
    a.createdAt < c.createdAt || (a.createdAt == c.createdAt && a.id <= c.id)
  }

  ghost predicate MovementAccepted(doc: Document, m: Movement) {
    && FieldsOk(m)
    && (exists j :: 0 <= j < |doc.vouchers| && doc.vouchers[j].id == m.voucher && doc.vouchers[j].voucher.scope == m.scope)
    && (m.order.Some? ==>
          m.order.value in doc.orders && doc.orders[m.order.value].scope == m.scope
          && m.payment.Some? && m.payment.value < |doc.orders[m.order.value].order.payments|)
  }

  predicate StepAccepted(v: Voucher, rows: seq<Movement>, i: nat)
    requires i < |rows|
  {
    && rows[i].before == (if i == 0 then 0 else rows[i - 1].after)
    && (i > 0 ==> rows[i].kind != ISSUE)
    && (rows[i].kind == ISSUE ==> rows[i].after == v.initial)
  }

  ghost predicate ReplayAccepted(v: Voucher, rows: seq<Movement>) {
    && rows != [] && rows[0].kind == ISSUE
    && (forall i :: 0 <= i < |rows| ==> StepAccepted(v, rows, i))
    && rows[|rows| - 1].after == v.balance && v.status == StatusAfter(rows[|rows| - 1])
  }

  ghost predicate AllocationAccepted(doc: Document, a: Allocation) {
    && a.amount > 0 && a.order in doc.orders && a.item < |doc.orders[a.order].order.items|
    && exists j :: 0 <= j < |doc.movements| && doc.movements[j].id == a.movement && doc.movements[j].kind == REDEEM && doc.movements[j].order == Some(a.order)
  }

  ghost predicate Accepted(doc: Document) {
    && (forall i :: 0 <= i < |doc.vouchers| ==> VoucherRowOk(doc.vouchers[i].voucher))
    && (forall i, j :: 0 <= i < j < |doc.vouchers| ==> doc.vouchers[i].id != doc.vouchers[j].id)
    && (forall i, j :: 0 <= i < j < |doc.movements| ==> Differ(doc.movements[i], doc.movements[j]))
    && (forall i :: 0 <= i < |doc.movements| ==> MovementAccepted(doc, doc.movements[i]))
    && (forall i :: 0 <= i < |doc.vouchers| ==>
          ReplayAccepted(doc.vouchers[i].voucher, Sorting.Sort(Of(doc.movements, doc.vouchers[i].id), Chronological)))
    && (forall i :: 0 <= i < |doc.allocations| ==> AllocationAccepted(doc, doc.allocations[i]))
    && (forall i, j :: 0 <= i < j < |doc.allocations| ==>
          (doc.allocations[i].movement, doc.allocations[i].item) != (doc.allocations[j].movement, doc.allocations[j].item))
    && (forall i :: 0 <= i < |doc.movements| ==>
          AllocSum(doc.allocations, doc.movements[i].id) == if doc.movements[i].kind == REDEEM then -doc.movements[i].delta else 0)
  }

  /** The running balance over one voucher's movements in time order. */
  method Replay(v: Voucher, rows: seq<Movement>) returns (ok: bool)
    ensures ok <==> ReplayAccepted(v, rows)
  {
    if |rows| == 0 || rows[0].kind != ISSUE { return false; }
    var balance := 0;
    for i := 0 to |rows|
      invariant balance == if i == 0 then 0 else rows[i - 1].after
      invariant forall j :: 0 <= j < i ==> StepAccepted(v, rows, j)
    {
      if rows[i].before != balance || (i > 0 && rows[i].kind == ISSUE) || (rows[i].kind == ISSUE && rows[i].after != v.initial) {
        assert !StepAccepted(v, rows, i);
        return false;
      }
      balance := rows[i].after;
    }
    return balance == v.balance && v.status == StatusAfter(rows[|rows| - 1]);
  }

  /** Adds the allocations up per movement and compares with what each movement redeemed. */
  method AllocationsAddUp(allocs: seq<Allocation>, ms: seq<Movement>) returns (ok: bool)
    ensures ok <==> forall i :: 0 <= i < |ms| ==> AllocSum(allocs, ms[i].id) == if ms[i].kind == REDEEM then -ms[i].delta else 0
  {
    var sums: map<MovementId, nat> := map[];
    for i := 0 to |allocs|
      invariant forall id: nat :: AllocSum(allocs, id) == (if id in sums then sums[id] else 0) + AllocSum(allocs[i..], id)
    {
      assert allocs[i..][1..] == allocs[i + 1..];
      var id := allocs[i].movement;
      sums := sums[id := (if id in sums then sums[id] else 0) + allocs[i].amount];
    }
    for i := 0 to |ms|
      invariant forall j :: 0 <= j < i ==> AllocSum(allocs, ms[j].id) == if ms[j].kind == REDEEM then -ms[j].delta else 0
    {
      var given: int := if ms[i].id in sums then sums[ms[i].id] else 0;
      assert given == AllocSum(allocs, ms[i].id);
      if given != (if ms[i].kind == REDEEM then -ms[i].delta else 0) { return false; }
    }
    return true;
  }

  ghost predicate Exports(b: Bank, doc: Document) {
    && multiset(doc.movements) == multiset(b.movements) && doc.allocations == b.allocations && doc.orders == b.orders
    && (forall i, j :: 0 <= i < j < |doc.vouchers| ==> doc.vouchers[i].id != doc.vouchers[j].id)
    && (forall i :: 0 <= i < |doc.vouchers| ==> doc.vouchers[i].id in b.vouchers && b.vouchers[doc.vouchers[i].id] == doc.vouchers[i].voucher)
    && (forall v :: v in b.vouchers ==> exists i :: 0 <= i < |doc.vouchers| && doc.vouchers[i].id == v)
  }

  /** The rows of each voucher were written in the order that replay puts them in: by time, then id. */
  ghost predicate WrittenInOrder(b: Bank) { Rows.Increase(VoucherOf, Chronological, b.movements) }

  lemma ExportedMovements(b: Bank, doc: Document)
    requires Exports(b, doc) && AllDiffer(b.movements)
    ensures AllDiffer(doc.movements)
    ensures forall i :: 0 <= i < |doc.movements| ==> doc.movements[i] in b.movements
    ensures forall i :: 0 <= i < |b.movements| ==> b.movements[i] in doc.movements
  {
    forall i | 0 <= i < |doc.movements| ensures doc.movements[i] in b.movements { assert doc.movements[i] in multiset(b.movements); }
    forall i | 0 <= i < |b.movements| ensures b.movements[i] in doc.movements { assert b.movements[i] in multiset(doc.movements); }
    Sorting.NoDuplicates(b.movements, doc.movements);
    forall i, j | 0 <= i < j < |doc.movements| ensures Differ(doc.movements[i], doc.movements[j]) {
      var x :| 0 <= x < |b.movements| && b.movements[x] == doc.movements[i];
      var y :| 0 <= y < |b.movements| && b.movements[y] == doc.movements[j];
      if x < y { assert Differ(b.movements[x], b.movements[y]); } else { assert Differ(b.movements[y], b.movements[x]); }
    }
  }

  lemma MovementIsAccepted(b: Bank, doc: Document, m: Movement)
    requires AccountsOk(b) && MovementsKnown(b) && Exports(b, doc) && m in b.movements
    ensures MovementAccepted(doc, m)
  {
    var x :| 0 <= x < |b.movements| && b.movements[x] == m;
    var rows := Of(b.movements, m.voucher);
    Rows.Members(VoucherOf, b.movements, m.voucher);
    assert AccountOk(b.vouchers[m.voucher], rows);
    var i :| 0 <= i < |rows| && rows[i] == m;
    assert FieldsOk(rows[i]) && rows[i].scope == b.vouchers[m.voucher].scope;
    var j :| 0 <= j < |doc.vouchers| && doc.vouchers[j].id == m.voucher;
    assert doc.vouchers[j].voucher.scope == m.scope;
  }

  lemma AllocationIsAccepted(b: Bank, doc: Document, a: Allocation)
    requires AllocKnown(b, a) && Exports(b, doc)
    requires forall i :: 0 <= i < |b.movements| ==> b.movements[i] in doc.movements
    ensures AllocationAccepted(doc, a)
  {
    var j :| 0 <= j < |b.movements| && b.movements[j].id == a.movement && b.movements[j].kind == REDEEM && b.movements[j].order == Some(a.order);
    var k :| 0 <= k < |doc.movements| && doc.movements[k] == b.movements[j];
  }

  lemma VoucherIsAccepted(b: Bank, doc: Document, i: nat)
    requires AccountsOk(b) && Exports(b, doc) && WrittenInOrder(b) && i < |doc.vouchers|
    ensures VoucherRowOk(doc.vouchers[i].voucher)
    ensures ReplayAccepted(doc.vouchers[i].voucher, Sorting.Sort(Of(doc.movements, doc.vouchers[i].id), Chronological))
  {
    var v := doc.vouchers[i].id;
    Rows.AccountAscends(VoucherOf, Chronological, b.movements, v);
    Rows.SortedIsWritten(VoucherOf, Chronological, doc.movements, b.movements, v);
    assert AccountOk(b.vouchers[v], Of(b.movements, v));
  }

  lemma AllocationsAreAccepted(b: Bank, doc: Document)
    requires AllocationsOk(b) && Exports(b, doc) && AllDiffer(b.movements)
    ensures forall i :: 0 <= i < |doc.allocations| ==> AllocationAccepted(doc, doc.allocations[i])
    ensures forall i :: 0 <= i < |doc.movements| ==>
      AllocSum(doc.allocations, doc.movements[i].id) == if doc.movements[i].kind == REDEEM then -doc.movements[i].delta else 0
  {
    ExportedMovements(b, doc);
    forall i | 0 <= i < |doc.allocations| ensures AllocationAccepted(doc, doc.allocations[i]) {
      AllocationIsAccepted(b, doc, doc.allocations[i]);
    }
    forall i | 0 <= i < |doc.movements|
      ensures AllocSum(doc.allocations, doc.movements[i].id) == if doc.movements[i].kind == REDEEM then -doc.movements[i].delta else 0
    {
      var x :| 0 <= x < |b.movements| && b.movements[x] == doc.movements[i];
    }
  }

  lemma OrderedBooksAreAccepted(b: Bank, doc: Document)
    requires Books(b) && Exports(b, doc) && WrittenInOrder(b)
    ensures Accepted(doc)
  {
    ExportedMovements(b, doc);
    AllocationsAreAccepted(b, doc);
    forall i | 0 <= i < |doc.movements| ensures MovementAccepted(doc, doc.movements[i]) {
      MovementIsAccepted(b, doc, doc.movements[i]);
    }
    forall i | 0 <= i < |doc.vouchers|
      ensures VoucherRowOk(doc.vouchers[i].voucher)
      ensures ReplayAccepted(doc.vouchers[i].voucher, Sorting.Sort(Of(doc.movements, doc.vouchers[i].id), Chronological))
    {
      VoucherIsAccepted(b, doc, i);
    }
  }

  /** A voucher's balance only falls, so no two of its later rows start from the same balance. */
  lemma {:induction false} BalancesFall(v: Voucher, rows: seq<Movement>, i: nat, j: nat)
    requires AccountOk(v, rows) && 0 < i < j < |rows|
    ensures rows[j].before < rows[i].before
    decreases j
  {
    assert rows[j].before == rows[j - 1].after && FieldsOk(rows[j - 1]);
    if i < j - 1 { BalancesFall(v, rows, i, j - 1); }
  }

  lemma MovedRowBreaksChain(v: Voucher, listed: seq<Movement>, written: seq<Movement>)
    requires AccountOk(v, written) && multiset(listed) == multiset(written)
    requires Sorting.Sort(listed, Chronological) != written
    ensures !ReplayAccepted(v, Sorting.Sort(listed, Chronological))
  {
    var sorted := Sorting.Sort(listed, Chronological);
    var i, k := Rows.SortingMoves(Chronological, listed, written);
    if i == 0 {
      assert sorted[0].kind != ISSUE;
    } else {
      assert sorted[i - 1] == sorted[..i][i - 1] == written[i - 1];
      BalancesFall(v, written, i, k);
      assert !StepAccepted(v, sorted, i);
    }
  }

  lemma MisplacedIsRejected(b: Bank, doc: Document, v: VoucherId)
    requires AccountsOk(b) && Exports(b, doc) && v in b.vouchers
    requires Sorting.Sort(Of(doc.movements, v), Chronological) != Of(b.movements, v)
    ensures !Accepted(doc)
  {
    assert AccountOk(b.vouchers[v], Of(b.movements, v));
    Rows.SameElementsSameAccount(VoucherOf, doc.movements, b.movements, v);
    MovedRowBreaksChain(b.vouchers[v], Of(doc.movements, v), Of(b.movements, v));
    var i :| 0 <= i < |doc.vouchers| && doc.vouchers[i].id == v;
    assert !ReplayAccepted(doc.vouchers[i].voucher, Sorting.Sort(Of(doc.movements, doc.vouchers[i].id), Chronological));
  }

  lemma UnmovedIsInOrder(b: Bank, doc: Document)
    requires MovementsKnown(b) && AllDiffer(b.movements) && Exports(b, doc)
    requires forall v :: v in b.vouchers ==> Sorting.Sort(Of(doc.movements, v), Chronological) == Of(b.movements, v)
    ensures WrittenInOrder(b)
  {
    forall i, j | 0 <= i < j < |b.movements| && b.movements[i].voucher == b.movements[j].voucher
      ensures Chronological(b.movements[i], b.movements[j]) && !Chronological(b.movements[j], b.movements[i])
    {
      var v := b.movements[i].voucher;
      Sorting.SortSorts(Of(doc.movements, v), Chronological);
      Rows.AccountTells(VoucherOf, Chronological, b.movements, v);
      assert Differ(b.movements[i], b.movements[j]);
    }
  }

  /** Whatever was issued, redeemed, cancelled and paid: the checker accepts the voucher ledger exactly
      when the rows of each voucher ascend by time and id in the order they were written. */
  lemma ReachableBanksAreAccepted(events: seq<Event>, doc: Document)
    requires Exports(Run(Empty, events), doc)
    ensures Accepted(doc) <==> WrittenInOrder(Run(Empty, events))
  {
    RunKeepsBooks(Empty, events);
    var b := Run(Empty, events);
    if WrittenInOrder(b) {
      OrderedBooksAreAccepted(b, doc);
    } else {
      var v :| v in b.vouchers && Sorting.Sort(Of(doc.movements, v), Chronological) != Of(b.movements, v) by {
        if forall v :: v in b.vouchers ==> Sorting.Sort(Of(doc.movements, v), Chronological) == Of(b.movements, v) {
          UnmovedIsInOrder(b, doc);
        }
      }
      MisplacedIsRejected(b, doc, v);
    }
  }

  // ---- The sum check of a backup ----

  function BalanceIn(counted: set<Scope>): VoucherRow -> int {
    (row: VoucherRow) => if row.voucher.scope in counted then row.voucher.balance else 0
  }

  function DeltaIn(counted: set<Scope>): Movement -> int {
    (m: Movement) => if m.scope in counted then m.delta else 0
  }

  lemma {:induction false} ChainTotal(v: Voucher, rows: seq<Movement>, counted: set<Scope>, k: nat)
    requires AccountOk(v, rows) && k < |rows|
    ensures Sorting.SumBy(DeltaIn(counted), rows[k..]) == if v.scope in counted then v.balance - rows[k].before else 0
    decreases |rows| - k
  {
    assert rows[k..][1..] == rows[k + 1..];
    assert FieldsOk(rows[k]) && rows[k].scope == v.scope;
    if k + 1 < |rows| { ChainTotal(v, rows, counted, k + 1); } else { assert rows[k + 1..] == []; }
  }

  lemma VoucherIsItsTotal(b: Bank, row: VoucherRow, counted: set<Scope>)
    requires AccountsOk(b) && row.id in b.vouchers && b.vouchers[row.id] == row.voucher
    ensures Rows.PerAccount(VoucherOf, DeltaIn(counted), b.movements)(row.id) == BalanceIn(counted)(row)
  {
    var rows := Of(b.movements, row.id);
    assert AccountOk(b.vouchers[row.id], rows);
    ChainTotal(row.voucher, rows, counted, 0);
    assert rows[0..] == rows;
  }

  function IdOfRow(row: VoucherRow): VoucherId { row.id }

  lemma VoucherIsListed(doc: Document, v: VoucherId)
    requires exists i :: 0 <= i < |doc.vouchers| && doc.vouchers[i].id == v
    ensures v in Sorting.Image(IdOfRow, doc.vouchers)
  {
    var i :| 0 <= i < |doc.vouchers| && doc.vouchers[i].id == v;
    assert Sorting.Image(IdOfRow, doc.vouchers)[i] == IdOfRow(doc.vouchers[i]);
  }

  lemma RowsAreListed(b: Bank, doc: Document)
    requires MovementsKnown(b) && Exports(b, doc)
    ensures Rows.Covers(VoucherOf, b.movements, Sorting.Image(IdOfRow, doc.vouchers)) && Rows.Distinct(Sorting.Image(IdOfRow, doc.vouchers))
  {
    var keys := Sorting.Image(IdOfRow, doc.vouchers);
    forall i, j | 0 <= i < j < |keys| ensures keys[i] != keys[j] {
      assert doc.vouchers[i].id != doc.vouchers[j].id;
    }
    forall i | 0 <= i < |b.movements| ensures VoucherOf(b.movements[i]) in keys {
      assert b.movements[i].voucher in b.vouchers;
      VoucherIsListed(doc, b.movements[i].voucher);
    }
  }

  lemma VouchersAreTheirTotals(b: Bank, rows: seq<VoucherRow>, counted: set<Scope>)
    requires AccountsOk(b) && forall i :: 0 <= i < |rows| ==> rows[i].id in b.vouchers && b.vouchers[rows[i].id] == rows[i].voucher
    ensures Sorting.SumBy(BalanceIn(counted), rows)
         == Sorting.SumBy(Rows.PerAccount(VoucherOf, DeltaIn(counted), b.movements), Sorting.Image(IdOfRow, rows))
  {
    var total := Rows.PerAccount(VoucherOf, DeltaIn(counted), b.movements);
    forall i | 0 <= i < |rows| ensures BalanceIn(counted)(rows[i]) == total(IdOfRow(rows[i])) {
      VoucherIsItsTotal(b, rows[i], counted);
    }
    Sorting.SumOfImage(BalanceIn(counted), IdOfRow, total, rows);
  }

  lemma BooksAddUp(b: Bank, doc: Document, counted: set<Scope>)
    requires Books(b) && Exports(b, doc)
    ensures Sorting.SumBy(BalanceIn(counted), doc.vouchers) == Sorting.SumBy(DeltaIn(counted), b.movements)
  {
    RowsAreListed(b, doc);
    VouchersAreTheirTotals(b, doc.vouchers, counted);
    Rows.AccountsAddUp(VoucherOf, DeltaIn(counted), b.movements, Sorting.Image(IdOfRow, doc.vouchers));
  }

  /** In every run, over the events of either mode, the balances of the vouchers add up to what their
      movements add up to. */
  lemma SumCheckNeverFails(events: seq<Event>, doc: Document, counted: set<Scope>)
    requires Exports(Run(Empty, events), doc)
    ensures Sorting.SumBy(BalanceIn(counted), doc.vouchers) == Sorting.SumBy(DeltaIn(counted), doc.movements)
  {
    RunKeepsBooks(Empty, events);
    BooksAddUp(Run(Empty, events), doc, counted);
    Sorting.SumIgnoresOrder(DeltaIn(counted), doc.movements, Run(Empty, events).movements);
  }
}
