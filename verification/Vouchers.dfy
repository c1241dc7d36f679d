/** Value vouchers: issuing, redeeming against an order, cancelling, and the ledger of their movements. */
module Vouchers {
  import opened Common
  import opened Payments
  import Rows

  type VoucherId = nat
  type OrderId = nat
  type MovementId = nat

  /** An event together with its data mode. */
  type Scope = nat

  datatype VoucherStatus = ACTIVE | DEPLETED | CANCELLED

  datatype Voucher = Voucher(scope: Scope, initial: int, balance: int, status: VoucherStatus)

  datatype Kind = ISSUE | REDEEM | CANCEL

  datatype Funding = Funding(kind: PaymentMethod, tendered: Option<int>, change: Option<int>)

  datatype Movement = Movement(
    id: MovementId, createdAt: int, voucher: VoucherId, scope: Scope, kind: Kind,
    delta: int, before: int, after: int,
    order: Option<OrderId>, payment: Option<nat>, // the payment's position among the order's payments
    funding: Option<Funding>, hasReason: bool, idem: nat, fingerprint: nat)

  datatype Allocation = Allocation(movement: MovementId, order: OrderId, item: nat, amount: nat)

  datatype Placed = Placed(scope: Scope, order: Order)

  datatype Bank = Bank(
    vouchers: map<VoucherId, Voucher>, movements: seq<Movement>, allocations: seq<Allocation>, orders: map<OrderId, Placed>)

  datatype Stamp = Stamp(id: MovementId, at: int)

  datatype Remainder = Remainder(kind: PaymentMethod, tendered: Option<int>)

  function VoucherOf(m: Movement): VoucherId { m.voucher }

  function Of(ms: seq<Movement>, v: VoucherId): seq<Movement> { Rows.Of(VoucherOf, ms, v) }

  /** A client's idempotency key with the fingerprint of everything else in its request. */
  datatype Request = Request(key: nat, fingerprint: nat)

  predicate Used(b: Bank, idem: Request) {
    exists i :: 0 <= i < |b.movements| && b.movements[i].idem == idem.key
  }

  /** A known key is a repetition only with the same fingerprint; with another one it is a conflict. */
  predicate Repeats(b: Bank, idem: Request) {
    exists i :: 0 <= i < |b.movements| && b.movements[i].idem == idem.key && b.movements[i].fingerprint == idem.fingerprint
  }

  predicate TenderOk(amount: int, kind: PaymentMethod, tendered: Option<int>) {
    && (kind == CASH ==> tendered.Some? && tendered.value >= amount)
    && (kind == CARD ==> tendered.None?)
  }

  function CompletedPaid(ps: seq<Payment>): nat {
    if ps == [] then 0 else (if ps[0].kind == REFUND then 0 else ps[0].amount) + CompletedPaid(ps[1..])
  }

  function Outstanding(o: Order): nat {
    if o.total >= CompletedPaid(o.payments) then o.total - CompletedPaid(o.payments) else 0
  }

  // ---- Spreading an amount over the items ----

  datatype Share = Share(item: nat, amount: nat)

  function Cost(item: Item): nat { item.unit * item.quantity }

  /** Every item takes what it costs until nothing is left; items that cost nothing take no share. */
  function Shares(items: seq<Item>, k: nat, remaining: nat): seq<Share>
    requires k <= |items|
    decreases |items| - k
  {
    if k == |items| || remaining == 0 then []
    else
      var part := Min(Cost(items[k]), remaining);
      if part > 0 then [Share(k, part)] + Shares(items, k + 1, remaining - part) else Shares(items, k + 1, remaining)
  }

  function Left(items: seq<Item>, k: nat, remaining: nat): nat
    requires k <= |items|
    decreases |items| - k
  {
    if k == |items| || remaining == 0 then remaining
    else Left(items, k + 1, remaining - Min(Cost(items[k]), remaining))
  }

  function AllocationsOf(shares: seq<Share>, movement: MovementId, order: OrderId): seq<Allocation> {
    seq(|shares|, i requires 0 <= i < |shares| => Allocation(movement, order, shares[i].item, shares[i].amount))
  }

  // ---- Operations ----

  function Issue(b: Bank, v: VoucherId, scope: Scope, amount: int, kind: PaymentMethod, tendered: Option<int>, idem: Request, stamp: Stamp): Option<Bank> {
    if Used(b, idem) then (if Repeats(b, idem) then Some(b) else None)
    else if amount < 1 || amount > MAX_CENTS || kind !in {CASH, CARD} || !TenderOk(amount, kind, tendered) || v in b.vouchers then None
    else
      var funding := if kind == CASH then Funding(CASH, tendered, Some(tendered.value - amount)) else Funding(CARD, None, None);
      Some(b.(vouchers := b.vouchers[v := Voucher(scope, amount, amount, ACTIVE)],
              movements := b.movements + [Movement(stamp.id, stamp.at, v, scope, ISSUE, amount, 0, amount, None, None, Some(funding), false, idem.key, idem.fingerprint)]))
  }

  /** What a redemption takes from the voucher. */
  function Redeemable(b: Bank, v: VoucherId, order: OrderId): int
    requires v in b.vouchers && order in b.orders
  {
    Min(b.vouchers[v].balance, Outstanding(b.orders[order].order))
  }

  predicate MayRedeem(b: Bank, v: VoucherId, scope: Scope, order: OrderId, rest: Option<Remainder>) {
    && order in b.orders && b.orders[order].scope == scope && !b.orders[order].order.cancelled
    && v in b.vouchers && b.vouchers[v].scope == scope
    && b.vouchers[v].status == ACTIVE && b.vouchers[v].balance > 0
    && Redeemable(b, v, order) > 0
    && var open := Outstanding(b.orders[order].order) - Redeemable(b, v, order);
       && (open > 0 <==> rest.Some?)
       && (rest.Some? ==> rest.value.kind in {CASH, CARD} && TenderOk(open, rest.value.kind, rest.value.tendered))
  }

  function RedeemRow(b: Bank, v: VoucherId, scope: Scope, order: OrderId, idem: Request, stamp: Stamp): Movement
    requires v in b.vouchers && order in b.orders
  {
    var amount := Redeemable(b, v, order);
    Movement(stamp.id, stamp.at, v, scope, REDEEM, 0 - amount, b.vouchers[v].balance, b.vouchers[v].balance - amount,
             Some(order), Some(|b.orders[order].order.payments|), None, false, idem.key, idem.fingerprint)
  }

  function Settled(o: Order, amount: nat, rest: Option<Remainder>): Order {
    var open := if Outstanding(o) >= amount then Outstanding(o) - amount else 0;
    var paid := CompletedPaid(o.payments) + amount + open;
    o.(payments := o.payments + [Payment(amount, VOUCHER)] + (if rest.Some? then [Payment(open, rest.value.kind)] else []),
       status := if paid == o.total then PAID else PARTIALLY_PAID)
  }

  function Redeem(b: Bank, v: VoucherId, scope: Scope, order: OrderId, rest: Option<Remainder>, idem: Request, stamp: Stamp): Option<Bank> {
    if Used(b, idem) then (if Repeats(b, idem) then Some(b) else None)
    else if !MayRedeem(b, v, scope, order, rest) then None
    else
      var amount := Redeemable(b, v, order);
      var o := b.orders[order].order;
      if Left(o.items, 0, amount) != 0 then None
      else
        var balance := b.vouchers[v].balance - amount;
        Some(Bank(b.vouchers[v := b.vouchers[v].(balance := balance, status := if balance == 0 then DEPLETED else ACTIVE)],
                  b.movements + [RedeemRow(b, v, scope, order, idem, stamp)],
                  b.allocations + AllocationsOf(Shares(o.items, 0, amount), stamp.id, order),
                  b.orders[order := Placed(scope, Settled(o, amount, rest))]))
  }

  /** Only a voucher that was never used can be cancelled. */
  function Cancel(b: Bank, v: VoucherId, scope: Scope, blankReason: bool, idem: Request, stamp: Stamp): Option<Bank> {
    if Used(b, idem) then (if Repeats(b, idem) then Some(b) else None)
    else if v !in b.vouchers || b.vouchers[v].scope != scope then None
    else if |Of(b.movements, v)| != 1 || b.vouchers[v].balance != b.vouchers[v].initial || b.vouchers[v].status != ACTIVE then None
    else if blankReason then None
    else
      var was := b.vouchers[v].balance;
      Some(b.(vouchers := b.vouchers[v := b.vouchers[v].(balance := 0, status := CANCELLED)],
              movements := b.movements + [Movement(stamp.id, stamp.at, v, scope, CANCEL, 0 - was, was, 0, None, None, None, true, idem.key, idem.fingerprint)]))
  }

  function WithOrder(b: Bank, id: OrderId, o: Option<Order>): Option<Bank> {
    if id !in b.orders || o.None? then None
    else Some(b.(orders := b.orders[id := b.orders[id].(order := o.value)]))
  }

  function PlaceOrder(b: Bank, id: OrderId, scope: Scope, items: seq<Item>, refund: nat, ps: seq<Payment>): Option<Bank> {
    var o := Create(items, refund, ps);
    if id in b.orders || o.None? then None else Some(b.(orders := b.orders[id := Placed(scope, o.value)]))
  }

  // ---- The service ----

  class ValueVouchersService {
    var b: Bank

    /** Walks the items with what remains to be allocated. */
    method Spread(items: seq<Item>, amount: nat) returns (shares: seq<Share>, remaining: nat)
      ensures shares == Shares(items, 0, amount) && remaining == Left(items, 0, amount)
    {
      shares, remaining := [], amount;
      var k := 0;
      while k < |items| && remaining > 0
        invariant k <= |items|
        invariant Left(items, k, remaining) == Left(items, 0, amount)
        invariant shares + Shares(items, k, remaining) == Shares(items, 0, amount)
      {
        var part: nat := Min(Cost(items[k]), remaining);
        if part > 0 { shares := shares + [Share(k, part)]; }
        remaining := remaining - part;
        k := k + 1;
      }
      assert shares + [] == shares;
    }

    /** One allocation row per share; fails if something remains to be allocated. */
    method CreateAllocations(movement: MovementId, order: OrderId, items: seq<Item>, amount: nat) returns (ok: bool)
      modifies this
      ensures ok <==> Left(items, 0, amount) == 0
      ensures b == old(b).(allocations := old(b).allocations + AllocationsOf(Shares(items, 0, amount), movement, order))
    {
      var shares, remaining := Spread(items, amount);
      b := b.(allocations := b.allocations + AllocationsOf(shares, movement, order));
      return remaining == 0;
    }

    method RedeemVoucher(v: VoucherId, scope: Scope, order: OrderId, rest: Option<Remainder>, idem: Request, stamp: Stamp) returns (ok: bool)
      modifies this
      ensures ok <==> Redeem(old(b), v, scope, order, rest, idem, stamp).Some?
      ensures Some(b) == if ok then Redeem(old(b), v, scope, order, rest, idem, stamp) else Some(old(b))
    {
      if Used(b, idem) { return Repeats(b, idem); }
      if !MayRedeem(b, v, scope, order, rest) { return false; }
      var before := b;
      var o := b.orders[order].order;
      var outstanding := Outstanding(o);
      var redeemed: nat := Min(b.vouchers[v].balance, outstanding);
      var balance := b.vouchers[v].balance - redeemed;
      var row := RedeemRow(b, v, scope, order, idem, stamp);
      b := b.(vouchers := b.vouchers[v := b.vouchers[v].(balance := balance, status := if balance == 0 then DEPLETED else ACTIVE)],
              movements := b.movements + [row]);
      var payments := o.payments + [Payment(redeemed, VOUCHER)];
      if rest.Some? { payments := payments + [Payment(outstanding - redeemed, rest.value.kind)]; }
      var totalPaid := CompletedPaid(o.payments) + redeemed + (outstanding - redeemed);
      b := b.(orders := b.orders[order := Placed(scope, o.(payments := payments, status := if totalPaid == o.total then PAID else PARTIALLY_PAID))]);
      assert payments == Settled(o, redeemed, rest).payments;
      ok := CreateAllocations(stamp.id, order, o.items, redeemed);
      if !ok { b := before; }
    }

    method IssueVoucher(v: VoucherId, scope: Scope, amount: int, kind: PaymentMethod, tendered: Option<int>, idem: Request, stamp: Stamp) returns (ok: bool)
      modifies this
      ensures ok <==> Issue(old(b), v, scope, amount, kind, tendered, idem, stamp).Some?
      ensures Some(b) == if ok then Issue(old(b), v, scope, amount, kind, tendered, idem, stamp) else Some(old(b))
    {
      if Used(b, idem) { return Repeats(b, idem); }
      if amount < 1 || amount > MAX_CENTS || (kind != CASH && kind != CARD) || v in b.vouchers { return false; }
      if kind == CASH && (tendered.None? || tendered.value < amount) { return false; }
      if kind == CARD && tendered.Some? { return false; }
      var funding := if kind == CASH then Funding(CASH, tendered, Some(tendered.value - amount)) else Funding(CARD, None, None);
      b := b.(vouchers := b.vouchers[v := Voucher(scope, amount, amount, ACTIVE)],
              movements := b.movements + [Movement(stamp.id, stamp.at, v, scope, ISSUE, amount, 0, amount, None, None, Some(funding), false, idem.key, idem.fingerprint)]);
      return true;
    }

    method CancelVoucher(v: VoucherId, scope: Scope, blankReason: bool, idem: Request, stamp: Stamp) returns (ok: bool)
      modifies this
      ensures ok <==> Cancel(old(b), v, scope, blankReason, idem, stamp).Some?
      ensures Some(b) == if ok then Cancel(old(b), v, scope, blankReason, idem, stamp) else Some(old(b))
    {
      if Used(b, idem) { return Repeats(b, idem); }
      if v !in b.vouchers || b.vouchers[v].scope != scope { return false; }
      var voucher := b.vouchers[v];
      if |Of(b.movements, v)| != 1 || voucher.balance != voucher.initial || voucher.status != ACTIVE || blankReason { return false; }
      b := b.(vouchers := b.vouchers[v := voucher.(balance := 0, status := CANCELLED)],
              movements := b.movements + [Movement(stamp.id, stamp.at, v, scope, CANCEL, 0 - voucher.balance, voucher.balance, 0, None, None, None, true, idem.key, idem.fingerprint)]);
      return true;
    }
  }
}
