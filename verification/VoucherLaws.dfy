/** What value vouchers are sold for, what they pay and how they end, told by balances and payments. */
module VoucherLaws {
  import opened Common
  import opened Payments
  import opened Vouchers
  import opened VoucherBooks
  import Rows
  import Sorting

  // ---- Shares ----

  function AmountIn(item: nat): Share -> int { (s: Share) => if s.item == item then s.amount else 0 }

  /** What item j gets of an amount that is spread from item k on: what is left when it comes to it, up to its cost. */
  ghost function PartOf(items: seq<Item>, k: nat, amount: int, j: nat): int
    requires k <= j < |items|
    decreases j - k
  {
    if k < j then PartOf(items, k + 1, amount - items[k].unit * items[k].quantity, j)
    else if amount <= 0 then 0
    else if amount < items[j].unit * items[j].quantity then amount else items[j].unit * items[j].quantity
  }

  lemma {:induction false} NothingLeftToSpread(items: seq<Item>, k: nat, amount: int, j: nat)
    requires k <= j < |items| && amount <= 0
    ensures PartOf(items, k, amount, j) == 0
    decreases j - k
  {
    if k < j {
      assert items[k].unit * items[k].quantity >= 0;
      NothingLeftToSpread(items, k + 1, amount - items[k].unit * items[k].quantity, j);
    }
  }

  lemma {:induction false} LaterShares(items: seq<Item>, k: nat, amount: nat, j: nat)
    requires j < k <= |items|
    ensures Sorting.SumBy(AmountIn(j), Shares(items, k, amount)) == 0
    decreases |items| - k
  {
    if k < |items| && amount > 0 {
      var part := Min(Cost(items[k]), amount);
      LaterShares(items, k + 1, amount - part, j);
      if part > 0 { assert ([Share(k, part)] + Shares(items, k + 1, amount - part))[1..] == Shares(items, k + 1, amount - part); }
    }
  }

  /** Each item gets its part, first come, first served. */
  lemma {:induction false} SharesAreParts(items: seq<Item>, k: nat, amount: nat, j: nat)
    requires k <= j < |items|
    ensures Sorting.SumBy(AmountIn(j), Shares(items, k, amount)) == PartOf(items, k, amount, j)
    decreases |items| - k
  {
    if amount == 0 {
      NothingLeftToSpread(items, k, amount, j);
    } else {
      var part := Min(Cost(items[k]), amount);
      var rest := Shares(items, k + 1, amount - part);
      if part > 0 { assert ([Share(k, part)] + rest)[1..] == rest; }
      if k == j { LaterShares(items, k + 1, amount - part, j); }
      else {
        SharesAreParts(items, k + 1, amount - part, j);
        if amount < Cost(items[k]) {
          NothingLeftToSpread(items, k + 1, amount - part, j);
          NothingLeftToSpread(items, k + 1, amount - Cost(items[k]), j);
        }
      }
    }
  }

  // ---- Redeeming ----

  function Received(p: Payment): int { if p.kind == REFUND then 0 else p.amount }

  lemma {:induction false} CompletedIsReceived(ps: seq<Payment>)
    ensures CompletedPaid(ps) == Sorting.SumBy(Received, ps)
  {
    if ps != [] { CompletedIsReceived(ps[1..]); }
  }

  /** What an order still owes. */
  ghost function Due(o: Order): int { o.total - Sorting.SumBy(Received, o.payments) }

  /** What a voucher pays of it. */
  ghost function Pays(v: Voucher, o: Order): int { if v.balance < Due(o) then v.balance else Due(o) }

  /** The rest is paid at once, in cash that covers it or by card; nothing may be offered when there is no rest. */
  ghost predicate RestFits(left: int, rest: Option<Remainder>) {
    if left == 0 then rest.None?
    else
      && rest.Some?
      && (rest.value.kind == CASH || rest.value.kind == CARD)
      && (rest.value.kind == CASH ==> rest.value.tendered.Some? && rest.value.tendered.value >= left)
      && (rest.value.kind == CARD ==> rest.value.tendered.None?)
  }

  ghost predicate Redeems(b: Bank, v: VoucherId, scope: Scope, order: OrderId, rest: Option<Remainder>) {
    && v in b.vouchers && order in b.orders && b.vouchers[v].scope == scope && b.orders[order].scope == scope
    && !b.orders[order].order.cancelled && b.vouchers[v].status == ACTIVE
    && Pays(b.vouchers[v], b.orders[order].order) > 0
    && RestFits(Due(b.orders[order].order) - Pays(b.vouchers[v], b.orders[order].order), rest)
  }

  lemma MayRedeemExactly(b: Bank, v: VoucherId, scope: Scope, order: OrderId, rest: Option<Remainder>)
    ensures MayRedeem(b, v, scope, order, rest) <==> Redeems(b, v, scope, order, rest)
    ensures Redeems(b, v, scope, order, rest) ==> Redeemable(b, v, order) == Pays(b.vouchers[v], b.orders[order].order)
  {
    if order in b.orders { CompletedIsReceived(b.orders[order].order.payments); }
  }

  /** A redemption goes through exactly if voucher and order belong together, both are live, something is owed
      that the items are worth, and the rest is paid along. */
  lemma RedeemedExactly(b: Bank, v: VoucherId, scope: Scope, order: OrderId, rest: Option<Remainder>, idem: Request, stamp: Stamp)
    requires !Used(b, idem)
    ensures Redeem(b, v, scope, order, rest, idem, stamp).Some?
            <==> Redeems(b, v, scope, order, rest) && Pays(b.vouchers[v], b.orders[order].order) <= GrossFrom(b.orders[order].order.items, 0)
  {
    MayRedeemExactly(b, v, scope, order, rest);
    if MayRedeem(b, v, scope, order, rest) { SharesCover(b.orders[order].order.items, 0, Redeemable(b, v, order)); }
  }

  ghost predicate Worth(p: Payment, amount: int, kind: PaymentMethod) { p.amount == amount && p.kind == kind }

  /** The voucher pays its part and the rest is booked under the method it is paid with; then the order is PAID and
      owes nothing.  No other voucher and no other order changes. */
  lemma RedeemingPays(b: Bank, v: VoucherId, scope: Scope, order: OrderId, rest: Option<Remainder>, idem: Request, stamp: Stamp)
    requires !Used(b, idem) && Redeem(b, v, scope, order, rest, idem, stamp).Some?
    ensures var b' := Redeem(b, v, scope, order, rest, idem, stamp).value;
            var was, o := b.vouchers[v], b.orders[order].order;
            var pays, left := Pays(was, o), Due(o) - Pays(was, o);
            && b'.vouchers == b.vouchers[v := was.(balance := was.balance - pays, status := if was.balance == pays then DEPLETED else ACTIVE)]
            && b'.orders == b.orders[order := b'.orders[order]] && b'.orders[order].scope == scope
            && var o' := b'.orders[order].order;
               && o' == o.(status := PAID, payments := o'.payments) && Due(o') == 0
               && |o'.payments| == |o.payments| + (if left > 0 then 2 else 1) && o'.payments[..|o.payments|] == o.payments
               && Worth(o'.payments[|o.payments|], pays, VOUCHER) && (left > 0 ==> rest.Some? && Worth(o'.payments[|o.payments| + 1], left, rest.value.kind))
  {
    MayRedeemExactly(b, v, scope, order, rest);
    var o := b.orders[order].order;
    CompletedIsReceived(o.payments);
    var o' := Redeem(b, v, scope, order, rest, idem, stamp).value.orders[order].order;
    SettledIsPaid(o, Redeemable(b, v, order), rest);
    CompletedIsReceived(o'.payments);
  }

  /** Its movement names the order and the payment; the items' shares of it are first come, first served. */
  lemma RedeemingIsRecorded(b: Bank, v: VoucherId, scope: Scope, order: OrderId, rest: Option<Remainder>, idem: Request, stamp: Stamp)
    requires !Used(b, idem) && Redeem(b, v, scope, order, rest, idem, stamp).Some?
    ensures var b' := Redeem(b, v, scope, order, rest, idem, stamp).value;
            var was, o := b.vouchers[v], b.orders[order].order;
            && b'.movements == b.movements + [Movement(stamp.id, stamp.at, v, scope, REDEEM, 0 - Pays(was, o), was.balance, was.balance - Pays(was, o),
                                                       Some(order), Some(|o.payments|), None, false, idem.key, idem.fingerprint)]
            && |b'.orders[order].order.payments| > |o.payments| && Worth(b'.orders[order].order.payments[|o.payments|], Pays(was, o), VOUCHER)
            && |b.allocations| <= |b'.allocations| && b'.allocations[..|b.allocations|] == b.allocations
            && var added := b'.allocations[|b.allocations|..];
               && (forall a :: a in added ==> a.movement == stamp.id && a.order == order)
               && forall j :: 0 <= j < |o.items| ==> Sorting.SumBy(AllocatedTo(j), added) == PartOf(o.items, 0, Pays(was, o), j)
  {
    MayRedeemExactly(b, v, scope, order, rest);
    var o, amount := b.orders[order].order, Redeemable(b, v, order);
    var shares := Shares(o.items, 0, amount);
    var b' := Redeem(b, v, scope, order, rest, idem, stamp).value;
    assert b'.allocations[|b.allocations|..] == AllocationsOf(shares, stamp.id, order);
    forall j | 0 <= j < |o.items|
      ensures Sorting.SumBy(AllocatedTo(j), AllocationsOf(shares, stamp.id, order)) == PartOf(o.items, 0, amount, j)
    {
      SharesAreParts(o.items, 0, amount, j);
      AllocatedAsShared(shares, stamp.id, order, j);
    }
  }

  function AllocatedTo(item: nat): Allocation -> int { (a: Allocation) => if a.item == item then a.amount else 0 }

  lemma {:induction false} AllocatedAsShared(shares: seq<Share>, movement: MovementId, order: OrderId, j: nat)
    ensures Sorting.SumBy(AllocatedTo(j), AllocationsOf(shares, movement, order)) == Sorting.SumBy(AmountIn(j), shares)
    decreases |shares|
  {
    if shares != [] {
      AllocatedAsShared(shares[1..], movement, order, j);
      assert AllocationsOf(shares, movement, order)[1..] == AllocationsOf(shares[1..], movement, order);
    }
  }

  // ---- Selling and cancelling ----

  /** A voucher is sold for at least a cent, in cash with change or by card, and is worth what it was sold for. */
  lemma IssuingSells(b: Bank, v: VoucherId, scope: Scope, amount: int, kind: PaymentMethod, tendered: Option<int>, idem: Request, stamp: Stamp)
    requires !Used(b, idem)
    ensures Issue(b, v, scope, amount, kind, tendered, idem, stamp).Some?
            <==> v !in b.vouchers && 1 <= amount <= 2_147_483_647
                 && ((kind == CASH && tendered.Some? && tendered.value >= amount) || (kind == CARD && tendered.None?))
    ensures Issue(b, v, scope, amount, kind, tendered, idem, stamp).Some? ==>
              var b' := Issue(b, v, scope, amount, kind, tendered, idem, stamp).value;
              && b'.vouchers == b.vouchers[v := Voucher(scope, amount, amount, ACTIVE)]
              && b'.orders == b.orders && b'.allocations == b.allocations
              && |b'.movements| == |b.movements| + 1 && b'.movements[..|b.movements|] == b.movements
              && SoldRow(b'.movements[|b.movements|], v, scope, amount, kind, tendered, idem)
  {
  }

  ghost predicate SoldRow(m: Movement, v: VoucherId, scope: Scope, amount: int, kind: PaymentMethod, tendered: Option<int>, idem: Request) {
    && m.voucher == v && m.scope == scope && m.kind == ISSUE && m.before == 0 && m.delta == m.after == amount
    && m.order.None? && m.payment.None? && !m.hasReason && m.idem == idem.key && m.fingerprint == idem.fingerprint
    && m.funding.Some? && m.funding.value.kind == kind && m.funding.value.tendered == tendered
    && (kind == CASH ==> tendered.Some? && m.funding.value.change == Some(tendered.value - amount)) && (kind == CARD ==> m.funding.value.change.None?)
  }

  /** A voucher is taken back, with a reason, exactly if it was never used: all of its balance goes. */
  lemma CancellingTakesBalance(b: Bank, v: VoucherId, scope: Scope, blank: bool, idem: Request, stamp: Stamp)
    requires Books(b) && !Used(b, idem)
    ensures Cancel(b, v, scope, blank, idem, stamp).Some?
            <==> !blank && v in b.vouchers && b.vouchers[v].scope == scope
                 && forall m :: m in b.movements && m.voucher == v ==> m.kind == ISSUE
    ensures Cancel(b, v, scope, blank, idem, stamp).Some? ==>
              var b', was := Cancel(b, v, scope, blank, idem, stamp).value, b.vouchers[v];
              && b'.vouchers == b.vouchers[v := was.(balance := 0, status := CANCELLED)]
              && b'.orders == b.orders && b'.allocations == b.allocations
              && |b'.movements| == |b.movements| + 1 && b'.movements[..|b.movements|] == b.movements
              && var m := b'.movements[|b.movements|];
                 m.voucher == v && m.scope == scope && m.kind == CANCEL && m.before == was.balance == 0 - m.delta && m.after == 0
                 && m.hasReason && m.order.None? && m.payment.None? && m.funding.None? && m.idem == idem.key && m.fingerprint == idem.fingerprint
  {
    if v in b.vouchers {
      var rows := Of(b.movements, v);
      assert AccountOk(b.vouchers[v], rows);
      Rows.Members(VoucherOf, b.movements, v);
      if |rows| == 1 {
        forall m | m in b.movements && m.voucher == v ensures m.kind == ISSUE { assert m in rows; }
      } else {
        assert rows[1] in b.movements && rows[1].voucher == v && rows[1].kind != ISSUE;
      }
    }
  }

  // ---- What the checker's acceptance says ----

  function RedeemedBy(m: Movement): int { if m.kind == REDEEM then 0 - m.delta else 0 }

  function CancelledBy(m: Movement): int { if m.kind == CANCEL then 0 - m.delta else 0 }

  lemma SumOfOne<T>(f: T -> int, x: T)
    ensures Sorting.SumBy(f, [x]) == f(x)
  {
    assert [x][1..] == [] && Sorting.SumBy(f, []) == 0;
  }

  lemma {:induction false} BalanceAfter(v: Voucher, rows: seq<Movement>, n: nat)
    requires ReplayAccepted(v, rows) && 1 <= n <= |rows| && forall i :: 0 <= i < |rows| ==> FieldsOk(rows[i])
    ensures rows[n - 1].after == v.initial - Sorting.SumBy(RedeemedBy, rows[..n]) - Sorting.SumBy(CancelledBy, rows[..n])
    decreases n
  {
    var last := rows[n - 1];
    assert StepAccepted(v, rows, n - 1);
    SumOfOne(RedeemedBy, last);
    SumOfOne(CancelledBy, last);
    if n == 1 {
      assert rows[..1] == [last];
    } else {
      BalanceAfter(v, rows, n - 1);
      assert rows[..n] == rows[..n - 1] + [last];
      Sorting.SumConcat(RedeemedBy, rows[..n - 1], [last]);
      Sorting.SumConcat(CancelledBy, rows[..n - 1], [last]);
    }
  }

  /** Whatever the checker accepts balances: a voucher was worth what is left, what was redeemed and what was
      cancelled; it is active exactly while something is left, and what each movement redeemed went to items. */
  lemma AcceptedVouchersBalance(doc: Document, i: nat)
    requires Accepted(doc) && i < |doc.vouchers|
    ensures var v, rows := doc.vouchers[i].voucher, Sorting.Sort(Of(doc.movements, doc.vouchers[i].id), Chronological);
            && v.initial == v.balance + Sorting.SumBy(RedeemedBy, rows) + Sorting.SumBy(CancelledBy, rows)
            && 0 <= v.balance <= v.initial && (v.status == ACTIVE <==> v.balance > 0)
            && forall m :: m in rows ==> AllocSum(doc.allocations, m.id) == RedeemedBy(m)
  {
    var v, rows := doc.vouchers[i].voucher, Sorting.Sort(Of(doc.movements, doc.vouchers[i].id), Chronological);
    assert ReplayAccepted(v, rows) && VoucherRowOk(v);
    forall m | m in rows ensures FieldsOk(m) && AllocSum(doc.allocations, m.id) == RedeemedBy(m) { RowIsAccepted(doc, doc.vouchers[i].id, m); }
    forall k | 0 <= k < |rows| ensures FieldsOk(rows[k]) { assert rows[k] in rows; }
    BalanceAfter(v, rows, |rows|);
    assert rows[..|rows|] == rows;
  }

  lemma RowIsAccepted(doc: Document, v: VoucherId, m: Movement)
    requires Accepted(doc) && m in Sorting.Sort(Of(doc.movements, v), Chronological)
    ensures FieldsOk(m) && AllocSum(doc.allocations, m.id) == RedeemedBy(m)
  {
    RowIsListed(doc.movements, v, m);
    var k :| 0 <= k < |doc.movements| && doc.movements[k] == m;
    assert MovementAccepted(doc, doc.movements[k]);
  }

  lemma RowIsListed(ms: seq<Movement>, v: VoucherId, m: Movement)
    requires m in Sorting.Sort(Of(ms, v), Chronological)
    ensures m in ms
  {
    TimeIsOrder();
    Sorting.SortSorts(Of(ms, v), Chronological);
    Rows.Members(VoucherOf, ms, v);
    assert m in multiset(Sorting.Sort(Of(ms, v), Chronological)) && m in multiset(Of(ms, v));
  }

  lemma TimeIsOrder()
    ensures Sorting.IsOrder(Chronological)
  {
  }
}
