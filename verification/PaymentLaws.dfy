/** What orders take, what settles them, and what the drawer holds, counted payment by payment. */
module PaymentLaws {
  import opened Common
  import opened Payments
  import Sorting

  function AmountOf(p: Payment): int { p.amount }

  /** What a list of payments is worth. */
  function Worth(ps: seq<Payment>): int { Sorting.SumBy(AmountOf, ps) }

  lemma {:induction false} PaidIsWorth(ps: seq<Payment>)
    ensures Paid(ps) == Worth(ps)
  {
    if ps != [] { PaidIsWorth(ps[1..]); }
  }

  /** Up to 50 payments in cash or by card, none of them empty, within the range of a cent column. */
  ghost predicate Tendered(ps: seq<Payment>) {
    && |ps| <= 50 && Worth(ps) <= 2_147_483_647
    && forall p :: p in ps ==> p.amount > 0 && (p.kind == CASH || p.kind == CARD)
  }

  lemma TenderedIsOk(ps: seq<Payment>)
    ensures PaymentsOk(ps) <==> Tendered(ps)
  {
    PaidIsWorth(ps);
    if Tendered(ps) { forall i | 0 <= i < |ps| ensures 0 < ps[i].amount && ps[i].kind in {CASH, CARD} { assert ps[i] in ps; } }
  }

  // ---- General payments ----

  ghost function Owed(o: Order): int { o.total - Worth(o.payments) }

  /** An unpaid order takes payments up to what it owes and none beyond; paying all of it, and only that, makes it PAID. */
  lemma OwedIsTaken(o: Order, ps: seq<Payment>)
    ensures AddPayments(o, ps).Some?
            <==> ps != [] && Tendered(ps) && o.status != PAID && Worth(ps) <= Owed(o) && Worth(o.payments) + Worth(ps) <= 2_147_483_647
    ensures AddPayments(o, ps).Some? ==>
              var o' := AddPayments(o, ps).value;
              && o' == o.(payments := o.payments + ps, status := o'.status) && Owed(o') == Owed(o) - Worth(ps)
              && o'.status == if Worth(ps) == Owed(o) then PAID else PARTIALLY_PAID
  {
    TenderedIsOk(ps);
    PaidIsWorth(ps);
    PaidIsWorth(o.payments);
    Sorting.SumConcat(AmountOf, o.payments, ps);
  }

  function Together(adds: seq<seq<Payment>>): seq<Payment> {
    if adds == [] then [] else adds[0] + Together(adds[1..])
  }

  lemma {:induction false} TakenTogether(adds: seq<seq<Payment>>)
    requires forall ps :: ps in adds ==> ps != [] && Tendered(ps)
    ensures Worth(Together(adds)) >= |adds|
  {
    if adds != [] {
      forall ps | ps in adds[1..] ensures ps != [] && Tendered(ps) { assert ps in adds; }
      TakenTogether(adds[1..]);
      assert adds[0] in adds;
      PositiveWorth(adds[0]);
      Sorting.SumConcat(AmountOf, adds[0], Together(adds[1..]));
    }
  }

  lemma {:induction false} PositiveWorth(ps: seq<Payment>)
    requires forall p :: p in ps ==> p.amount > 0
    ensures Worth(ps) >= |ps|
  {
    if ps != [] {
      assert ps[0] in ps;
      PositiveWorth(ps[1..]);
    }
  }

  /** Whatever instalments a debt is paid in, each is taken, and it is settled exactly when the last one is in. */
  lemma {:induction false} InstalmentsSettle(o: Order, adds: seq<seq<Payment>>)
    requires o.status != PAID && adds != [] && o.total <= 2_147_483_647
    requires forall ps :: ps in adds ==> ps != [] && Tendered(ps)
    requires Worth(Together(adds)) <= Owed(o)
    ensures var o' := RunAdds(o, adds);
            && o'.payments == o.payments + Together(adds) && Owed(o') == Owed(o) - Worth(Together(adds))
            && o'.status == (if Worth(Together(adds)) == Owed(o) then PAID else PARTIALLY_PAID)
            && o' == o.(payments := o'.payments, status := o'.status)
    decreases |adds|
  {
    var rest := adds[1..];
    assert adds[0] in adds;
    forall ps | ps in rest ensures ps != [] && Tendered(ps) { assert ps in adds; }
    TakenTogether(rest);
    Sorting.SumConcat(AmountOf, adds[0], Together(rest));
    OwedIsTaken(o, adds[0]);
    var next := AddPayments(o, adds[0]).value;
    assert o.payments + Together(adds) == next.payments + Together(rest);
    if rest != [] { InstalmentsSettle(next, rest); }
    else { assert Together(rest) == [] && next.payments + [] == next.payments; }
  }

  // ---- Split payments ----

  function CostOf(items: seq<Item>): Line -> int {
    (line: Line) => if line.item < |items| then items[line.item].unit * line.quantity else 0
  }

  function UnitsOf(item: nat): Line -> int {
    (line: Line) => if line.item == item then line.quantity else 0
  }

  lemma {:induction false} RequestedIsUnits(lines: seq<Line>, item: nat)
    ensures Requested(lines, item) == Sorting.SumBy(UnitsOf(item), lines)
  {
    if lines != [] { RequestedIsUnits(lines[1..], item); }
  }

  lemma {:induction false} OneLineMore(items: seq<Item>, lines: seq<Line>, k: nat)
    requires k <= |items| && lines != [] && lines[0].item < |items|
    ensures SplitValue(items, lines, k)
         == SplitValue(items, lines[1..], k) + if lines[0].item >= k then items[lines[0].item].unit * lines[0].quantity else 0
    decreases |items| - k
  {
    if k < |items| {
      OneLineMore(items, lines, k + 1);
      var u, q, r := items[k].unit, lines[0].quantity, Requested(lines[1..], k);
      assert u * (q + r) == u * q + u * r;
    }
  }

  /** Adding up item by item is adding up line by line. */
  lemma {:induction false} LinesCost(items: seq<Item>, lines: seq<Line>)
    requires forall line :: line in lines ==> line.item < |items|
    ensures SplitValue(items, lines, 0) == Sorting.SumBy(CostOf(items), lines)
    decreases |lines|
  {
    if lines == [] { NoLinesNoValue(items, 0); }
    else {
      assert lines[0] in lines;
      forall line | line in lines[1..] ensures line.item < |items| { assert line in lines; }
      LinesCost(items, lines[1..]);
      OneLineMore(items, lines, 0);
    }
  }

  /** The lines name items of the order and no more units of any than are open. */
  ghost predicate Selectable(items: seq<Item>, lines: seq<Line>) {
    && (forall line :: line in lines ==> line.item < |items|)
    && forall k :: 0 <= k < |items| && Sorting.SumBy(UnitsOf(k), lines) > 0 ==>
         Sorting.SumBy(UnitsOf(k), lines) <= items[k].quantity - items[k].paid
  }

  lemma SelectableFits(o: Order, lines: seq<Line>)
    ensures LinesFit(o, lines) <==> Selectable(o.items, lines)
  {
    forall k: nat ensures Requested(lines, k) == Sorting.SumBy(UnitsOf(k), lines) { RequestedIsUnits(lines, k); }
    if Selectable(o.items, lines) {
      forall i | 0 <= i < |lines| ensures lines[i].item < |o.items| { assert lines[i] in lines; }
      forall k | 0 <= k < |o.items| ensures o.items[k].paid + Requested(lines, k) <= o.items[k].quantity || Requested(lines, k) == 0 {
        assert Requested(lines, k) == Sorting.SumBy(UnitsOf(k), lines);
      }
    }
  }

  /** The items after the selected units are paid. */
  ghost predicate UnitsPaid(items: seq<Item>, lines: seq<Line>, items': seq<Item>) {
    && |items'| == |items|
    && forall k :: 0 <= k < |items| ==>
         items'[k] == items[k].(paid := items'[k].paid) && items'[k].paid == items[k].paid + Sorting.SumBy(UnitsOf(k), lines)
  }

  /** A split is taken exactly when open units are selected and paid for to the cent; it marks those units, and
      the order is PAID once no unit is open. */
  lemma SelectionIsPaid(o: Order, lines: seq<Line>, ps: seq<Payment>)
    ensures SplitPayment(o, lines, ps).Some?
            <==> lines != [] && ps != [] && Tendered(ps) && !o.cancelled && o.status != PAID && Selectable(o.items, lines)
                 && Worth(ps) == Sorting.SumBy(CostOf(o.items), lines)
    ensures SplitPayment(o, lines, ps).Some? ==>
              var o' := SplitPayment(o, lines, ps).value;
              && o' == o.(items := o'.items, payments := o.payments + ps, status := o'.status) && UnitsPaid(o.items, lines, o'.items)
              && o'.status == if exists k :: 0 <= k < |o.items| && o'.items[k].paid < o'.items[k].quantity then PARTIALLY_PAID else PAID
  {
    TenderedIsOk(ps);
    PaidIsWorth(ps);
    SelectableFits(o, lines);
    if Selectable(o.items, lines) { LinesCost(o.items, lines); }
    forall k: nat ensures Requested(lines, k) == Sorting.SumBy(UnitsOf(k), lines) { RequestedIsUnits(lines, k); }
  }

  // ---- Creation and cancellation ----

  function Price(i: Item): int { i.unit * i.quantity }

  function OpenPrice(i: Item): int { if i.cancelled then 0 else i.unit * i.quantity }

  lemma {:induction false} GrossIsPrice(items: seq<Item>)
    ensures Gross(items) == Sorting.SumBy(Price, items) && Remaining(items) == Sorting.SumBy(OpenPrice, items)
  {
    if items != [] { GrossIsPrice(items[1..]); }
  }

  /** An order is created for its price less the refund, and is PAID with every unit exactly when the money covers that. */
  lemma CreationBills(items: seq<Item>, refund: nat, ps: seq<Payment>)
    ensures Create(items, refund, ps).Some?
            <==> 1 <= |items| <= 50 && Tendered(ps) && refund <= Sorting.SumBy(Price, items) <= 2_147_483_647
                 && forall i :: i in items ==> 1 <= i.quantity <= 100 && i.paid == 0 && !i.cancelled
    ensures Create(items, refund, ps).Some? ==>
              var o := Create(items, refund, ps).value;
              && o.payments == ps && o.refund == refund && !o.cancelled && o.total == Sorting.SumBy(Price, items) - refund
              && (o.status == PAID <==> Worth(ps) >= o.total) && (o.status == OPEN <==> ps == [] && o.total > 0)
              && |o.items| == |items|
              && forall k :: 0 <= k < |items| ==> o.items[k] == items[k].(paid := if o.status == PAID then items[k].quantity else 0)
  {
    TenderedIsOk(ps);
    PaidIsWorth(ps);
    GrossIsPrice(items);
    if Tendered(ps) { PositiveWorth(ps); }
    if (forall i :: i in items ==> 1 <= i.quantity <= 100 && i.paid == 0 && !i.cancelled) {
      forall k | 0 <= k < |items| ensures 1 <= items[k].quantity <= 100 && items[k].paid == 0 && !items[k].cancelled { assert items[k] in items; }
    }
  }

  lemma {:induction false} OnePriceLess(items: seq<Item>, k: nat, i: Item)
    requires k < |items|
    ensures Sorting.SumBy(OpenPrice, items[k := i]) == Sorting.SumBy(OpenPrice, items) - OpenPrice(items[k]) + OpenPrice(i)
  {
    if k > 0 {
      assert items[k := i][1..] == items[1..][k - 1 := i];
      OnePriceLess(items[1..], k - 1, i);
    } else { assert items[k := i][1..] == items[1..]; }
  }

  /** Cancelling an item takes its price off what the order costs, down to nothing, once. */
  lemma CancellingItemLowersTotal(o: Order, k: nat)
    ensures CancelItem(o, k).Some? <==> k < |o.items| && !o.items[k].cancelled
    ensures CancelItem(o, k).Some? ==>
              var o', left := CancelItem(o, k).value, Sorting.SumBy(OpenPrice, o.items) - Price(o.items[k]) - o.refund;
              && o' == o.(items := o.items[k := o.items[k].(cancelled := true)], total := o'.total, cancelled := o'.cancelled)
              && o'.total == (if left > 0 then left else 0)
              && (o'.cancelled <==> o.cancelled || forall j :: 0 <= j < |o.items| && j != k ==> o.items[j].cancelled)
  {
    if k < |o.items| && !o.items[k].cancelled {
      var items := o.items[k := o.items[k].(cancelled := true)];
      GrossIsPrice(items);
      OnePriceLess(o.items, k, items[k]);
      if forall j :: 0 <= j < |o.items| && j != k ==> o.items[j].cancelled {
        forall j | 0 <= j < |items| ensures items[j].cancelled { }
      }
      if forall j :: 0 <= j < |items| ==> items[j].cancelled {
        forall j | 0 <= j < |o.items| && j != k ensures o.items[j].cancelled { assert items[j] == o.items[j]; }
      }
    }
  }

  /** Cancelling an order works once, takes every item with it and leaves the money alone. */
  lemma CancellingOrderKeepsMoney(o: Order)
    ensures CancelOrder(o).Some? <==> !o.cancelled
    ensures CancelOrder(o).Some? ==>
              var o' := CancelOrder(o).value;
              && o' == o.(items := o'.items, cancelled := true) && |o'.items| == |o.items|
              && CancelOrder(o').None?
              && forall k :: 0 <= k < |o.items| ==> o'.items[k] == o.items[k].(cancelled := true) && CancelItem(o', k).None?
  {
  }

  // ---- Quick sales and the drawer ----

  function Net(p: Payment): int { if p.kind == REFUND then 0 - p.amount else p.amount }

  /** A quick sale books the difference between goods and refund, as one payment or as a payout in cash. */
  lemma QuickSaleBooksDifference(gross: nat, refund: nat, kind: PaymentMethod)
    ensures QuickSalePayments(gross, refund, kind).Some?
            <==> (kind == CASH || (kind == CARD && refund <= gross)) && (gross > 0 || refund > 0)
                 && gross - refund <= 2_147_483_647
    ensures QuickSalePayments(gross, refund, kind).Some? ==>
              var ps := QuickSalePayments(gross, refund, kind).value;
              && Sorting.SumBy(Net, ps) == gross - refund
              && ps[0].kind == kind && (ps[0].amount > 0 <==> gross > refund)
              && (forall i :: 1 <= i < |ps| ==> ps[i].kind == REFUND) && |ps| == if refund > gross then 2 else 1
  {
    if QuickSalePayments(gross, refund, kind).Some? {
      var ps := QuickSalePayments(gross, refund, kind).value;
      assert Sorting.SumBy(Net, []) == 0;
      if |ps| == 1 { assert ps[1..] == []; }
      else {
        assert ps[1..] == [ps[1]] && [ps[1]][1..] == [];
        assert Sorting.SumBy(Net, [ps[1]]) == Net(ps[1]) + Sorting.SumBy(Net, []);
      }
    }
  }

  function CashIn(b: Booked): int { if b.payment.kind == CASH && !b.refunded then b.payment.amount else 0 }

  function CashBack(b: Booked): int { if b.payment.kind == CASH && b.refunded then b.payment.amount else 0 }

  function PaidOut(b: Booked): int { if b.payment.kind == REFUND && !b.refunded then b.payment.amount else 0 }

  /** The drawer holds the cash that came in, less what was given back and what was paid out; cards and
      vouchers do not touch it, and giving a cash payment back takes as much away as it had brought. */
  lemma {:induction false} DrawerIsCounted(bs: seq<Booked>)
    ensures Sorting.SumBy(CashEffect, bs) == Sorting.SumBy(CashIn, bs) - Sorting.SumBy(CashBack, bs) - Sorting.SumBy(PaidOut, bs)
  {
    if bs != [] { DrawerIsCounted(bs[1..]); }
  }
}
