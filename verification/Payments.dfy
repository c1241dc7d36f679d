/** Orders and their money: creation, payments, split payments, cancellation, and the cash drawer. */
module Payments {
  import opened Common
  import Sorting

  const MAX_CENTS := 2_147_483_647

  datatype PaymentMethod = CASH | CARD | VOUCHER | REFUND

  datatype Payment = Payment(amount: nat, kind: PaymentMethod)

  datatype PaymentStatus = OPEN | PARTIALLY_PAID | PAID

  /** unit is price plus deposit, in cents. */
  datatype Item = Item(unit: nat, quantity: nat, paid: nat, cancelled: bool)

  datatype Order = Order(
    items: seq<Item>, total: nat, refund: nat, payments: seq<Payment>, status: PaymentStatus, cancelled: bool)

  datatype Line = Line(item: nat, quantity: nat)

  // ---- Sums ----

  function Paid(ps: seq<Payment>): nat {
    if ps == [] then 0 else ps[0].amount + Paid(ps[1..])
  }

  function Gross(items: seq<Item>): nat {
    if items == [] then 0 else items[0].unit * items[0].quantity + Gross(items[1..])
  }

  /** Value of the units that split payments have marked as paid. */
  function PaidValue(items: seq<Item>): nat {
    if items == [] then 0 else items[0].unit * items[0].paid + PaidValue(items[1..])
  }

  function Remaining(items: seq<Item>): nat {
    if items == [] then 0
    else (if items[0].cancelled then 0 else items[0].unit * items[0].quantity) + Remaining(items[1..])
  }

  function Requested(lines: seq<Line>, item: nat): nat {
    if lines == [] then 0 else (if lines[0].item == item then lines[0].quantity else 0) + Requested(lines[1..], item)
  }

  /** What a split over these lines costs, item by item from index k on. */
  function SplitValue(items: seq<Item>, lines: seq<Line>, k: nat): nat
    requires k <= |items|
    decreases |items| - k
  {
    if k == |items| then 0 else items[k].unit * Requested(lines, k) + SplitValue(items, lines, k + 1)
  }

  predicate PaymentsOk(ps: seq<Payment>) {
    && |ps| <= 50 && Paid(ps) <= MAX_CENTS
    && forall i :: 0 <= i < |ps| ==> 0 < ps[i].amount && ps[i].kind in {CASH, CARD}
  }

  // ---- Operations ----

  predicate ItemsOk(items: seq<Item>) {
    && 1 <= |items| <= 50
    && forall i :: 0 <= i < |items| ==> 1 <= items[i].quantity <= 100 && items[i].paid == 0 && !items[i].cancelled
  }

  function Create(items: seq<Item>, refund: nat, ps: seq<Payment>): Option<Order> {
    var gross := Gross(items);
    if !ItemsOk(items) || !PaymentsOk(ps) || gross > MAX_CENTS || refund > gross then None
    else
      var total := gross - refund;
      var status := if Paid(ps) >= total then PAID else if Paid(ps) > 0 then PARTIALLY_PAID else OPEN;
      Some(Order(seq(|items|, i requires 0 <= i < |items| => items[i].(paid := if status == PAID then items[i].quantity else 0)),
                 total, refund, ps, status, false))
  }

  function AddPayments(o: Order, ps: seq<Payment>): Option<Order> {
    if ps == [] || !PaymentsOk(ps) || o.status == PAID then None
    else if Paid(o.payments) + Paid(ps) > MAX_CENTS || Paid(o.payments) + Paid(ps) > o.total then None
    else Some(o.(payments := o.payments + ps,
                 status := if Paid(o.payments) + Paid(ps) >= o.total then PAID else PARTIALLY_PAID))
  }

  predicate LinesFit(o: Order, lines: seq<Line>) {
    && (forall i :: 0 <= i < |lines| ==> lines[i].item < |o.items|)
    && (forall k :: 0 <= k < |o.items| ==> o.items[k].paid + Requested(lines, k) <= o.items[k].quantity || Requested(lines, k) == 0)
  }

  predicate FullyPaid(items: seq<Item>) {
    forall k :: 0 <= k < |items| ==> items[k].paid >= items[k].quantity
  }

  function Marked(items: seq<Item>, lines: seq<Line>): seq<Item> {
    seq(|items|, k requires 0 <= k < |items| => items[k].(paid := items[k].paid + Requested(lines, k)))
  }

  function SplitPayment(o: Order, lines: seq<Line>, ps: seq<Payment>): Option<Order> {
    if lines == [] || ps == [] || !PaymentsOk(ps) || o.cancelled || o.status == PAID || !LinesFit(o, lines) then None
    else if SplitValue(o.items, lines, 0) > MAX_CENTS || Paid(ps) != SplitValue(o.items, lines, 0) then None
    else
      var items := Marked(o.items, lines);
      Some(o.(items := items, payments := o.payments + ps, status := if FullyPaid(items) then PAID else PARTIALLY_PAID))
  }

  /** Cancelling an item lowers the total and leaves payments and payment status alone. */
  function CancelItem(o: Order, k: nat): Option<Order> {
    if k >= |o.items| || o.items[k].cancelled then None
    else
      var items := o.items[k := o.items[k].(cancelled := true)];
      var rest := Remaining(items);
      Some(o.(items := items, total := if rest >= o.refund then rest - o.refund else 0,
              cancelled := o.cancelled || forall i :: 0 <= i < |items| ==> items[i].cancelled))
  }

  /** Cancelling the whole order cancels its items and leaves total and payments alone. */
  function CancelOrder(o: Order): Option<Order> {
    if o.cancelled then None
    else Some(o.(cancelled := true, items := seq(|o.items|, k requires 0 <= k < |o.items| => o.items[k].(cancelled := true))))
  }

  // ---- The service ----

  class OrderService {
    var o: Order

    method AddPaymentsToOrder(ps: seq<Payment>) returns (ok: bool)
      modifies this
      ensures ok <==> AddPayments(old(o), ps).Some?
      ensures Some(o) == if ok then AddPayments(old(o), ps) else Some(old(o))
    {
      if |ps| == 0 || !PaymentsOk(ps) || o.status == PAID { return false; }
      var currentPaid := Sum(o.payments);
      var newPaid := Sum(ps);
      if currentPaid + newPaid > MAX_CENTS || currentPaid + newPaid > o.total { return false; }
      o := o.(payments := o.payments + ps, status := if currentPaid + newPaid >= o.total then PAID else PARTIALLY_PAID);
      return true;
    }

    method Sum(ps: seq<Payment>) returns (sum: nat)
      ensures sum == Paid(ps)
    {
      sum := 0;
      for i := 0 to |ps|
        invariant sum + Paid(ps[i..]) == Paid(ps)
      {
        assert ps[i..][1..] == ps[i + 1..];
        sum := sum + ps[i].amount;
      }
    }

    /** Adds up the requested quantities per item, refuses what exceeds the open quantity, compares
        the money, and only then marks the units and records the payments. */
    method SplitPaymentOrder(lines: seq<Line>, ps: seq<Payment>) returns (ok: bool)
      modifies this
      ensures ok <==> SplitPayment(old(o), lines, ps).Some?
      ensures Some(o) == if ok then SplitPayment(old(o), lines, ps) else Some(old(o))
    {
      if |lines| == 0 || |ps| == 0 || !PaymentsOk(ps) || o.cancelled || o.status == PAID { return false; }
      var requested := AddUp(lines);
      if exists i :: 0 <= i < |lines| && lines[i].item >= |o.items| { return false; }
      var expected := Expected(o.items, lines, requested);
      if expected.None? { return false; }
      var newPaid := Sum(ps);
      if expected.value > MAX_CENTS || newPaid != expected.value { return false; }
      var items, allItemsFullyPaid := MarkUnits(o.items, lines, requested);
      o := o.(items := items, payments := o.payments + ps, status := if allItemsFullyPaid then PAID else PARTIALLY_PAID);
      return true;
    }

    /** The cost of the selection, unless it exceeds what is open of an item. */
    method Expected(items: seq<Item>, lines: seq<Line>, requested: map<nat, nat>) returns (cost: Option<nat>)
      requires forall k: nat :: Requested(lines, k) == if k in requested then requested[k] else 0
      ensures cost.Some? <==> forall k :: 0 <= k < |items| ==> items[k].paid + Requested(lines, k) <= items[k].quantity || Requested(lines, k) == 0
      ensures cost.Some? ==> cost.value == SplitValue(items, lines, 0)
    {
      var sum := 0;
      for k := 0 to |items|
        invariant sum + SplitValue(items, lines, k) == SplitValue(items, lines, 0)
        invariant forall j :: 0 <= j < k ==> items[j].paid + Requested(lines, j) <= items[j].quantity || Requested(lines, j) == 0
      {
        if k in requested {
          if items[k].paid + requested[k] > items[k].quantity && requested[k] != 0 { return None; }
          sum := sum + items[k].unit * requested[k];
        }
      }
      return Some(sum);
    }

    method MarkUnits(before: seq<Item>, lines: seq<Line>, requested: map<nat, nat>) returns (items: seq<Item>, allPaid: bool)
      requires forall k: nat :: Requested(lines, k) == if k in requested then requested[k] else 0
      ensures items == Marked(before, lines) && (allPaid <==> FullyPaid(items))
    {
      items, allPaid := before, true;
      for k := 0 to |items|
        invariant |items| == |before|
        invariant forall j :: 0 <= j < k ==> items[j] == before[j].(paid := before[j].paid + Requested(lines, j))
        invariant forall j :: k <= j < |items| ==> items[j] == before[j]
        invariant allPaid <==> forall j :: 0 <= j < k ==> items[j].paid >= items[j].quantity
      {
        var more := if k in requested then requested[k] else 0;
        items := items[k := items[k].(paid := items[k].paid + more)];
        if items[k].paid < items[k].quantity { allPaid := false; }
      }
    }

    method AddUp(lines: seq<Line>) returns (requested: map<nat, nat>)
      ensures forall k: nat :: Requested(lines, k) == if k in requested then requested[k] else 0
    {
      requested := map[];
      for i := 0 to |lines|
        invariant forall k: nat :: Requested(lines, k) == (if k in requested then requested[k] else 0) + Requested(lines[i..], k)
      {
        assert lines[i..][1..] == lines[i + 1..];
        var k := lines[i].item;
        requested := requested[k := (if k in requested then requested[k] else 0) + lines[i].quantity];
      }
    }
  }

  // ---- Split payments only ----

  datatype Split = Split(lines: seq<Line>, payments: seq<Payment>)

  function RunSplits(o: Order, splits: seq<Split>): Order
    decreases |splits|
  {
    if splits == [] then o
    else
      var next := SplitPayment(o, splits[0].lines, splits[0].payments);
      RunSplits(if next.Some? then next.value else o, splits[1..])
  }

  lemma {:induction false} PaidConcat(a: seq<Payment>, b: seq<Payment>)
    ensures Paid(a + b) == Paid(a) + Paid(b)
    decreases |a|
  {
    if a == [] { assert a + b == b; } else {
      assert (a + b)[1..] == a[1..] + b;
      PaidConcat(a[1..], b);
    }
  }

  function PaidValueFrom(items: seq<Item>, k: nat): nat
    requires k <= |items|
    decreases |items| - k
  {
    if k == |items| then 0 else items[k].unit * items[k].paid + PaidValueFrom(items, k + 1)
  }

  lemma {:induction false} PaidValueIsFrom(items: seq<Item>, k: nat)
    requires k <= |items|
    ensures PaidValue(items[k..]) == PaidValueFrom(items, k)
    decreases |items| - k
  {
    if k < |items| {
      assert items[k..][1..] == items[k + 1..];
      PaidValueIsFrom(items, k + 1);
    }
  }

  lemma {:induction false} MarkingAddsValue(items: seq<Item>, lines: seq<Line>, k: nat)
    requires k <= |items|
    ensures PaidValueFrom(Marked(items, lines), k) == PaidValueFrom(items, k) + SplitValue(items, lines, k)
    decreases |items| - k
  {
    if k < |items| {
      MarkingAddsValue(items, lines, k + 1);
      var u, p, r := items[k].unit, items[k].paid, Requested(lines, k);
      assert u * (p + r) == u * p + u * r;
    }
  }

  ghost predicate UnitsBounded(items: seq<Item>) {
    forall k :: 0 <= k < |items| ==> items[k].paid <= items[k].quantity
  }

  /** Payments are worth exactly the units marked as paid, and PAID means that every unit is. */
  ghost predicate SplitOk(o: Order, items: seq<Item>) {
    && |o.items| == |items| && UnitsBounded(o.items) && !o.cancelled
    && (forall k :: 0 <= k < |items| ==> o.items[k].unit == items[k].unit && o.items[k].quantity == items[k].quantity)
    && Paid(o.payments) == PaidValueFrom(o.items, 0)
    && (o.status == PAID <==> FullyPaid(o.items))
  }

  lemma SplitKeeps(o: Order, items: seq<Item>, lines: seq<Line>, ps: seq<Payment>)
    requires SplitOk(o, items)
    ensures var next := SplitPayment(o, lines, ps);
            next.Some? ==> SplitOk(next.value, items) && next.value.total == o.total && next.value.refund == o.refund
  {
    if SplitPayment(o, lines, ps).Some? {
      PaidConcat(o.payments, ps);
      MarkingAddsValue(o.items, lines, 0);
    }
  }

  lemma {:induction false} SplitsKeep(o: Order, items: seq<Item>, splits: seq<Split>)
    requires SplitOk(o, items)
    ensures SplitOk(RunSplits(o, splits), items)
    ensures RunSplits(o, splits).total == o.total && RunSplits(o, splits).refund == o.refund
    decreases |splits|
  {
    if splits != [] {
      SplitKeeps(o, items, splits[0].lines, splits[0].payments);
      var next := SplitPayment(o, splits[0].lines, splits[0].payments);
      SplitsKeep(if next.Some? then next.value else o, items, splits[1..]);
    }
  }

  lemma {:induction false} NothingPaidYet(items: seq<Item>, k: nat)
    requires k <= |items| && forall i :: 0 <= i < |items| ==> items[i].paid == 0
    ensures PaidValueFrom(items, k) == 0
    decreases |items| - k
  {
    if k < |items| { NothingPaidYet(items, k + 1); }
  }

  /** An order that is created unpaid and owes something starts out in order. */
  lemma CreatedIsSplitOk(items: seq<Item>, refund: nat)
    requires Create(items, refund, []).Some? && Create(items, refund, []).value.total > 0
    ensures SplitOk(Create(items, refund, []).value, items)
    ensures Create(items, refund, []).value.items == items
  {
    var o := Create(items, refund, []).value;
    assert o.items == items;
    NothingPaidYet(items, 0);
  }

  function GrossFrom(items: seq<Item>, k: nat): nat
    requires k <= |items|
    decreases |items| - k
  {
    if k == |items| then 0 else items[k].unit * items[k].quantity + GrossFrom(items, k + 1)
  }

  lemma {:induction false} GrossIsFrom(items: seq<Item>, k: nat)
    requires k <= |items|
    ensures Gross(items[k..]) == GrossFrom(items, k)
    decreases |items| - k
  {
    if k < |items| {
      assert items[k..][1..] == items[k + 1..];
      GrossIsFrom(items, k + 1);
    }
  }

  /** Paid units are worth at most the gross, and as much exactly when nothing of value is open. */
  lemma {:induction false} PaidAgainstGross(o: seq<Item>, items: seq<Item>, k: nat)
    requires k <= |items| == |o| && UnitsBounded(o)
    requires forall i :: 0 <= i < |items| ==> o[i].unit == items[i].unit && o[i].quantity == items[i].quantity
    ensures PaidValueFrom(o, k) <= GrossFrom(items, k)
    ensures PaidValueFrom(o, k) == GrossFrom(items, k) <==> forall i :: k <= i < |items| ==> items[i].unit == 0 || o[i].paid == items[i].quantity
    decreases |items| - k
  {
    if k < |items| {
      PaidAgainstGross(o, items, k + 1);
      UnitProduct(items[k].unit, o[k].paid, items[k].quantity);
    }
  }

  lemma UnitProduct(u: nat, p: nat, q: nat)
    requires p <= q
    ensures u * p <= u * q && (u * p == u * q <==> u == 0 || p == q)
  {
    if u > 0 && p < q { assert u * q == u * p + u * (q - p); }
  }

  predicate NothingFree(items: seq<Item>) {
    forall i :: 0 <= i < |items| ==> items[i].unit > 0
  }

  ghost predicate PaidMeansSettled(o: Order) {
    o.status == PAID <==> Paid(o.payments) == o.total
  }

  /** Split payments never take more than the gross and always match the paid units. */
  lemma SplitPaymentsMatchUnits(items: seq<Item>, refund: nat, splits: seq<Split>)
    requires Create(items, refund, []).Some? && Create(items, refund, []).value.total > 0
    ensures var o := RunSplits(Create(items, refund, []).value, splits);
            Paid(o.payments) == PaidValue(o.items) <= Gross(items)
  {
    var o := Create(items, refund, []).value;
    CreatedIsSplitOk(items, refund);
    SplitsKeep(o, items, splits);
    var end := RunSplits(o, splits);
    PaidValueIsFrom(end.items, 0);
    GrossIsFrom(items, 0);
    assert end.items[0..] == end.items && items[0..] == items;
    PaidAgainstGross(end.items, items, 0);
  }

  lemma SettledWhenNothingFree(items: seq<Item>, splits: seq<Split>)
    requires Create(items, 0, []).Some? && Create(items, 0, []).value.total > 0 && NothingFree(items)
    ensures PaidMeansSettled(RunSplits(Create(items, 0, []).value, splits))
  {
    var o := Create(items, 0, []).value;
    CreatedIsSplitOk(items, 0);
    SplitsKeep(o, items, splits);
    var end := RunSplits(o, splits);
    GrossIsFrom(items, 0);
    assert items[0..] == items;
    PaidAgainstGross(end.items, items, 0);
  }

  /** One line per item of the order that has a price, for its whole quantity. */
  function PricedLines(items: seq<Item>, k: nat, free: bool): seq<Line>
    requires k <= |items|
    decreases |items| - k
  {
    if k == |items| then []
    else if items[k].unit > 0 || free then [Line(k, items[k].quantity)] + PricedLines(items, k + 1, free)
    else PricedLines(items, k + 1, free)
  }

  lemma {:induction false} PricedRequested(items: seq<Item>, k: nat, free: bool, i: nat)
    requires k <= |items|
    ensures Requested(PricedLines(items, k, free), i)
         == if k <= i < |items| && (items[i].unit > 0 || free) then items[i].quantity else 0
    ensures forall j :: 0 <= j < |PricedLines(items, k, free)| ==> PricedLines(items, k, free)[j].item < |items|
    decreases |items| - k
  {
    if k < |items| { PricedRequested(items, k + 1, free, i); }
  }

  lemma {:induction false} PricedValue(items: seq<Item>, free: bool, k: nat)
    requires k <= |items|
    ensures SplitValue(items, PricedLines(items, 0, free), k) == GrossFrom(items, k)
    decreases |items| - k
  {
    if k < |items| {
      PricedRequested(items, 0, free, k);
      PricedValue(items, free, k + 1);
    }
  }

  /** Paying every item at once, or every item but the free ones, is always possible. */
  lemma PayAtOnce(items: seq<Item>, refund: nat, free: bool) returns (split: Split)
    requires Create(items, refund, []).Some? && Create(items, refund, []).value.total > 0
    ensures var o := RunSplits(Create(items, refund, []).value, [split]);
            && Paid(o.payments) == Gross(items)
            && o.total == Gross(items) - refund
            && (free ==> o.status == PAID)
            && (!free && !NothingFree(items) ==> o.status != PAID)
  {
    var o := Create(items, refund, []).value;
    CreatedIsSplitOk(items, refund);
    var lines := PricedLines(items, 0, free);
    GrossIsFrom(items, 0);
    assert items[0..] == items;
    PricedValue(items, free, 0);
    forall i | 0 <= i < |items|
      ensures Requested(lines, i) == if items[i].unit > 0 || free then items[i].quantity else 0
    {
      PricedRequested(items, 0, free, i);
    }
    PricedRequested(items, 0, free, 0);
    if lines == [] { NoLinesNoValue(items, 0); }
    var ps := [Payment(Gross(items), CASH)];
    assert Paid(ps) == Gross(items) by { assert ps[1..] == []; }
    split := Split(lines, ps);
    var next := SplitPayment(o, lines, ps);
    assert next.Some?;
    assert o.payments + ps == ps;
    assert RunSplits(o, [split]) == RunSplits(next.value, []) by { assert [split][1..] == []; }
    if free { assert FullyPaid(next.value.items); }
    if !free && !NothingFree(items) {
      var i :| 0 <= i < |items| && items[i].unit == 0;
      assert next.value.items[i].paid < next.value.items[i].quantity;
    }
  }

  lemma {:induction false} NoLinesNoValue(items: seq<Item>, k: nat)
    requires k <= |items|
    ensures SplitValue(items, [], k) == 0
    decreases |items| - k
  {
    if k < |items| { NoLinesNoValue(items, k + 1); }
  }

  /** For an order settled by split payments alone, PAID says that the payments equal the total,
      in every run, exactly if nothing was refunded and nothing is free (or nothing was owed). */
  lemma PaidMeansSettledExactly(items: seq<Item>, refund: nat)
    requires Create(items, refund, []).Some?
    ensures (forall splits: seq<Split> :: PaidMeansSettled(RunSplits(Create(items, refund, []).value, splits)))
            <==> Create(items, refund, []).value.total == 0 || (refund == 0 && NothingFree(items))
  {
    var o := Create(items, refund, []).value;
    if o.total == 0 {
      forall splits: seq<Split> ensures RunSplits(o, splits) == o { NothingMoreToPay(o, splits); }
    } else if refund == 0 && NothingFree(items) {
      forall splits: seq<Split> ensures PaidMeansSettled(RunSplits(o, splits)) { SettledWhenNothingFree(items, splits); }
    } else if refund > 0 {
      var split := PayAtOnce(items, refund, true);
      assert !PaidMeansSettled(RunSplits(o, [split]));
    } else {
      var split := PayAtOnce(items, refund, false);
      assert !PaidMeansSettled(RunSplits(o, [split]));
    }
  }

  lemma {:induction false} NothingMoreToPay(o: Order, splits: seq<Split>)
    requires o.status == PAID
    ensures RunSplits(o, splits) == o
    decreases |splits|
  {
    if splits != [] { NothingMoreToPay(o, splits[1..]); }
  }

  // ---- Mixing the two ways to pay ----

  function RunAdds(o: Order, adds: seq<seq<Payment>>): Order
    decreases |adds|
  {
    if adds == [] then o
    else
      var next := AddPayments(o, adds[0]);
      RunAdds(if next.Some? then next.value else o, adds[1..])
  }

  lemma {:induction false} AddsNeverOverpay(o: Order, adds: seq<seq<Payment>>)
    requires Paid(o.payments) <= o.total
    ensures Paid(RunAdds(o, adds).payments) <= RunAdds(o, adds).total == o.total
    decreases |adds|
  {
    if adds != [] {
      PaidConcat(o.payments, adds[0]);
      var next := AddPayments(o, adds[0]);
      AddsNeverOverpay(if next.Some? then next.value else o, adds[1..]);
    }
  }

  /** Without a refund, split payments followed by general payments never exceed the total. */
  lemma SplitsThenAddsNeverOverpay(items: seq<Item>, splits: seq<Split>, adds: seq<seq<Payment>>)
    requires Create(items, 0, []).Some? && Create(items, 0, []).value.total > 0
    ensures var o := RunAdds(RunSplits(Create(items, 0, []).value, splits), adds); Paid(o.payments) <= o.total
  {
    var o := Create(items, 0, []).value;
    SplitPaymentsMatchUnits(items, 0, splits);
    CreatedIsSplitOk(items, 0);
    SplitsKeep(o, items, splits);
    AddsNeverOverpay(RunSplits(o, splits), adds);
  }

  datatype Pay = BySplit(split: Split) | ByAdd(payments: seq<Payment>)

  /** Payments of either kind, in any order. */
  function RunPays(o: Order, pays: seq<Pay>): Order
    decreases |pays|
  {
    if pays == [] then o
    else
      var next := if pays[0].BySplit? then SplitPayment(o, pays[0].split.lines, pays[0].split.payments) else AddPayments(o, pays[0].payments);
      RunPays(if next.Some? then next.value else o, pays[1..])
  }

  /** An order as it was created and paid on: nothing cancelled, the total still gross minus refund. */
  ghost predicate Uncut(o: Order) {
    UnitsBounded(o.items) && !o.cancelled && Gross(o.items) <= MAX_CENTS && o.total + o.refund == Gross(o.items)
  }

  lemma {:induction false} GrossOfMarked(items: seq<Item>, lines: seq<Line>, k: nat)
    requires k <= |items|
    ensures GrossFrom(Marked(items, lines), k) == GrossFrom(items, k)
    decreases |items| - k
  {
    if k < |items| { GrossOfMarked(items, lines, k + 1); }
  }

  lemma SplitKeepsUncut(o: Order, lines: seq<Line>, ps: seq<Payment>)
    requires Uncut(o) && SplitPayment(o, lines, ps).Some?
    ensures var o' := SplitPayment(o, lines, ps).value;
            && Uncut(o') && o'.total == o.total && o'.refund == o.refund && Gross(o'.items) == Gross(o.items)
            && Paid(o'.payments) - PaidValue(o'.items) == Paid(o.payments) - PaidValue(o.items)
  {
    var o' := SplitPayment(o, lines, ps).value;
    PaidConcat(o.payments, ps);
    MarkingAddsValue(o.items, lines, 0);
    GrossOfMarked(o.items, lines, 0);
    WholeSums(o.items);
    WholeSums(o'.items);
  }

  lemma WholeSums(items: seq<Item>)
    ensures Gross(items) == GrossFrom(items, 0) && PaidValue(items) == PaidValueFrom(items, 0)
  {
    GrossIsFrom(items, 0);
    PaidValueIsFrom(items, 0);
    assert items[0..] == items;
  }

  lemma {:induction false} PaysKeepUncut(o: Order, pays: seq<Pay>)
    requires Uncut(o)
    ensures Uncut(RunPays(o, pays))
    decreases |pays|
  {
    if pays != [] {
      var next := if pays[0].BySplit? then SplitPayment(o, pays[0].split.lines, pays[0].split.payments) else AddPayments(o, pays[0].payments);
      if pays[0].BySplit? && next.Some? { SplitKeepsUncut(o, pays[0].split.lines, pays[0].split.payments); }
      PaysKeepUncut(if next.Some? then next.value else o, pays[1..]);
    }
  }

  lemma CreatedIsUncut(items: seq<Item>, refund: nat, ps: seq<Payment>)
    requires Create(items, refund, ps).Some?
    ensures Uncut(Create(items, refund, ps).value)
  {
    var o := Create(items, refund, ps).value;
    SameWorth(items, o.items, 0);
    WholeSums(items);
    WholeSums(o.items);
  }

  lemma {:induction false} SameWorth(a: seq<Item>, b: seq<Item>, k: nat)
    requires k <= |a| == |b| && forall i :: 0 <= i < |a| ==> a[i].unit == b[i].unit && a[i].quantity == b[i].quantity
    ensures GrossFrom(a, k) == GrossFrom(b, k)
    decreases |a| - k
  {
    if k < |a| { SameWorth(a, b, k + 1); }
  }

  /** Splits raise payments and paid units alike, and the units end at the gross. */
  lemma {:induction false} SplitsAreBounded(o: Order, splits: seq<Split>)
    requires Uncut(o)
    ensures Paid(RunSplits(o, splits).payments) <= Paid(o.payments) + Gross(o.items) - PaidValue(o.items)
    ensures RunSplits(o, splits).total == o.total
    decreases |splits|
  {
    if splits == [] {
      WholeSums(o.items);
      PaidAgainstGross(o.items, o.items, 0);
    } else {
      var next := SplitPayment(o, splits[0].lines, splits[0].payments);
      if next.Some? { SplitKeepsUncut(o, splits[0].lines, splits[0].payments); }
      SplitsAreBounded(if next.Some? then next.value else o, splits[1..]);
    }
  }

  /** One line for whatever is still open of each item. */
  function OpenLines(items: seq<Item>, k: nat): seq<Line>
    requires k <= |items|
    decreases |items| - k
  {
    if k == |items| then []
    else if items[k].paid < items[k].quantity then [Line(k, items[k].quantity - items[k].paid)] + OpenLines(items, k + 1)
    else OpenLines(items, k + 1)
  }

  lemma {:induction false} OpenRequested(items: seq<Item>, k: nat, i: nat)
    requires k <= |items|
    ensures Requested(OpenLines(items, k), i)
         == if k <= i < |items| && items[i].paid < items[i].quantity then items[i].quantity - items[i].paid else 0
    ensures forall j :: 0 <= j < |OpenLines(items, k)| ==> OpenLines(items, k)[j].item < |items|
    decreases |items| - k
  {
    if k < |items| { OpenRequested(items, k + 1, i); }
  }

  lemma WorthOfRest(u: nat, p: nat, q: nat)
    requires p <= q
    ensures u * (q - p) == u * q - u * p
  {
  }

  lemma {:induction false} OpenValue(items: seq<Item>, lines: seq<Line>, k: nat)
    requires k <= |items| && UnitsBounded(items)
    requires forall i :: 0 <= i < |items| ==> Requested(lines, i) == items[i].quantity - items[i].paid
    ensures SplitValue(items, lines, k) == GrossFrom(items, k) - PaidValueFrom(items, k)
    decreases |items| - k
  {
    if k < |items| {
      OpenValue(items, lines, k + 1);
      WorthOfRest(items[k].unit, items[k].paid, items[k].quantity);
    }
  }

  lemma {:induction false} AllPaidIsAllWorth(items: seq<Item>, k: nat)
    requires k <= |items| && UnitsBounded(items)
    ensures OpenLines(items, k) == [] ==> PaidValueFrom(items, k) == GrossFrom(items, k)
    decreases |items| - k
  {
    if k < |items| { AllPaidIsAllWorth(items, k + 1); }
  }

  lemma OpenLinesAreOpen(items: seq<Item>)
    requires UnitsBounded(items)
    ensures forall i :: 0 <= i < |items| ==> Requested(OpenLines(items, 0), i) == items[i].quantity - items[i].paid
    ensures forall j :: 0 <= j < |OpenLines(items, 0)| ==> OpenLines(items, 0)[j].item < |items|
  {
    OpenRequested(items, 0, 0);
    forall i | 0 <= i < |items| ensures Requested(OpenLines(items, 0), i) == items[i].quantity - items[i].paid {
      OpenRequested(items, 0, i);
    }
  }

  lemma OnePayment(amount: nat)
    ensures Paid([Payment(amount, CASH)]) == amount
  {
    assert [Payment(amount, CASH)][1..] == [];
  }

  /** The open units of an order can be split off in one go. */
  lemma RestIsSplittable(o: Order, rest: nat)
    requires Uncut(o) && o.status != PAID && 0 < rest == Gross(o.items) - PaidValue(o.items)
    ensures var next := SplitPayment(o, OpenLines(o.items, 0), [Payment(rest, CASH)]);
            next.Some? && next.value.payments == o.payments + [Payment(rest, CASH)]
  {
    var lines := OpenLines(o.items, 0);
    WholeSums(o.items);
    OpenLinesAreOpen(o.items);
    OpenValue(o.items, lines, 0);
    AllPaidIsAllWorth(o.items, 0);
    OnePayment(rest);
    assert LinesFit(o, lines);
  }

  /** Splitting off everything that is open takes all its worth, whatever was paid before. */
  lemma SplitTheRest(o: Order) returns (splits: seq<Split>)
    requires Uncut(o) && o.status != PAID
    ensures Paid(RunSplits(o, splits).payments) == Paid(o.payments) + Gross(o.items) - PaidValue(o.items)
  {
    WholeSums(o.items);
    PaidAgainstGross(o.items, o.items, 0);
    var rest := Gross(o.items) - PaidValue(o.items);
    splits := [];
    if rest > 0 {
      var split := Split(OpenLines(o.items, 0), [Payment(rest, CASH)]);
      RestIsSplittable(o, rest);
      OnePayment(rest);
      PaidConcat(o.payments, split.payments);
      splits := [split];
      assert RunSplits(o, splits) == RunSplits(SplitPayment(o, split.lines, split.payments).value, []) by { assert splits[1..] == []; }
    }
  }

  /** After any payments of either kind: no splits can overpay the order exactly if what was paid, plus
      the refund, is within the worth of the units marked as paid (for a PAID order, if it was not overpaid yet). */
  lemma SplitsOverpayExactly(items: seq<Item>, refund: nat, ps: seq<Payment>, pays: seq<Pay>)
    requires Create(items, refund, ps).Some?
    ensures var o := RunPays(Create(items, refund, ps).value, pays);
            (forall splits: seq<Split> :: Paid(RunSplits(o, splits).payments) <= o.total)
            <==> if o.status == PAID then Paid(o.payments) <= o.total else Paid(o.payments) + o.refund <= PaidValue(o.items)
  {
    CreatedIsUncut(items, refund, ps);
    PaysKeepUncut(Create(items, refund, ps).value, pays);
    var o := RunPays(Create(items, refund, ps).value, pays);
    assert RunSplits(o, []) == o;
    if o.status == PAID {
      forall splits: seq<Split> ensures RunSplits(o, splits) == o { NothingMoreToPay(o, splits); }
    } else {
      forall splits: seq<Split> ensures Paid(RunSplits(o, splits).payments) <= Paid(o.payments) + Gross(o.items) - PaidValue(o.items) {
        SplitsAreBounded(o, splits);
      }
      var rest := SplitTheRest(o);
    }
  }

  /** In particular any general payment that leaves an order unpaid opens the way to overpaying it. */
  lemma EveryAddOpensOverpaying(items: seq<Item>, refund: nat, splits: seq<Split>, ps: seq<Payment>) returns (later: seq<Split>)
    requires Create(items, refund, []).Some? && Create(items, refund, []).value.total > 0
    requires AddPayments(RunSplits(Create(items, refund, []).value, splits), ps).Some?
    requires AddPayments(RunSplits(Create(items, refund, []).value, splits), ps).value.status != PAID
    ensures var o := AddPayments(RunSplits(Create(items, refund, []).value, splits), ps).value;
            Paid(RunSplits(o, later).payments) > o.total
  {
    var created := Create(items, refund, []).value;
    var before := RunSplits(created, splits);
    CreatedIsUncut(items, refund, []);
    CreatedIsSplitOk(items, refund);
    SplitsKeep(created, items, splits);
    SplitsKeepUncut(created, splits);
    WholeSums(before.items);
    PaidConcat(before.payments, ps);
    assert Paid(ps) > 0;
    later := SplitTheRest(AddPayments(before, ps).value);
  }

  lemma {:induction false} SplitsKeepUncut(o: Order, splits: seq<Split>)
    requires Uncut(o)
    ensures Uncut(RunSplits(o, splits))
    decreases |splits|
  {
    if splits != [] {
      var next := SplitPayment(o, splits[0].lines, splits[0].payments);
      if next.Some? { SplitKeepsUncut(o, splits[0].lines, splits[0].payments); }
      SplitsKeepUncut(if next.Some? then next.value else o, splits[1..]);
    }
  }

  /** An instance: a split does not look at what was already paid. */
  lemma AddThenSplitOverpays()
    ensures var o := Create([Item(500, 2, 0, false)], 0, []).value;
            var end := RunSplits(RunAdds(o, [[Payment(400, CASH)]]), [Split([Line(0, 2)], [Payment(1000, CASH)])]);
            Create([Item(500, 2, 0, false)], 0, []).Some? && Paid(end.payments) == 1400 && end.total == 1000 && end.status == PAID
  {
    var item := Item(500, 2, 0, false);
    var first, second := [Payment(400, CASH)], [Payment(1000, CASH)];
    assert Gross([item]) == 1000 by { assert [item][1..] == []; }
    var o := Create([item], 0, []).value;
    assert o.items == [item];
    PartPaid(o, first);
    var o1 := RunAdds(o, [first]);
    RestSplitOff(o1, second);
    PaidConcat(first, second);
  }

  lemma PartPaid(o: Order, first: seq<Payment>)
    requires o == Order([Item(500, 2, 0, false)], 1000, 0, [], OPEN, false) && first == [Payment(400, CASH)]
    ensures Paid(first) == 400 && RunAdds(o, [first]) == o.(payments := first, status := PARTIALLY_PAID)
  {
    assert first[1..] == [] && [first][1..] == [];
    assert Paid(first) == 400 && Paid(o.payments) == 0 && PaymentsOk(first);
    var o1 := AddPayments(o, first).value;
    assert o1.payments == [] + first == first;
    assert RunAdds(o, [first]) == RunAdds(o1, []);
  }

  lemma RestSplitOff(o: Order, second: seq<Payment>)
    requires o.items == [Item(500, 2, 0, false)] && o.status == PARTIALLY_PAID && !o.cancelled && second == [Payment(1000, CASH)]
    ensures Paid(second) == 1000
    ensures var end := RunSplits(o, [Split([Line(0, 2)], second)]);
            end.payments == o.payments + second && end.total == o.total && end.status == PAID
  {
    var lines := [Line(0, 2)];
    assert second[1..] == [] && lines[1..] == [];
    assert Requested(lines, 0) == 2;
    assert SplitValue(o.items, lines, 0) == 1000 + SplitValue(o.items, lines, 1) && SplitValue(o.items, lines, 1) == 0;
    assert Paid(second) == 1000 && PaymentsOk(second) && LinesFit(o, lines);
    var end := SplitPayment(o, lines, second).value;
    assert [Split(lines, second)][1..] == [];
    assert RunSplits(o, [Split(lines, second)]) == RunSplits(end, []);
  }

  // ---- The cash drawer ----

  /** Payments of a quick sale: the total, and a second one when the refund exceeds the goods. */
  function QuickSalePayments(gross: nat, refund: nat, kind: PaymentMethod): Option<seq<Payment>> {
    var total := if gross >= refund then gross - refund else 0;
    var payout := if refund > gross then refund - gross else 0;
    if kind !in {CASH, CARD} || (payout > 0 && kind != CASH) || (total == 0 && refund == 0) || total > MAX_CENTS then None
    else Some([Payment(total, kind)] + if payout > 0 then [Payment(payout, REFUND)] else [])
  }

  /** A booked payment; one that was given back counts against its method. */
  datatype Booked = Booked(payment: Payment, refunded: bool)

  /** What a payment means for the cash in the drawer. */
  function CashEffect(b: Booked): int {
    if b.payment.kind == CASH then (if b.refunded then 0 - b.payment.amount else b.payment.amount)
    else if b.payment.kind == REFUND && !b.refunded then 0 - b.payment.amount
    else 0
  }

  method ExpectedCash(start: nat, bs: seq<Booked>) returns (expected: int)
    ensures expected == start + Sorting.SumBy(CashEffect, bs)
  {
    var cashSales, cashPayouts := 0, 0;
    for i := 0 to |bs|
      invariant cashSales - cashPayouts + Sorting.SumBy(CashEffect, bs[i..]) == Sorting.SumBy(CashEffect, bs)
    {
      assert bs[i..][1..] == bs[i + 1..];
      var p := bs[i].payment;
      if !bs[i].refunded {
        if p.kind == CASH { cashSales := cashSales + p.amount; }
        else if p.kind == REFUND { cashPayouts := cashPayouts + p.amount; }
      } else if p.kind == CASH {
        cashSales := cashSales - p.amount;
      }
    }
    expected := start + cashSales - cashPayouts;
  }

  datatype Sale = Sale(gross: nat, refund: nat, kind: PaymentMethod)

  function Completed(p: Payment): Booked { Booked(p, false) }

  /** The payments of a session in which these sales succeeded. */
  function SessionPayments(sales: seq<Sale>): seq<Booked>
    decreases |sales|
  {
    if sales == [] then []
    else
      var made := QuickSalePayments(sales[0].gross, sales[0].refund, sales[0].kind);
      (if made.Some? then Sorting.Image(Completed, made.value) else []) + SessionPayments(sales[1..])
  }

  function CashTurnover(sales: seq<Sale>): int {
    if sales == [] then 0
    else
      var s := sales[0];
      (if s.kind == CASH && QuickSalePayments(s.gross, s.refund, s.kind).Some? then s.gross - s.refund else 0) + CashTurnover(sales[1..])
  }

  lemma {:induction false} SaleMovesDrawer(s: Sale)
    requires QuickSalePayments(s.gross, s.refund, s.kind).Some?
    ensures Sorting.SumBy(CashEffect, Sorting.Image(Completed, QuickSalePayments(s.gross, s.refund, s.kind).value))
         == if s.kind == CASH then s.gross - s.refund else 0
  {
    var made := QuickSalePayments(s.gross, s.refund, s.kind).value;
    var booked := Sorting.Image(Completed, made);
    assert booked[0] == Completed(made[0]);
    assert Sorting.SumBy(CashEffect, []) == 0;
    if |made| == 1 {
      assert booked[1..] == [];
    } else {
      assert booked[1] == Completed(made[1]) && booked[1..] == [booked[1]] && [booked[1]][1..] == [];
      assert Sorting.SumBy(CashEffect, [booked[1]]) == CashEffect(booked[1]) + Sorting.SumBy(CashEffect, []);
    }
  }

  /** Every successful cash sale moves the drawer by gross minus deposit refund, whichever is larger. */
  lemma {:induction false} DrawerMovesByTurnover(sales: seq<Sale>)
    ensures Sorting.SumBy(CashEffect, SessionPayments(sales)) == CashTurnover(sales)
    decreases |sales|
  {
    if sales != [] {
      var s := sales[0];
      DrawerMovesByTurnover(sales[1..]);
      var made := QuickSalePayments(s.gross, s.refund, s.kind);
      var booked := if made.Some? then Sorting.Image(Completed, made.value) else [];
      Sorting.SumConcat(CashEffect, booked, SessionPayments(sales[1..]));
      if made.Some? { SaleMovesDrawer(s); }
    }
  }
}
