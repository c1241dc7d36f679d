/** The payment status of an order against its payments: the backup checker's rule, and which operations keep it. */
module PaymentStatus {
  import opened Common
  import opened Payments
  import Sorting
  import Vouchers

  // ---- The checker's rule ----

  function StatusFor(paid: nat, total: nat): Payments.PaymentStatus {
    if paid >= total then PAID else if paid > 0 then PARTIALLY_PAID else OPEN
  }

  /** The status is the one that the payments ask for. */
  predicate Fits(o: Order) { o.status == StatusFor(Paid(o.payments), o.total) }

  datatype PaymentRow = PaymentRow(order: nat, amount: nat, completed: bool)

  datatype OrderRow = OrderRow(id: nat, total: nat, status: Payments.PaymentStatus)

  function CompletedSum(rows: seq<PaymentRow>, order: nat): nat {
    if rows == [] then 0
    else (if rows[0].order == order && rows[0].completed then rows[0].amount else 0) + CompletedSum(rows[1..], order)
  }

  /** Adds the completed payments up per order, then compares every order. */
  method StatusesAreConsistent(orders: seq<OrderRow>, payments: seq<PaymentRow>) returns (ok: bool)
    ensures ok <==> forall i :: 0 <= i < |orders| ==> orders[i].status == StatusFor(CompletedSum(payments, orders[i].id), orders[i].total)
  {
    var sums: map<nat, nat> := map[];
    for i := 0 to |payments|
      invariant forall id: nat :: CompletedSum(payments, id) == (if id in sums then sums[id] else 0) + CompletedSum(payments[i..], id)
    {
      assert payments[i..][0] == payments[i] && payments[i..][1..] == payments[i + 1..];
      var id := payments[i].order;
      if payments[i].completed { sums := sums[id := (if id in sums then sums[id] else 0) + payments[i].amount]; }
    }
    for i := 0 to |orders|
      invariant forall j :: 0 <= j < i ==> orders[j].status == StatusFor(CompletedSum(payments, orders[j].id), orders[j].total)
    {
      var sum := if orders[i].id in sums then sums[orders[i].id] else 0;
      assert sum == CompletedSum(payments, orders[i].id);
      if orders[i].status != StatusFor(sum, orders[i].total) { return false; }
    }
    return true;
  }

  /** The amounts of an order's completed payments, as a document lists them. */
  function Listed(rows: seq<PaymentRow>, order: nat): seq<nat> {
    if rows == [] then []
    else (if rows[0].order == order && rows[0].completed then [rows[0].amount] else []) + Listed(rows[1..], order)
  }

  function Cents(n: nat): int { n }

  function AmountOf(p: Payment): nat { p.amount }

  lemma {:induction false} SumIsListed(rows: seq<PaymentRow>, order: nat)
    ensures CompletedSum(rows, order) == Sorting.SumBy(Cents, Listed(rows, order))
  {
    if rows != [] {
      SumIsListed(rows[1..], order);
      var rest := Listed(rows[1..], order);
      if rows[0].order == order && rows[0].completed { assert Listed(rows, order)[0] == rows[0].amount && Listed(rows, order)[1..] == rest; }
      else { assert Listed(rows, order) == rest; }
    }
  }

  lemma {:induction false} PaidIsSum(ps: seq<Payment>)
    ensures Paid(ps) == Sorting.SumBy(Cents, Sorting.Image(AmountOf, ps))
    decreases |ps|
  {
    if ps != [] {
      PaidIsSum(ps[1..]);
      assert Sorting.Image(AmountOf, ps)[1..] == Sorting.Image(AmountOf, ps[1..]);
    }
  }

  /** However a document lists the payments among those of other orders: the checker takes an order exactly if its
      status is the one its payments ask for. */
  lemma ListedOrderFits(o: Order, id: nat, rows: seq<PaymentRow>)
    requires multiset(Listed(rows, id)) == multiset(Sorting.Image(AmountOf, o.payments))
    ensures o.status == StatusFor(CompletedSum(rows, id), o.total) <==> Fits(o)
  {
    SumIsListed(rows, id);
    PaidIsSum(o.payments);
    Sorting.SumIgnoresOrder(Cents, Listed(rows, id), Sorting.Image(AmountOf, o.payments));
  }

  // ---- All that can happen to an order ----

  datatype Event =
    | AddEvent(payments: seq<Payment>)
    | SplitEvent(lines: seq<Line>, payments: seq<Payment>)
    | RedeemEvent(balance: nat, rest: Option<Vouchers.Remainder>)
    | CancelItemEvent(item: nat)
    | CancelOrderEvent

  /** The order's side of a redemption: what is outstanding, as far as the voucher goes. */
  function Redeemed(o: Order, balance: nat, rest: Option<Vouchers.Remainder>): Option<Order> {
    var amount := Min(balance, Vouchers.Outstanding(o));
    if o.cancelled || amount == 0 || (rest.Some? <==> Vouchers.Outstanding(o) == amount) then None
    else if rest.Some? && rest.value.kind !in {CASH, CARD} then None
    else Some(Vouchers.Settled(o, amount, rest))
  }

  function Outcome(o: Order, e: Event): Option<Order> {
    match e
    case AddEvent(ps) => AddPayments(o, ps)
    case SplitEvent(lines, ps) => SplitPayment(o, lines, ps)
    case RedeemEvent(balance, rest) => Redeemed(o, balance, rest)
    case CancelItemEvent(item) => CancelItem(o, item)
    case CancelOrderEvent => CancelOrder(o)
  }

  function Next(o: Order, e: Event): Order {
    if Outcome(o, e).Some? then Outcome(o, e).value else o
  }

  function Run(o: Order, events: seq<Event>): Order
    decreases |events|
  {
    if events == [] then o else Run(Next(o, events[0]), events[1..])
  }

  // ---- What every run keeps ----

  predicate NothingLeft(items: seq<Item>) {
    forall i :: 0 <= i < |items| ==> items[i].cancelled
  }

  /** What the items that are left cost after the deposit refund. */
  function Due(items: seq<Item>, refund: nat): nat {
    if Remaining(items) >= refund then Remaining(items) - refund else 0
  }

  /** No refunds among the payments, and the total is due unless the order was cancelled as a whole. */
  ghost predicate Kept(o: Order) {
    && (forall i :: 0 <= i < |o.payments| ==> o.payments[i].kind != REFUND)
    && (o.total == Due(o.items, o.refund) || NothingLeft(o.items))
  }

  lemma {:induction false} RemainingFalls(items: seq<Item>, k: nat)
    requires k < |items|
    ensures Remaining(items[k := items[k].(cancelled := true)]) <= Remaining(items)
    decreases |items|
  {
    var items' := items[k := items[k].(cancelled := true)];
    if k == 0 {
      assert items'[1..] == items[1..];
    } else {
      assert items'[1..] == items[1..][k - 1 := items[1..][k - 1].(cancelled := true)];
      RemainingFalls(items[1..], k - 1);
    }
  }

  lemma {:induction false} RemainingIgnoresPaid(a: seq<Item>, b: seq<Item>)
    requires |a| == |b| && forall i :: 0 <= i < |a| ==> a[i].unit == b[i].unit && a[i].quantity == b[i].quantity && a[i].cancelled == b[i].cancelled
    ensures Remaining(a) == Remaining(b)
    decreases |a|
  {
    if a != [] { RemainingIgnoresPaid(a[1..], b[1..]); }
  }

  lemma {:induction false} NothingLeftIsFree(items: seq<Item>)
    requires NothingLeft(items)
    ensures Remaining(items) == 0
  {
    if items != [] { NothingLeftIsFree(items[1..]); }
  }

  lemma {:induction false} NothingCancelled(items: seq<Item>)
    requires forall i :: 0 <= i < |items| ==> !items[i].cancelled
    ensures Remaining(items) == Gross(items)
  {
    if items != [] { NothingCancelled(items[1..]); }
  }

  lemma {:induction false} WithoutRefunds(ps: seq<Payment>)
    requires forall i :: 0 <= i < |ps| ==> ps[i].kind != REFUND
    ensures Vouchers.CompletedPaid(ps) == Paid(ps)
  {
    if ps != [] { WithoutRefunds(ps[1..]); }
  }

  lemma CreatedIsKept(items: seq<Item>, refund: nat, ps: seq<Payment>)
    requires Create(items, refund, ps).Some?
    ensures Kept(Create(items, refund, ps).value) && Fits(Create(items, refund, ps).value)
  {
    var o := Create(items, refund, ps).value;
    NothingCancelled(o.items);
    SameWorth(items, o.items, 0);
    WholeSums(items);
    WholeSums(o.items);
  }

  lemma SplitIsKept(o: Order, lines: seq<Line>, ps: seq<Payment>)
    requires Kept(o) && SplitPayment(o, lines, ps).Some?
    ensures Kept(SplitPayment(o, lines, ps).value)
  {
    RemainingIgnoresPaid(o.items, Marked(o.items, lines));
  }

  lemma NextIsKept(o: Order, e: Event)
    requires Kept(o)
    ensures Kept(Next(o, e))
  {
    if e.SplitEvent? && SplitPayment(o, e.lines, e.payments).Some? { SplitIsKept(o, e.lines, e.payments); }
  }

  // ---- Which operations break the rule ----

  /** Cancelling an item breaks it if what was paid then covers an order that is not marked as paid;
      a split, if it covers the last open units but not the total, or the total but not the last units. */
  predicate Breaks(o: Order, e: Event) {
    match e
    case CancelItemEvent(k) =>
      k < |o.items| && !o.items[k].cancelled && o.status != PAID
      && Paid(o.payments) >= Due(o.items[k := o.items[k].(cancelled := true)], o.refund)
    case SplitEvent(lines, ps) =>
      SplitPayment(o, lines, ps).Some?
      && (FullyPaid(Marked(o.items, lines)) != (Paid(o.payments) + SplitValue(o.items, lines, 0) >= o.total))
    case _ => false
  }

  lemma AddingFits(o: Order, ps: seq<Payment>)
    requires AddPayments(o, ps).Some?
    ensures Fits(AddPayments(o, ps).value)
  {
    PaidConcat(o.payments, ps);
  }

  lemma SplittingFits(o: Order, lines: seq<Line>, ps: seq<Payment>)
    requires SplitPayment(o, lines, ps).Some?
    ensures Fits(SplitPayment(o, lines, ps).value) <==> !Breaks(o, SplitEvent(lines, ps))
  {
    PaidConcat(o.payments, ps);
  }

  lemma RedeemingFits(o: Order, balance: nat, rest: Option<Vouchers.Remainder>)
    requires Kept(o) && Redeemed(o, balance, rest).Some?
    ensures Fits(Redeemed(o, balance, rest).value)
  {
    var amount := Min(balance, Vouchers.Outstanding(o));
    var open := Vouchers.Outstanding(o) - amount;
    WithoutRefunds(o.payments);
    var voucher, more := [Payment(amount, VOUCHER)], if rest.Some? then [Payment(open, rest.value.kind)] else [];
    PaidConcat(o.payments, voucher);
    PaidConcat(o.payments + voucher, more);
    assert voucher[1..] == [] && (rest.Some? ==> more[1..] == []);
  }

  lemma CancellingFits(o: Order, k: nat)
    requires Kept(o) && Fits(o) && CancelItem(o, k).Some?
    ensures Fits(CancelItem(o, k).value) <==> !Breaks(o, CancelItemEvent(k))
  {
    RemainingFalls(o.items, k);
  }

  /** From an order that meets the rule, each operation leads to one that meets it exactly if it does
      not break it. */
  lemma StepFitsExactly(o: Order, e: Event)
    requires Kept(o) && Fits(o)
    ensures Fits(Next(o, e)) <==> !Breaks(o, e)
  {
    if Outcome(o, e).Some? {
      match e
      case AddEvent(ps) => AddingFits(o, ps);
      case SplitEvent(lines, ps) => SplittingFits(o, lines, ps);
      case RedeemEvent(balance, rest) => RedeemingFits(o, balance, rest);
      case CancelItemEvent(k) => CancellingFits(o, k);
      case CancelOrderEvent =>
    }
  }

  predicate NothingBreaks(o: Order, events: seq<Event>)
    decreases |events|
  {
    events == [] || (!Breaks(o, events[0]) && NothingBreaks(Next(o, events[0]), events[1..]))
  }

  ghost predicate FitsThroughout(o: Order, events: seq<Event>) {
    forall n :: 0 <= n <= |events| ==> Fits(Run(o, events[..n]))
  }

  lemma ThroughoutUnfolds(o: Order, events: seq<Event>)
    requires events != []
    ensures FitsThroughout(o, events) <==> Fits(o) && FitsThroughout(Next(o, events[0]), events[1..])
  {
    forall n | 0 <= n < |events| ensures Run(o, events[..n + 1]) == Run(Next(o, events[0]), events[1..][..n]) {
      assert events[..n + 1][0] == events[0] && events[..n + 1][1..] == events[1..][..n];
    }
    assert Run(o, events[..0]) == o;
    if FitsThroughout(o, events) {
      forall n | 0 <= n <= |events[1..]| ensures Fits(Run(Next(o, events[0]), events[1..][..n])) {
        assert Fits(Run(o, events[..n + 1]));
      }
    }
    if Fits(o) && FitsThroughout(Next(o, events[0]), events[1..]) {
      forall n | 0 <= n <= |events| ensures Fits(Run(o, events[..n])) {
        if n > 0 { assert Fits(Run(Next(o, events[0]), events[1..][..n - 1])); }
      }
    }
  }

  lemma {:induction false} KeptRunsFit(o: Order, events: seq<Event>)
    requires Kept(o) && Fits(o)
    ensures FitsThroughout(o, events) <==> NothingBreaks(o, events)
    decreases |events|
  {
    if events == [] {
      assert events[..0] == [];
    } else {
      ThroughoutUnfolds(o, events);
      StepFitsExactly(o, events[0]);
      NextIsKept(o, events[0]);
      if Fits(Next(o, events[0])) { KeptRunsFit(Next(o, events[0]), events[1..]); }
      else { assert !Fits(Run(Next(o, events[0]), events[1..][..0])); }
    }
  }

  /** Whatever happens to an order, the checker accepts its status after every operation exactly if no
      cancelled item and no split on the way broke the rule. */
  lemma StatusFitsExactly(items: seq<Item>, refund: nat, ps: seq<Payment>, events: seq<Event>)
    requires Create(items, refund, ps).Some?
    ensures FitsThroughout(Create(items, refund, ps).value, events) <==> NothingBreaks(Create(items, refund, ps).value, events)
  {
    CreatedIsKept(items, refund, ps);
    KeptRunsFit(Create(items, refund, ps).value, events);
  }

  // ---- Which orders are safe ----

  /** A paid order stays paid and stays covered. */
  lemma {:induction false} PaidStaysFitting(o: Order, events: seq<Event>)
    requires Kept(o) && o.status == PAID && Paid(o.payments) >= o.total
    ensures Fits(Run(o, events))
    decreases |events|
  {
    if events != [] {
      NextIsKept(o, events[0]);
      WithoutRefunds(o.payments);
      if events[0].CancelItemEvent? && events[0].item < |o.items| { RemainingFalls(o.items, events[0].item); }
      PaidStaysFitting(Next(o, events[0]), events[1..]);
    }
  }

  /** Cancelling the items one after the other. */
  function Emptying(k: nat, n: nat): seq<Event>
    requires k <= n
    decreases n - k
  {
    if k == n then [] else [CancelItemEvent(k)] + Emptying(k + 1, n)
  }

  lemma {:induction false} EmptiedOwesNothing(o: Order, k: nat)
    requires k <= |o.items| && forall i :: 0 <= i < |o.items| ==> (o.items[i].cancelled <==> i < k)
    requires k == |o.items| ==> o.total == 0
    ensures var o' := Run(o, Emptying(k, |o.items|)); o'.total == 0 && o'.status == o.status
    decreases |o.items| - k
  {
    if k < |o.items| {
      var events, n := Emptying(k, |o.items|), |o.items|;
      var next := Next(o, events[0]);
      assert events[0] == CancelItemEvent(k) && events[1..] == Emptying(k + 1, n);
      assert next.items == o.items[k := o.items[k].(cancelled := true)];
      if k + 1 == n { NothingLeftIsFree(next.items); }
      EmptiedOwesNothing(next, k + 1);
    }
  }

  /** Only an order that is paid when it is created is safe: any other becomes one that the checker
      rejects when its items are cancelled one by one, for then it is open and owes nothing. */
  lemma OnlyPaidOrdersAlwaysFit(items: seq<Item>, refund: nat, ps: seq<Payment>)
    requires Create(items, refund, ps).Some?
    ensures (forall events: seq<Event> :: Fits(Run(Create(items, refund, ps).value, events))) <==> Create(items, refund, ps).value.status == PAID
  {
    var o := Create(items, refund, ps).value;
    CreatedIsKept(items, refund, ps);
    if o.status == PAID {
      forall events: seq<Event> ensures Fits(Run(o, events)) { PaidStaysFitting(o, events); }
    } else {
      EmptiedOwesNothing(o, 0);
      assert !Fits(Run(o, Emptying(0, |o.items|)));
    }
  }
}
