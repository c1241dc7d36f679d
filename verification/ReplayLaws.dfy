/** What a sale charges, takes and gives back, told by its lines and the money on the counter. */
module ReplayLaws {
  import opened Common
  import opened Payments
  import opened Replay
  import Pricing
  import Sorting

  // ---- Lines ----

  /** A line that the catalog can price. */
  ghost predicate Offered(cat: Catalog, line: Wanted) {
    line.product in cat && Pricing.PriceItem(cat[line.product], line.options).Some?
  }

  ghost predicate PricedAs(cat: Catalog, line: Wanted, item: StoredItem) {
    && Offered(cat, line)
    && var priced := Pricing.PriceItem(cat[line.product], line.options).value;
       && item.product == line.product && item.quantity == line.quantity && item.price == priced.price
       && item.deposit == cat[line.product].deposit && item.variant == priced.variant && item.extras == priced.extras
  }

  /** Price and deposit, for each unit. */
  ghost function Charge(cat: Catalog): Wanted -> int {
    (line: Wanted) =>
      if line.product in cat && Pricing.PriceItem(cat[line.product], line.options).Some?
      then (Pricing.PriceItem(cat[line.product], line.options).value.price + cat[line.product].deposit) * line.quantity else 0
  }

  function QuantityOf(line: Wanted): int { line.quantity }

  lemma {:induction false} UnitsAreQuantities(lines: seq<Wanted>)
    ensures Units(lines) == Sorting.SumBy(QuantityOf, lines)
  {
    if lines != [] { UnitsAreQuantities(lines[1..]); }
  }

  lemma OfferedIsPriced(cat: Catalog, line: Wanted)
    ensures ItemOf(cat, line).Some? <==> Offered(cat, line)
    ensures Offered(cat, line) ==> PricedAs(cat, line, ItemOf(cat, line).value)
    ensures CostIn(cat)(line) == Charge(cat)(line)
  {
  }

  lemma AllAreOffered(cat: Catalog, lines: seq<Wanted>)
    ensures AllPriced(cat, lines) <==> forall line :: line in lines ==> Offered(cat, line)
  {
    forall i | 0 <= i < |lines| ensures ItemOf(cat, lines[i]).Some? <==> Offered(cat, lines[i]) { OfferedIsPriced(cat, lines[i]); }
    if forall line :: line in lines ==> Offered(cat, line) {
      forall i | 0 <= i < |lines| ensures ItemOf(cat, lines[i]).Some? { assert lines[i] in lines; }
    }
  }

  lemma {:induction false} ChargesAddUp(cat: Catalog, lines: seq<Wanted>)
    ensures Sorting.SumBy(CostIn(cat), lines) == Sorting.SumBy(Charge(cat), lines)
    decreases |lines|
  {
    if lines != [] {
      ChargesAddUp(cat, lines[1..]);
      OfferedIsPriced(cat, lines[0]);
    }
  }

  lemma GrossIsCharged(cat: Catalog, lines: seq<Wanted>)
    requires Items(cat, lines).Some?
    ensures GrossOf(Items(cat, lines).value) == Sorting.SumBy(Charge(cat), lines)
  {
    GrossIsSum(cat, lines);
    ChargesAddUp(cat, lines);
  }

  /** Lines are priced all or none, one item each, and cost what they charge. */
  lemma LinesArePriced(cat: Catalog, lines: seq<Wanted>)
    ensures Items(cat, lines).Some? <==> forall line :: line in lines ==> Offered(cat, line)
    ensures Items(cat, lines).Some? ==>
              var items := Items(cat, lines).value;
              && |items| == |lines| && (forall i :: 0 <= i < |lines| ==> PricedAs(cat, lines[i], items[i]))
              && GrossOf(items) == Sorting.SumBy(Charge(cat), lines)
  {
    PricedTogether(cat, lines);
    AllAreOffered(cat, lines);
    if Items(cat, lines).Some? {
      ItemsAt(cat, lines);
      GrossIsCharged(cat, lines);
      forall i | 0 <= i < |lines| ensures PricedAs(cat, lines[i], Items(cat, lines).value[i]) {
        assert ItemOf(cat, lines[i]) == Some(Items(cat, lines).value[i]);
        OfferedIsPriced(cat, lines[i]);
      }
    }
  }

  /** At most 50 lines and 100 units of what is offered, with at most 50 options each. */
  ghost predicate Orderable(cat: Catalog, lines: seq<Wanted>) {
    && |lines| <= 50 && Sorting.SumBy(QuantityOf, lines) <= 100
    && forall line :: line in lines ==> 1 <= line.quantity <= 100 && |line.options| <= 50 && Offered(cat, line)
  }

  lemma OrderableIsOk(cat: Catalog, lines: seq<Wanted>, mayBeEmpty: bool)
    ensures LinesOk(lines, mayBeEmpty) && Items(cat, lines).Some? <==> Orderable(cat, lines) && (lines != [] || mayBeEmpty)
  {
    UnitsAreQuantities(lines);
    LinesArePriced(cat, lines);
    if Orderable(cat, lines) {
      forall i | 0 <= i < |lines| ensures 1 <= lines[i].quantity <= 100 && |lines[i].options| <= 50 { assert lines[i] in lines; }
    }
  }

  // ---- Quick sales ----

  /** What the customer owes; below zero the till owes the customer. */
  ghost function Due(cat: Catalog, req: Request): int { Sorting.SumBy(Charge(cat), req.lines) - req.refund }

  ghost function Total(cat: Catalog, req: Request): int { if Due(cat, req) > 0 then Due(cat, req) else 0 }

  /** Cash that covers what is owed, or a card for exactly that; money is paid out in cash only. */
  ghost predicate MoneyFits(cat: Catalog, req: Request) {
    if req.kind == CASH then Total(cat, req) <= Or0(req.tendered) <= 2_147_483_647
    else req.kind == CARD && Due(cat, req) >= 0 && (req.tendered.Some? ==> req.tendered.value == Due(cat, req))
  }

  ghost function Handed(cat: Catalog, req: Request): int { if req.kind == CASH then Or0(req.tendered) else Total(cat, req) }

  lemma SoldExactly(cat: Catalog, req: Request, pickup: Option<nat>)
    ensures Sell(cat, req, pickup).Some?
            <==> Orderable(cat, req.lines) && (req.lines != [] || req.refund > 0)
                 && req.refund <= 2_147_483_647 && Due(cat, req) <= 2_147_483_647 && (Due(cat, req) > 0 || req.refund > 0)
                 && MoneyFits(cat, req) && (req.station.Some? ==> req.kind == CASH) && (req.station.Some? <==> pickup.Some?)
  {
    OrderableIsOk(cat, req.lines, req.refund > 0);
    LinesArePriced(cat, req.lines);
  }

  /** A sale takes what is owed and gives back the difference between what was handed over and that: as
      change, and as a payout where the deposit refund exceeds the goods. */
  lemma MoneyIsCounted(cat: Catalog, req: Request, pickup: Option<nat>)
    requires Sell(cat, req, pickup).Some?
    ensures var (stored, answer) := Sell(cat, req, pickup).value;
            answer.tendered == Handed(cat, req) && answer.change == Handed(cat, req) - Total(cat, req) && stored.total == Total(cat, req)
    ensures var (stored, answer) := Sell(cat, req, pickup).value;
            && |stored.payments| == (if Due(cat, req) < 0 then 2 else 1)
            && stored.payments[0] == StoredPayment(Total(cat, req), req.kind, if req.kind == CASH then Some(Handed(cat, req)) else None, answer.change)
            && (Due(cat, req) < 0 ==> stored.payments[1] == StoredPayment(0 - Due(cat, req), REFUND, None, 0))
  {
    GrossIsCharged(cat, req.lines);
  }

  /** What is remembered is what was asked for. */
  lemma SaleIsRemembered(cat: Catalog, req: Request, pickup: Option<nat>)
    requires Sell(cat, req, pickup).Some?
    ensures var (stored, answer) := Sell(cat, req, pickup).value;
            && stored.user == req.user && stored.event == req.event && stored.station == req.station && stored.refund == req.refund
            && stored.pickup == answer.pickup == pickup && stored.vouchers == answer.vouchers == Sorting.SumBy(QuantityOf, req.lines)
            && |stored.items| == |req.lines| && forall i :: 0 <= i < |req.lines| ==> PricedAs(cat, req.lines[i], stored.items[i])
  {
    LinesArePriced(cat, req.lines);
    UnitsAreQuantities(req.lines);
  }

  // ---- Table orders ----

  /** A table order is taken exactly if it can be priced, its payments are sound and the refund is covered by the goods. */
  lemma OrderIsTaken(cat: Catalog, req: OrderRequest)
    ensures PlaceOrder(cat, req).Some?
            <==> Orderable(cat, req.lines) && req.lines != [] && PaymentsOk(req.payments)
                 && req.refund <= Sorting.SumBy(Charge(cat), req.lines) <= 2_147_483_647
    ensures PlaceOrder(cat, req).Some? ==>
              var stored := PlaceOrder(cat, req).value;
              && stored.user == req.user && stored.event == req.event && stored.refund == req.refund && stored.payments == req.payments
              && |stored.items| == |req.lines| && forall i :: 0 <= i < |req.lines| ==> PricedAs(cat, req.lines[i], stored.items[i])
  {
    OrderableIsOk(cat, req.lines, false);
    LinesArePriced(cat, req.lines);
  }
}
