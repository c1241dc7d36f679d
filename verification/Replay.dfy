/**
 * Selling with an idempotency key: what a sale stores, and when a request that comes in again under
 * the same key is recognised as the same sale.
 */
module Replay {
  import opened Common
  import opened Payments
  import Pricing
  import Rows
  import Sorting

  datatype Wanted = Wanted(product: nat, quantity: nat, options: seq<nat>)

  datatype Request = Request(
    user: nat, event: nat, station: Option<nat>, lines: seq<Wanted>,
    kind: PaymentMethod, tendered: Option<nat>, refund: nat)

  datatype StoredItem = StoredItem(product: nat, quantity: nat, price: nat, deposit: nat, variant: Option<nat>, extras: seq<nat>)

  datatype StoredPayment = StoredPayment(amount: nat, kind: PaymentMethod, tendered: Option<nat>, change: nat)

  datatype Stored = Stored(
    user: nat, event: nat, station: Option<nat>, items: seq<StoredItem>, payments: seq<StoredPayment>,
    total: nat, refund: nat, vouchers: nat, pickup: Option<nat>)

  datatype Answer = Answer(tendered: nat, change: nat, vouchers: nat, pickup: Option<nat>)

  type Catalog = map<nat, Pricing.Product>

  // ---- Making a sale ----

  predicate LinesOk(lines: seq<Wanted>, mayBeEmpty: bool) {
    && (lines != [] || mayBeEmpty) && |lines| <= 50 && Units(lines) <= 100
    && forall i :: 0 <= i < |lines| ==> 1 <= lines[i].quantity <= 100 && |lines[i].options| <= 50
  }

  function Units(lines: seq<Wanted>): nat {
    if lines == [] then 0 else lines[0].quantity + Units(lines[1..])
  }

  function ItemOf(cat: Catalog, line: Wanted): Option<StoredItem> {
    if line.product !in cat then None
    else
      var p := cat[line.product];
      var priced := Pricing.PriceItem(p, line.options);
      if priced.None? then None
      else Some(StoredItem(line.product, line.quantity, PriceOf(priced.value), p.deposit, priced.value.variant, priced.value.extras))
  }

  function PriceOf(r: Pricing.Priced): nat { if r.price >= 0 then r.price else 0 }

  function Items(cat: Catalog, lines: seq<Wanted>): Option<seq<StoredItem>> {
    if lines == [] then Some([])
    else
      var first, rest := ItemOf(cat, lines[0]), Items(cat, lines[1..]);
      if first.None? || rest.None? then None else Some([first.value] + rest.value)
  }

  function GrossOf(items: seq<StoredItem>): nat {
    if items == [] then 0 else (items[0].price + items[0].deposit) * items[0].quantity + GrossOf(items[1..])
  }

  function Less(a: nat, b: nat): nat { if a >= b then a - b else 0 }

  /** A quick sale; pickup is the number that was drawn for it, at a station only. */
  function Sell(cat: Catalog, req: Request, pickup: Option<nat>): Option<(Stored, Answer)> {
    if !LinesOk(req.lines, req.refund > 0) || req.refund > MAX_CENTS || req.kind !in {CASH, CARD} then None
    else if (req.station.Some? && req.kind != CASH) || req.station.Some? != pickup.Some? || Items(cat, req.lines).None? then None
    else
      var items := Items(cat, req.lines).value;
      var total, payout := Less(GrossOf(items), req.refund), Less(req.refund, GrossOf(items));
      var tendered := if req.kind == CASH then (if req.tendered.Some? then req.tendered.value else 0) else total;
      if payout > 0 && req.kind != CASH then None
      else if (total == 0 && req.refund == 0) || total > MAX_CENTS then None
      else if req.kind == CASH && (tendered < total || tendered > MAX_CENTS) then None
      else if req.kind == CARD && req.tendered.Some? && req.tendered.value != total then None
      else
        var change := if req.kind == CASH then tendered - total else 0;
        var payments := [StoredPayment(total, req.kind, if req.kind == CASH then Some(tendered) else None, change)]
                        + if payout > 0 then [StoredPayment(payout, REFUND, None, 0)] else [];
        Some((Stored(req.user, req.event, req.station, items, payments, total, req.refund, Units(req.lines), pickup),
              Answer(tendered, change, Units(req.lines), pickup)))
  }

  // ---- Recognising a repetition ----

  function Leq(a: nat, b: nat): bool { a <= b }

  /** Product, quantity and the sorted option ids, as one comparable value. */
  function Signature(product: nat, quantity: nat, options: seq<nat>): seq<nat> {
    [product, quantity] + Sorting.Sort(options, Leq)
  }

  function Lexicographic(a: seq<nat>, b: seq<nat>): bool {
    a == [] || (b != [] && (a[0] < b[0] || (a[0] == b[0] && Lexicographic(a[1..], b[1..]))))
  }

  function StoredOptions(item: StoredItem): seq<nat> {
    (if item.variant.Some? then [item.variant.value] else []) + item.extras
  }

  function LineSignature(line: Wanted): seq<nat> { Signature(line.product, line.quantity, line.options) }

  function ItemSignature(item: StoredItem): seq<nat> { Signature(item.product, item.quantity, StoredOptions(item)) }

  function Requested(lines: seq<Wanted>): seq<seq<nat>> { Sorting.Image(LineSignature, lines) }

  function Remembered(items: seq<StoredItem>): seq<seq<nat>> { Sorting.Image(ItemSignature, items) }

  predicate SameItems(stored: Stored, lines: seq<Wanted>) {
    Sorting.Sort(Requested(lines), Lexicographic) == Sorting.Sort(Remembered(stored.items), Lexicographic)
  }

  function FirstOf(ps: seq<StoredPayment>, kind: PaymentMethod): Option<StoredPayment> {
    if ps == [] then None else if ps[0].kind == kind then Some(ps[0]) else FirstOf(ps[1..], kind)
  }

  function Or0(n: Option<nat>): nat { if n.Some? then n.value else 0 }

  /** The stored sale as an answer to a repeated request, or a refusal. */
  function ResolveIdempotent(stored: Stored, req: Request): Option<Answer> {
    var payment, refundPayment := FirstOf(stored.payments, req.kind), FirstOf(stored.payments, REFUND);
    var payout := if stored.total > 0 then 0 else Less(stored.refund, GrossOf(stored.items));
    var sameTendered := if req.kind == CASH then (if payment.Some? then Or0(payment.value.tendered) else 0) == Or0(req.tendered)
                        else req.tendered.None? || req.tendered.value == stored.total;
    if stored.user != req.user || stored.event != req.event
       || (stored.items != [] && stored.vouchers == 0)
       || |stored.payments| != (if payout > 0 then 2 else 1)
       || payment.None?
       || (if refundPayment.Some? then refundPayment.value.amount else 0) != payout
       || !sameTendered || stored.refund != req.refund
       || !SameItems(stored, req.lines)
       || stored.station != req.station || (req.station.Some? && stored.pickup.None?)
    then None
    else
      Some(Answer(if Or0(payment.value.tendered) > 0 then Or0(payment.value.tendered) else stored.total,
                  payment.value.change, stored.vouchers, stored.pickup))
  }

  // ---- The comparison value is faithful ----

  lemma {:induction false} LexicographicIsTotal(a: seq<nat>, b: seq<nat>)
    ensures Lexicographic(a, b) || Lexicographic(b, a)
    ensures Lexicographic(a, b) && Lexicographic(b, a) ==> a == b
    decreases |a|
  {
    if a != [] && b != [] {
      LexicographicIsTotal(a[1..], b[1..]);
      assert a == [a[0]] + a[1..] && b == [b[0]] + b[1..];
    }
  }

  lemma {:induction false} LexicographicIsTransitive(a: seq<nat>, b: seq<nat>, c: seq<nat>)
    requires Lexicographic(a, b) && Lexicographic(b, c)
    ensures Lexicographic(a, c)
    decreases |a|
  {
    if a != [] && a[0] == b[0] == c[0] { LexicographicIsTransitive(a[1..], b[1..], c[1..]); }
  }

  lemma LexicographicIsOrder(s: seq<seq<nat>>)
    ensures Sorting.IsOrder(Lexicographic) && Sorting.Separates(s, Lexicographic)
  {
    forall a, b ensures Lexicographic(a, b) || Lexicographic(b, a) { LexicographicIsTotal(a, b); }
    forall a, b, c | Lexicographic(a, b) && Lexicographic(b, c) ensures Lexicographic(a, c) { LexicographicIsTransitive(a, b, c); }
    forall a, b | a in multiset(s) && b in multiset(s) && Lexicographic(a, b) && Lexicographic(b, a) ensures a == b { LexicographicIsTotal(a, b); }
  }

  lemma LeqIsOrder(s: seq<nat>)
    ensures Sorting.IsOrder(Leq) && Sorting.Separates(s, Leq)
  {
  }

  /** Two signatures agree exactly for the same product and quantity and the same set of options. */
  lemma SignatureIsFaithful(p: nat, q: nat, a: seq<nat>, p': nat, q': nat, b: seq<nat>)
    ensures Signature(p, q, a) == Signature(p', q', b) <==> p == p' && q == q' && multiset(a) == multiset(b)
  {
    LeqIsOrder(a);
    assert Signature(p, q, a)[2..] == Sorting.Sort(a, Leq) && Signature(p', q', b)[2..] == Sorting.Sort(b, Leq);
    if multiset(a) == multiset(b) { Sorting.SortForgetsOrder(a, b, Leq); }
    if Sorting.Sort(a, Leq) == Sorting.Sort(b, Leq) { Sorting.SortSameMeansSameElements(a, b, Leq); }
    if Signature(p, q, a) == Signature(p', q', b) {
      assert Signature(p, q, a)[0] == p && Signature(p', q', b)[0] == p' && Signature(p, q, a)[1] == q && Signature(p', q', b)[1] == q';
    }
  }

  lemma SameItemsMeansSameSignatures(stored: Stored, lines: seq<Wanted>)
    ensures SameItems(stored, lines) <==> multiset(Requested(lines)) == multiset(Remembered(stored.items))
  {
    LexicographicIsOrder(Requested(lines));
    if SameItems(stored, lines) {
      Sorting.SortSameMeansSameElements(Requested(lines), Remembered(stored.items), Lexicographic);
    }
    if multiset(Requested(lines)) == multiset(Remembered(stored.items)) {
      Sorting.SortForgetsOrder(Requested(lines), Remembered(stored.items), Lexicographic);
    }
  }

  // ---- What a sale stores of its lines ----

  /** Answers that set a price, for a line of the catalog. */
  function PriceAnswers(cat: Catalog, line: Wanted): nat {
    if line.product in cat then |Pricing.Absolutes(cat[line.product], line.options)| else 0
  }

  predicate OnePriceEach(cat: Catalog, lines: seq<Wanted>) {
    forall i :: 0 <= i < |lines| ==> PriceAnswers(cat, lines[i]) <= 1
  }

  lemma {:induction false} ItemsAt(cat: Catalog, lines: seq<Wanted>)
    requires Items(cat, lines).Some?
    ensures |Items(cat, lines).value| == |lines|
    ensures forall i :: 0 <= i < |lines| ==> ItemOf(cat, lines[i]) == Some(Items(cat, lines).value[i])
    decreases |lines|
  {
    if lines != [] { ItemsAt(cat, lines[1..]); }
  }

  lemma SignatureKept(cat: Catalog, line: Wanted)
    requires ItemOf(cat, line).Some?
    ensures var item := ItemOf(cat, line).value;
            var kept, asked := Signature(item.product, item.quantity, StoredOptions(item)), Signature(line.product, line.quantity, line.options);
            && |kept| <= |asked|
            && (PriceAnswers(cat, line) <= 1 ==> kept == asked)
            && (PriceAnswers(cat, line) > 1 ==> |kept| < |asked|)
  {
    var item := ItemOf(cat, line).value;
    Pricing.StoredIdsAreChosen(cat[line.product], line.options);
    SignatureIsFaithful(item.product, item.quantity, StoredOptions(item), line.product, line.quantity, line.options);
    LeqIsOrder(line.options);
    Sorting.SortSorts(StoredOptions(item), Leq);
    Sorting.SortSorts(line.options, Leq);
    assert |multiset(StoredOptions(item))| == |StoredOptions(item)| && |multiset(line.options)| == |line.options|;
    assert |multiset(Sorting.Sort(StoredOptions(item), Leq))| == |Sorting.Sort(StoredOptions(item), Leq)|;
    assert |multiset(Sorting.Sort(line.options, Leq))| == |Sorting.Sort(line.options, Leq)|;
  }

  function Length(s: seq<nat>): int { |s| }

  lemma {:induction false} ShorterSum(a: seq<seq<nat>>, b: seq<seq<nat>>)
    requires |a| == |b| && forall i :: 0 <= i < |a| ==> |a[i]| <= |b[i]|
    ensures Sorting.SumBy(Length, a) <= Sorting.SumBy(Length, b)
    ensures (exists i :: 0 <= i < |a| && |a[i]| < |b[i]|) ==> Sorting.SumBy(Length, a) < Sorting.SumBy(Length, b)
    decreases |a|
  {
    if a != [] {
      ShorterSum(a[1..], b[1..]);
      if i :| 0 <= i < |a| && |a[i]| < |b[i]| {
        if i > 0 { assert |a[1..][i - 1]| < |b[1..][i - 1]|; }
      }
    }
  }

  lemma LineSignatures(cat: Catalog, lines: seq<Wanted>)
    requires Items(cat, lines).Some?
    ensures var kept, asked := Remembered(Items(cat, lines).value), Requested(lines);
            && |kept| == |asked| == |lines|
            && forall i :: 0 <= i < |lines| ==>
                 |kept[i]| <= |asked[i]|
                 && (if PriceAnswers(cat, lines[i]) <= 1 then kept[i] == asked[i] else |kept[i]| < |asked[i]|)
  {
    ItemsAt(cat, lines);
    var kept, asked := Remembered(Items(cat, lines).value), Requested(lines);
    forall i | 0 <= i < |lines|
      ensures |kept[i]| <= |asked[i]|
      ensures if PriceAnswers(cat, lines[i]) <= 1 then kept[i] == asked[i] else |kept[i]| < |asked[i]|
    {
      SignatureKept(cat, lines[i]);
      assert kept[i] == ItemSignature(Items(cat, lines).value[i]) && asked[i] == LineSignature(lines[i]);
    }
  }

  /** A sale recognises its own lines exactly when no line answers two price-setting groups. */
  lemma OwnLinesRecognised(cat: Catalog, req: Request, pickup: Option<nat>)
    requires Sell(cat, req, pickup).Some?
    ensures SameItems(Sell(cat, req, pickup).value.0, req.lines) <==> OnePriceEach(cat, req.lines)
    ensures OnePriceEach(cat, req.lines) ==> Remembered(Sell(cat, req, pickup).value.0.items) == Requested(req.lines)
  {
    var stored := Sell(cat, req, pickup).value.0;
    assert stored.items == Items(cat, req.lines).value;
    LineSignatures(cat, req.lines);
    SameItemsMeansSameSignatures(stored, req.lines);
    var kept, asked := Remembered(stored.items), Requested(req.lines);
    if OnePriceEach(cat, req.lines) {
      assert kept == asked;
    } else {
      var i :| 0 <= i < |req.lines| && PriceAnswers(cat, req.lines[i]) > 1;
      FewerSignatures(kept, asked, i);
    }
  }

  lemma FewerSignatures(kept: seq<seq<nat>>, asked: seq<seq<nat>>, i: nat)
    requires |kept| == |asked| && i < |kept| && |kept[i]| < |asked[i]|
    requires forall j :: 0 <= j < |kept| ==> |kept[j]| <= |asked[j]|
    ensures multiset(kept) != multiset(asked)
  {
    ShorterSum(kept, asked);
    if multiset(kept) == multiset(asked) { Sorting.SumIgnoresOrder(Length, kept, asked); }
  }

  // ---- Main results ----

  /** What a line asks for, regardless of the order of its options. */
  datatype Shape = Shape(product: nat, quantity: nat, options: multiset<nat>)

  function ShapeOf(line: Wanted): Shape { Shape(line.product, line.quantity, multiset(line.options)) }

  /** The same lines up to the order of lines and of the options within a line. */
  predicate SameSelection(a: seq<Wanted>, b: seq<Wanted>) {
    multiset(Sorting.Image(ShapeOf, a)) == multiset(Sorting.Image(ShapeOf, b))
  }

  lemma SameSelectionIsSameSignatures(a: seq<Wanted>, b: seq<Wanted>)
    ensures SameSelection(a, b) <==> multiset(Requested(a)) == multiset(Requested(b))
  {
    forall x, y ensures LineSignature(x) == LineSignature(y) <==> ShapeOf(x) == ShapeOf(y) {
      SignatureIsFaithful(x.product, x.quantity, x.options, y.product, y.quantity, y.options);
    }
    if SameSelection(a, b) { Sorting.ImagesMoveTogether(ShapeOf, LineSignature, a, b); }
    if multiset(Requested(a)) == multiset(Requested(b)) { Sorting.ImagesMoveTogether(LineSignature, ShapeOf, a, b); }
  }

  /** Right after a sale, a request is answered from it exactly when it asks for the same selection
      by the same user at the same place with the same money, and the answer is the first answer. */
  lemma ReplayRoundTrip(cat: Catalog, req: Request, pickup: Option<nat>, again: Request)
    requires Sell(cat, req, pickup).Some? && OnePriceEach(cat, req.lines)
    requires again.kind in {CASH, CARD}
    ensures var (stored, answer) := Sell(cat, req, pickup).value;
            var same := again.user == req.user && again.event == req.event && again.station == req.station
                        && again.kind == req.kind && again.refund == req.refund
                        && (if req.kind == CASH then Or0(again.tendered) == Or0(req.tendered)
                            else again.tendered.None? || again.tendered.value == stored.total)
                        && SameSelection(again.lines, req.lines);
            ResolveIdempotent(stored, again) == if same then Some(answer) else None
  {
    var (stored, answer) := Sell(cat, req, pickup).value;
    OwnLinesRecognised(cat, req, pickup);
    SameItemsMeansSameSignatures(stored, again.lines);
    SameSelectionIsSameSignatures(again.lines, req.lines);
    ItemsAt(cat, req.lines);
    VouchersIssued(req.lines);
    PaymentsFound(cat, req, pickup);
  }

  lemma VouchersIssued(lines: seq<Wanted>)
    requires forall i :: 0 <= i < |lines| ==> lines[i].quantity >= 1
    ensures lines != [] ==> Units(lines) > 0
  {
  }

  lemma PaymentsFound(cat: Catalog, req: Request, pickup: Option<nat>)
    requires Sell(cat, req, pickup).Some?
    ensures var stored := Sell(cat, req, pickup).value.0;
            var payout := Less(req.refund, GrossOf(stored.items));
            && FirstOf(stored.payments, req.kind) == Some(stored.payments[0])
            && (forall kind :: kind in {CASH, CARD} && kind != req.kind ==> FirstOf(stored.payments, kind).None?)
            && FirstOf(stored.payments, REFUND) == (if payout > 0 then Some(StoredPayment(payout, REFUND, None, 0)) else None)
            && (payout > 0 ==> stored.total == 0)
            && |stored.payments| == if payout > 0 then 2 else 1
  {
    var stored := Sell(cat, req, pickup).value.0;
    var payout := Less(req.refund, GrossOf(stored.items));
    var rest := if payout > 0 then [StoredPayment(payout, REFUND, None, 0)] else [];
    assert stored.payments[1..] == rest;
    if payout > 0 { assert rest[1..] == []; }
    forall kind | kind in {CASH, CARD} && kind != req.kind ensures FirstOf(stored.payments, kind).None? {
      assert FirstOf(stored.payments, kind) == FirstOf(rest, kind);
      assert FirstOf(rest, kind) == FirstOf([], kind);
    }
  }

  function CostIn(cat: Catalog): Wanted -> int {
    (line: Wanted) => if ItemOf(cat, line).Some? then (ItemOf(cat, line).value.price + ItemOf(cat, line).value.deposit) * line.quantity else 0
  }

  predicate AllPriced(cat: Catalog, lines: seq<Wanted>) {
    forall i :: 0 <= i < |lines| ==> ItemOf(cat, lines[i]).Some?
  }

  lemma {:induction false} PricedTogether(cat: Catalog, lines: seq<Wanted>)
    ensures Items(cat, lines).Some? <==> AllPriced(cat, lines)
    decreases |lines|
  {
    if lines != [] {
      PricedTogether(cat, lines[1..]);
      if AllPriced(cat, lines) {
        forall i | 0 <= i < |lines[1..]| ensures ItemOf(cat, lines[1..][i]).Some? { assert lines[1..][i] == lines[i + 1]; }
      }
    }
  }

  lemma {:induction false} GrossIsSum(cat: Catalog, lines: seq<Wanted>)
    requires Items(cat, lines).Some?
    ensures GrossOf(Items(cat, lines).value) == Sorting.SumBy(CostIn(cat), lines)
    decreases |lines|
  {
    if lines != [] {
      GrossIsSum(cat, lines[1..]);
      var rest := Items(cat, lines[1..]).value;
      assert ([ItemOf(cat, lines[0]).value] + rest)[1..] == rest;
    }
  }

  lemma LineCostsTheSame(cat: Catalog, a: Wanted, b: Wanted)
    requires Signature(a.product, a.quantity, a.options) == Signature(b.product, b.quantity, b.options)
    requires ItemOf(cat, a).Some? && PriceAnswers(cat, a) <= 1
    ensures ItemOf(cat, b).Some? && PriceAnswers(cat, b) <= 1 && CostIn(cat)(b) == CostIn(cat)(a)
  {
    SignatureIsFaithful(a.product, a.quantity, a.options, b.product, b.quantity, b.options);
    Pricing.PricingIgnoresOrder(cat[a.product], a.options, b.options);
  }

  lemma {:induction false} RearrangedLinesCostTheSame(cat: Catalog, a: seq<Wanted>, b: seq<Wanted>)
    requires SameSelection(a, b) && AllPriced(cat, a) && OnePriceEach(cat, a)
    ensures AllPriced(cat, b) && OnePriceEach(cat, b)
    ensures Sorting.SumBy(CostIn(cat), b) == Sorting.SumBy(CostIn(cat), a)
    decreases |a|
  {
    if a == [] {
      NothingRequested(b);
    } else {
      var i := PairedLine(a, b);
      var rest := b[..i] + b[i + 1..];
      RearrangedLinesCostTheSame(cat, a[1..], rest);
      LineCostsTheSame(cat, a[0], b[i]);
      PutBack(cat, b, i);
    }
  }

  lemma NothingRequested(b: seq<Wanted>)
    requires SameSelection([], b)
    ensures b == []
  {
    var shapes := Sorting.Image(ShapeOf, b);
    assert Sorting.Image(ShapeOf, []) == [];
    assert |shapes| == |multiset(shapes)| == 0;
  }

  lemma PairedLine(a: seq<Wanted>, b: seq<Wanted>) returns (i: nat)
    requires SameSelection(a, b) && a != []
    ensures i < |b| && SameSelection(a[1..], b[..i] + b[i + 1..])
    ensures Signature(a[0].product, a[0].quantity, a[0].options) == Signature(b[i].product, b[i].quantity, b[i].options)
  {
    SameSelectionIsSameSignatures(a, b);
    i := Sorting.Without(Requested(a), Requested(b));
    assert Requested(a)[0] == LineSignature(a[0]) && Requested(b)[i] == LineSignature(b[i]);
    assert Requested(a)[1..] == Requested(a[1..]);
    Sorting.ImageWithout(LineSignature, b, i);
    SameSelectionIsSameSignatures(a[1..], b[..i] + b[i + 1..]);
  }

  lemma PutBack(cat: Catalog, b: seq<Wanted>, i: nat)
    requires i < |b| && AllPriced(cat, b[..i] + b[i + 1..]) && OnePriceEach(cat, b[..i] + b[i + 1..])
    requires ItemOf(cat, b[i]).Some? && PriceAnswers(cat, b[i]) <= 1
    ensures AllPriced(cat, b) && OnePriceEach(cat, b)
    ensures Sorting.SumBy(CostIn(cat), b) == Sorting.SumBy(CostIn(cat), b[..i] + b[i + 1..]) + CostIn(cat)(b[i])
  {
    var rest := b[..i] + b[i + 1..];
    Sorting.SumConcat(CostIn(cat), b[..i], b[i + 1..]);
    Sorting.SumConcat(CostIn(cat), b[..i], b[i..]);
    assert b == b[..i] + b[i..] && b[i..][1..] == b[i + 1..];
    forall j | 0 <= j < |b| ensures ItemOf(cat, b[j]).Some? && PriceAnswers(cat, b[j]) <= 1 {
      if j < i { assert rest[j] == b[j]; } else if j > i { assert rest[j - 1] == b[j]; }
    }
  }

  /** A request whose lines are rearranged is priced alike, so it would also have been the same sale. */
  lemma RearrangedSelectionCostsTheSame(cat: Catalog, a: seq<Wanted>, b: seq<Wanted>)
    requires SameSelection(a, b) && Items(cat, a).Some? && OnePriceEach(cat, a)
    ensures Items(cat, b).Some? && OnePriceEach(cat, b)
    ensures GrossOf(Items(cat, b).value) == GrossOf(Items(cat, a).value)
  {
    PricedTogether(cat, a);
    PricedTogether(cat, b);
    RearrangedLinesCostTheSame(cat, a, b);
    GrossIsSum(cat, a);
    GrossIsSum(cat, b);
  }

  /** Where at most one answer sets the price of a product, every sale can be repeated safely. */
  lemma OnePriceCatalogsReplay(cat: Catalog, req: Request, pickup: Option<nat>)
    requires Sell(cat, req, pickup).Some?
    requires forall p :: p in cat ==> Pricing.OneAnswerSetsPrice(cat[p])
    ensures var (stored, answer) := Sell(cat, req, pickup).value; ResolveIdempotent(stored, req) == Some(answer)
  {
    ItemsAt(cat, req.lines);
    forall i | 0 <= i < |req.lines| ensures PriceAnswers(cat, req.lines[i]) <= 1 {
      assert ItemOf(cat, req.lines[i]).Some?;
      Pricing.SoundProductsLoseNothing(cat[req.lines[i].product], req.lines[i].options);
    }
    ReplayRoundTrip(cat, req, pickup, req);
  }

  // ---- Table orders ----

  datatype OrderRequest = OrderRequest(user: nat, event: nat, lines: seq<Wanted>, refund: nat, payments: seq<Payment>)

  datatype StoredOrder = StoredOrder(user: nat, event: nat, items: seq<StoredItem>, refund: nat, payments: seq<Payment>)

  function PaymentSignature(p: Payment): seq<nat> {
    [p.amount, match p.kind case CASH => 0 case CARD => 1 case VOUCHER => 2 case REFUND => 3]
  }

  function PlaceOrder(cat: Catalog, req: OrderRequest): Option<StoredOrder> {
    if !LinesOk(req.lines, false) || !PaymentsOk(req.payments) || Items(cat, req.lines).None? then None
    else if GrossOf(Items(cat, req.lines).value) > MAX_CENTS || req.refund > GrossOf(Items(cat, req.lines).value) then None
    else Some(StoredOrder(req.user, req.event, Items(cat, req.lines).value, req.refund, req.payments))
  }

  function SamePayments(a: seq<Payment>, b: seq<Payment>): bool {
    Sorting.Sort(Sorting.Image(PaymentSignature, a), Lexicographic) == Sorting.Sort(Sorting.Image(PaymentSignature, b), Lexicographic)
  }

  function RecognisesOrder(stored: StoredOrder, req: OrderRequest): bool {
    && stored.user == req.user && stored.event == req.event && stored.refund == req.refund
    && Sorting.Sort(Requested(req.lines), Lexicographic) == Sorting.Sort(Remembered(stored.items), Lexicographic)
    && SamePayments(req.payments, stored.payments)
  }

  lemma SamePaymentsMeansRearranged(a: seq<Payment>, b: seq<Payment>)
    ensures SamePayments(a, b) <==> multiset(a) == multiset(b)
  {
    var x, y := Sorting.Image(PaymentSignature, a), Sorting.Image(PaymentSignature, b);
    LexicographicIsOrder(x);
    var self := (p: Payment) => p;
    assert Sorting.Image(self, a) == a && Sorting.Image(self, b) == b;
    forall p, q: Payment | PaymentSignature(p) == PaymentSignature(q) ensures p == q {
      assert PaymentSignature(p)[0] == PaymentSignature(q)[0] && PaymentSignature(p)[1] == PaymentSignature(q)[1];
    }
    if SamePayments(a, b) {
      Sorting.SortSameMeansSameElements(x, y, Lexicographic);
      Sorting.ImagesMoveTogether(PaymentSignature, self, a, b);
    }
    if multiset(a) == multiset(b) {
      Sorting.ImagesMoveTogether(self, PaymentSignature, a, b);
      Sorting.SortForgetsOrder(x, y, Lexicographic);
    }
  }

  /** A table order recognises its own repetition exactly when no line answers two price-setting groups. */
  lemma OwnOrderRecognised(cat: Catalog, req: OrderRequest)
    requires PlaceOrder(cat, req).Some?
    ensures RecognisesOrder(PlaceOrder(cat, req).value, req) <==> OnePriceEach(cat, req.lines)
  {
    var stored := PlaceOrder(cat, req).value;
    var kept, asked := Remembered(stored.items), Requested(req.lines);
    LineSignatures(cat, req.lines);
    if OnePriceEach(cat, req.lines) {
      assert kept == asked;
    } else {
      var i :| 0 <= i < |req.lines| && PriceAnswers(cat, req.lines[i]) > 1;
      FewerSignatures(kept, asked, i);
      LexicographicIsOrder(asked);
      if Sorting.Sort(asked, Lexicographic) == Sorting.Sort(kept, Lexicographic) {
        Sorting.SortSameMeansSameElements(asked, kept, Lexicographic);
      }
    }
  }

  /** Right after an order was placed, a request under its key is recognised exactly when user, event
      and refund agree and items and payments are rearrangements. */
  lemma OrderReplayRoundTrip(cat: Catalog, req: OrderRequest, again: OrderRequest)
    requires PlaceOrder(cat, req).Some? && OnePriceEach(cat, req.lines)
    ensures RecognisesOrder(PlaceOrder(cat, req).value, again)
            <==> again.user == req.user && again.event == req.event && again.refund == req.refund
                 && SameSelection(again.lines, req.lines) && multiset(again.payments) == multiset(req.payments)
  {
    var stored := PlaceOrder(cat, req).value;
    LineSignatures(cat, req.lines);
    assert Remembered(stored.items) == Requested(req.lines);
    LexicographicIsOrder(Requested(again.lines));
    SameSelectionIsSameSignatures(again.lines, req.lines);
    if multiset(Requested(again.lines)) == multiset(Requested(req.lines)) {
      Sorting.SortForgetsOrder(Requested(again.lines), Requested(req.lines), Lexicographic);
    }
    if Sorting.Sort(Requested(again.lines), Lexicographic) == Sorting.Sort(Requested(req.lines), Lexicographic) {
      Sorting.SortSameMeansSameElements(Requested(again.lines), Requested(req.lines), Lexicographic);
    }
    SamePaymentsMeansRearranged(again.payments, req.payments);
  }
}
