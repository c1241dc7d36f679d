/** The price of one order item: its product, the chosen option ids, and what is stored of the choice. */
module Pricing {
  import opened Common
  import Rows
  import Sorting

  type OptionId = nat

  datatype Choice = Choice(id: OptionId, effect: int, active: bool)

  datatype Group = Group(minSelect: nat, maxSelect: Option<nat>, absolute: bool, options: seq<Choice>)

  datatype Product = Product(id: nat, price: int, deposit: nat, groups: seq<Group>)

  datatype Hit = Hit(group: nat, option: Choice)

  datatype Entry = Entry(group: nat, ids: seq<OptionId>)

  datatype Priced = Priced(price: int, variant: Option<OptionId>, extras: seq<OptionId>)

  // ---- Looking options up ----

  function FindIn(options: seq<Choice>, id: OptionId): Option<Choice> {
    if options == [] then None
    else if options[0].id == id then Some(options[0])
    else FindIn(options[1..], id)
  }

  function Find(groups: seq<Group>, id: OptionId): (hit: Option<Hit>)
    ensures hit.Some? ==> hit.value.group < |groups|
    decreases |groups|
  {
    if groups == [] then None
    else
      var last := |groups| - 1;
      var found := FindIn(groups[last].options, id);
      if found.Some? then Some(Hit(last, found.value)) else Find(groups[..last], id)
  }

  predicate Known(p: Product, id: OptionId) {
    Find(p.groups, id).Some? && Find(p.groups, id).value.option.active
  }

  function GroupOf(p: Product, id: OptionId): nat {
    if Find(p.groups, id).Some? then Find(p.groups, id).value.group else 0
  }

  function Effect(p: Product, id: OptionId): int {
    if Find(p.groups, id).Some? then Find(p.groups, id).value.option.effect else 0
  }

  predicate SetsPrice(p: Product, id: OptionId) {
    GroupOf(p, id) < |p.groups| && p.groups[GroupOf(p, id)].absolute
  }

  // ---- Grouping the selection ----

  /** Options are collected per group, groups in the order in which they are first met. */
  function Put(entries: seq<Entry>, group: nat, id: OptionId): seq<Entry> {
    if entries == [] then [Entry(group, [id])]
    else if entries[0].group == group then [Entry(group, entries[0].ids + [id])] + entries[1..]
    else [entries[0]] + Put(entries[1..], group, id)
  }

  function Collected(p: Product, ids: seq<OptionId>): seq<Entry> {
    if ids == [] then []
    else var last := |ids| - 1; Put(Collected(p, ids[..last]), GroupOf(p, ids[last]), ids[last])
  }

  function CountOf(entries: seq<Entry>, group: nat): nat {
    if entries == [] then 0
    else if entries[0].group == group then |entries[0].ids|
    else CountOf(entries[1..], group)
  }

  predicate SelectionOk(p: Product, ids: seq<OptionId>) {
    && (forall i, j :: 0 <= i < j < |ids| ==> ids[i] != ids[j])
    && (forall i :: 0 <= i < |ids| ==> Known(p, ids[i]))
    && (forall g :: 0 <= g < |p.groups| ==> CountFits(p.groups[g], CountOf(Collected(p, ids), g)))
  }

  predicate CountFits(g: Group, n: nat) {
    g.minSelect <= n && (g.maxSelect.Some? ==> n <= g.maxSelect.value)
  }

  predicate IsAbsolute(p: Product, e: Entry) { e.group < |p.groups| && p.groups[e.group].absolute }

  /** The last price-setting group wins, with the option chosen first in it. */
  function VariantOf(p: Product, entries: seq<Entry>): Option<OptionId> {
    if entries == [] then None
    else if VariantOf(p, entries[1..]).Some? then VariantOf(p, entries[1..])
    else if IsAbsolute(p, entries[0]) && entries[0].ids != [] then Some(entries[0].ids[0])
    else None
  }

  /** The options of the groups that set the price, and of those that add to it. */
  function Part(p: Product, entries: seq<Entry>, absolute: bool): seq<OptionId> {
    if entries == [] then []
    else if IsAbsolute(p, entries[0]) == absolute then entries[0].ids + Part(p, entries[1..], absolute)
    else Part(p, entries[1..], absolute)
  }

  function EffectIn(p: Product): OptionId -> int { (id: OptionId) => Effect(p, id) }

  function PriceItem(p: Product, ids: seq<OptionId>): Option<Priced> {
    if !SelectionOk(p, ids) then None
    else
      var entries := Collected(p, ids);
      var variant, extras := VariantOf(p, entries), Part(p, entries, false);
      var price := (if variant.Some? then Effect(p, variant.value) else p.price) + Sorting.SumBy(EffectIn(p), extras);
      if price < 0 then None else Some(Priced(price, variant, extras))
  }

  method CheckIds(p: Product, ids: seq<OptionId>) returns (ok: bool)
    ensures ok <==> (forall i, j :: 0 <= i < j < |ids| ==> ids[i] != ids[j]) && forall i :: 0 <= i < |ids| ==> Known(p, ids[i])
  {
    var seen: set<OptionId> := {};
    for i := 0 to |ids|
      invariant forall j :: 0 <= j < i ==> ids[j] in seen && Known(p, ids[j])
      invariant forall x :: x in seen ==> exists j :: 0 <= j < i && ids[j] == x
      invariant forall j, k :: 0 <= j < k < i ==> ids[j] != ids[k]
    {
      if ids[i] in seen || !Known(p, ids[i]) { return false; }
      seen := seen + {ids[i]};
    }
    return true;
  }

  method CollectSelection(p: Product, ids: seq<OptionId>) returns (r: Option<seq<Entry>>)
    ensures r == if SelectionOk(p, ids) then Some(Collected(p, ids)) else None
  {
    var ok := CheckIds(p, ids);
    if !ok { return None; }
    var entries: seq<Entry> := [];
    for i := 0 to |ids|
      invariant entries == Collected(p, ids[..i])
    {
      assert ids[..i + 1][..i] == ids[..i];
      entries := Put(entries, GroupOf(p, ids[i]), ids[i]);
    }
    assert ids[..|ids|] == ids;
    for g := 0 to |p.groups|
      invariant forall h :: 0 <= h < g ==> CountFits(p.groups[h], CountOf(entries, h))
    {
      if !CountFits(p.groups[g], CountOf(entries, g)) { return None; }
    }
    return Some(entries);
  }

  lemma OneEntry(p: Product, entries: seq<Entry>, i: nat)
    requires i < |entries|
    ensures Part(p, entries[i..], false)
         == (if IsAbsolute(p, entries[i]) then [] else entries[i].ids) + Part(p, entries[i + 1..], false)
    ensures VariantOf(p, entries[i..])
         == if VariantOf(p, entries[i + 1..]).Some? then VariantOf(p, entries[i + 1..])
            else if IsAbsolute(p, entries[i]) && entries[i].ids != [] then Some(entries[i].ids[0]) else None
  {
    assert entries[i..][0] == entries[i] && entries[i..][1..] == entries[i + 1..];
  }

  lemma Regroup(a: seq<OptionId>, b: seq<OptionId>, c: seq<OptionId>)
    ensures a + (b + c) == (a + b) + c
  {
  }

  method WalkGroups(p: Product, entries: seq<Entry>) returns (variant: Option<OptionId>, extras: seq<OptionId>)
    ensures variant == VariantOf(p, entries) && extras == Part(p, entries, false)
  {
    variant, extras := None, [];
    assert entries[0..] == entries;
    for i := 0 to |entries|
      invariant extras + Part(p, entries[i..], false) == Part(p, entries, false)
      invariant VariantOf(p, entries) == if VariantOf(p, entries[i..]).Some? then VariantOf(p, entries[i..]) else variant
    {
      OneEntry(p, entries, i);
      if IsAbsolute(p, entries[i]) {
        if entries[i].ids != [] { variant := Some(entries[i].ids[0]); }
        assert [] + Part(p, entries[i + 1..], false) == Part(p, entries[i + 1..], false);
      } else {
        Regroup(extras, entries[i].ids, Part(p, entries[i + 1..], false));
        extras := extras + entries[i].ids;
      }
    }
    assert entries[|entries|..] == [] && extras + [] == extras;
  }

  method Surcharge(p: Product, extras: seq<OptionId>) returns (sum: int)
    ensures sum == Sorting.SumBy(EffectIn(p), extras)
  {
    sum := 0;
    for i := 0 to |extras|
      invariant sum + Sorting.SumBy(EffectIn(p), extras[i..]) == Sorting.SumBy(EffectIn(p), extras)
    {
      assert extras[i..][1..] == extras[i + 1..];
      sum := sum + Effect(p, extras[i]);
    }
    assert extras[|extras|..] == [];
  }

  /** Resolving the chosen ids against the product, then walking the groups in the order first met. */
  method ResolveOrderItemPricing(p: Product, ids: seq<OptionId>) returns (r: Option<Priced>)
    ensures r == PriceItem(p, ids)
  {
    var entries := CollectSelection(p, ids);
    if entries.None? { return None; }
    var variant, extras := WalkGroups(p, entries.value);
    var surcharge := Surcharge(p, extras);
    var price := (if variant.Some? then Effect(p, variant.value) else p.price) + surcharge;
    return if price < 0 then None else Some(Priced(price, variant, extras));
  }

  // ---- What grouping keeps ----

  lemma {:induction false} PutCounts(entries: seq<Entry>, group: nat, id: OptionId, g: nat)
    ensures CountOf(Put(entries, group, id), g) == CountOf(entries, g) + if g == group then 1 else 0
    decreases |entries|
  {
    if entries != [] && entries[0].group != group { PutCounts(entries[1..], group, id, g); }
  }

  predicate Nonempty(entries: seq<Entry>) {
    forall i :: 0 <= i < |entries| ==> entries[i].ids != []
  }

  lemma {:induction false} PutLeavesNonempty(entries: seq<Entry>, group: nat, id: OptionId)
    requires Nonempty(entries)
    ensures Nonempty(Put(entries, group, id))
    decreases |entries|
  {
    if entries != [] && entries[0].group != group { PutLeavesNonempty(entries[1..], group, id); }
  }

  lemma {:induction false} PutAddsToPart(p: Product, entries: seq<Entry>, group: nat, id: OptionId, absolute: bool)
    ensures multiset(Part(p, Put(entries, group, id), absolute))
         == multiset(Part(p, entries, absolute)) + if IsAbsolute(p, Entry(group, [])) == absolute then multiset{id} else multiset{}
    decreases |entries|
  {
    if entries != [] {
      if entries[0].group == group {
        var head := Entry(group, entries[0].ids + [id]);
        assert ([head] + entries[1..])[1..] == entries[1..];
        assert multiset(entries[0].ids + [id]) == multiset(entries[0].ids) + multiset{id};
      } else {
        PutAddsToPart(p, entries[1..], group, id, absolute);
        assert ([entries[0]] + Put(entries[1..], group, id))[1..] == Put(entries[1..], group, id);
      }
    } else {
      assert [Entry(group, [id])][1..] == [];
    }
  }

  function InGroup(p: Product, g: nat): OptionId -> int { (id: OptionId) => if GroupOf(p, id) == g then 1 else 0 }

  lemma {:induction false} CollectedCounts(p: Product, ids: seq<OptionId>, g: nat)
    ensures CountOf(Collected(p, ids), g) == Sorting.SumBy(InGroup(p, g), ids)
    ensures Nonempty(Collected(p, ids))
    decreases |ids|
  {
    if ids != [] {
      var front, last := ids[..|ids| - 1], ids[|ids| - 1];
      assert ids == front + [last] && [last][1..] == [];
      CollectedCounts(p, front, g);
      PutCounts(Collected(p, front), GroupOf(p, last), last, g);
      PutLeavesNonempty(Collected(p, front), GroupOf(p, last), last);
      Sorting.SumConcat(InGroup(p, g), front, [last]);
    }
  }

  lemma {:induction false} CollectedPart(p: Product, ids: seq<OptionId>, absolute: bool)
    ensures forall x: OptionId :: multiset(Part(p, Collected(p, ids), absolute))[x] == if SetsPrice(p, x) == absolute then multiset(ids)[x] else 0
    decreases |ids|
  {
    if ids != [] {
      var front, last := ids[..|ids| - 1], ids[|ids| - 1];
      assert ids == front + [last];
      CollectedPart(p, front, absolute);
      PutAddsToPart(p, Collected(p, front), GroupOf(p, last), last, absolute);
    }
  }

  /** Collecting splits the chosen ids: by group, and into price-setting and price-adding ones. */
  lemma CollectedSplits(p: Product, ids: seq<OptionId>, g: nat)
    ensures CountOf(Collected(p, ids), g) == Sorting.SumBy(InGroup(p, g), ids)
    ensures Nonempty(Collected(p, ids))
    ensures forall x: OptionId :: multiset(Part(p, Collected(p, ids), true))[x] == if SetsPrice(p, x) then multiset(ids)[x] else 0
    ensures forall x: OptionId :: multiset(Part(p, Collected(p, ids), false))[x] == if SetsPrice(p, x) then 0 else multiset(ids)[x]
  {
    CollectedCounts(p, ids, g);
    CollectedPart(p, ids, true);
    CollectedPart(p, ids, false);
  }

  lemma {:induction false} VariantIsAbsolute(p: Product, entries: seq<Entry>)
    requires Nonempty(entries)
    ensures VariantOf(p, entries).Some? <==> Part(p, entries, true) != []
    ensures VariantOf(p, entries).Some? ==> VariantOf(p, entries).value in Part(p, entries, true)
    decreases |entries|
  {
    if entries != [] {
      VariantIsAbsolute(p, entries[1..]);
      if IsAbsolute(p, entries[0]) { assert entries[0].ids[0] in entries[0].ids + Part(p, entries[1..], true); }
    }
  }

  // ---- Stored selections, and the order of the ids ----

  /** The ids a stored item still knows. */
  function StoredIds(r: Priced): seq<OptionId> {
    (if r.variant.Some? then [r.variant.value] else []) + r.extras
  }

  /** The chosen ids that lie in price-setting groups. */
  function Absolutes(p: Product, ids: seq<OptionId>): seq<OptionId> { Part(p, Collected(p, ids), true) }

  /** Of several answers to price-setting groups only one is stored; otherwise nothing is lost. */
  lemma StoredIdsAreChosen(p: Product, ids: seq<OptionId>)
    requires PriceItem(p, ids).Some?
    ensures |StoredIds(PriceItem(p, ids).value)| <= |ids|
    ensures multiset(StoredIds(PriceItem(p, ids).value)) == multiset(ids) <==> |Absolutes(p, ids)| <= 1
    ensures |Absolutes(p, ids)| > 1 ==> |StoredIds(PriceItem(p, ids).value)| < |ids|
  {
    var entries := Collected(p, ids);
    var r := PriceItem(p, ids).value;
    CollectedSplits(p, ids, 0);
    VariantIsAbsolute(p, entries);
    var a, e := Part(p, entries, true), Part(p, entries, false);
    Rows.EqualCounts(multiset(a) + multiset(e), multiset(ids));
    assert |a| + |e| == |multiset(a) + multiset(e)| == |ids|;
    var stored := if r.variant.Some? then [r.variant.value] else [];
    assert multiset(stored + e) == multiset(stored) + multiset(e);
    if |a| <= 1 {
      assert a == stored by { if |a| == 1 { assert a == [a[0]]; } }
    }
  }

  lemma SamePart(p: Product, a: seq<OptionId>, b: seq<OptionId>, absolute: bool)
    requires multiset(a) == multiset(b)
    ensures multiset(Part(p, Collected(p, a), absolute)) == multiset(Part(p, Collected(p, b), absolute))
  {
    CollectedSplits(p, a, 0);
    CollectedSplits(p, b, 0);
    Rows.EqualCounts(multiset(Part(p, Collected(p, a), absolute)), multiset(Part(p, Collected(p, b), absolute)));
  }

  lemma SelectionIgnoresOrder(p: Product, a: seq<OptionId>, b: seq<OptionId>)
    requires multiset(a) == multiset(b) && SelectionOk(p, a)
    ensures SelectionOk(p, b)
  {
    Sorting.NoDuplicates(a, b);
    forall i | 0 <= i < |b| ensures Known(p, b[i]) {
      assert b[i] in multiset(a);
    }
    forall g | 0 <= g < |p.groups| ensures CountFits(p.groups[g], CountOf(Collected(p, b), g)) {
      CollectedSplits(p, a, g);
      CollectedSplits(p, b, g);
      Sorting.SumIgnoresOrder(InGroup(p, g), a, b);
    }
  }

  lemma SameFewElements(x: seq<OptionId>, y: seq<OptionId>)
    requires multiset(x) == multiset(y) && |x| <= 1
    ensures x == y
  {
    assert |x| == |multiset(x)| == |multiset(y)| == |y|;
    if |x| == 1 {
      assert x == [x[0]] && y == [y[0]];
      assert y[0] in multiset(x);
    }
  }

  lemma OnlyVariant(p: Product, entries: seq<Entry>)
    requires Nonempty(entries) && |Part(p, entries, true)| <= 1
    ensures VariantOf(p, entries) == if Part(p, entries, true) == [] then None else Some(Part(p, entries, true)[0])
  {
    VariantIsAbsolute(p, entries);
  }

  lemma VariantOfAbsolutes(p: Product, ids: seq<OptionId>)
    requires |Absolutes(p, ids)| <= 1
    ensures VariantOf(p, Collected(p, ids)) == if Absolutes(p, ids) == [] then None else Some(Absolutes(p, ids)[0])
  {
    CollectedCounts(p, ids, 0);
    OnlyVariant(p, Collected(p, ids));
  }

  lemma SameVariant(p: Product, a: seq<OptionId>, b: seq<OptionId>)
    requires multiset(a) == multiset(b) && |Absolutes(p, a)| <= 1
    ensures |Absolutes(p, b)| <= 1 && VariantOf(p, Collected(p, a)) == VariantOf(p, Collected(p, b))
  {
    SamePart(p, a, b, true);
    SameFewElements(Absolutes(p, a), Absolutes(p, b));
    VariantOfAbsolutes(p, a);
    VariantOfAbsolutes(p, b);
  }

  /** The same answers in another order cost the same and are stored as the same set, as long as at
      most one of them sets the price. */
  lemma PricingIgnoresOrder(p: Product, a: seq<OptionId>, b: seq<OptionId>)
    requires multiset(a) == multiset(b) && PriceItem(p, a).Some? && |Absolutes(p, a)| <= 1
    ensures PriceItem(p, b).Some? && |Absolutes(p, b)| <= 1
    ensures PriceItem(p, b).value.price == PriceItem(p, a).value.price
    ensures PriceItem(p, b).value.variant == PriceItem(p, a).value.variant
    ensures multiset(PriceItem(p, b).value.extras) == multiset(PriceItem(p, a).value.extras)
  {
    SelectionIgnoresOrder(p, a, b);
    SamePart(p, a, b, false);
    SameVariant(p, a, b);
    Sorting.SumIgnoresOrder(EffectIn(p), Part(p, Collected(p, a), false), Part(p, Collected(p, b), false));
  }

  // ---- Products that passed the checks of the option groups ----

  /** At most one group sets the price, and it asks for one answer only. */
  predicate OneAnswerSetsPrice(p: Product) {
    && (forall g, h :: 0 <= g < h < |p.groups| ==> !(p.groups[g].absolute && p.groups[h].absolute))
    && (forall g :: 0 <= g < |p.groups| && p.groups[g].absolute ==> p.groups[g].maxSelect == Some(1))
  }

  lemma {:induction false} NoAbsoluteAnswers(p: Product, entries: seq<Entry>)
    requires forall g :: 0 <= g < |p.groups| ==> !p.groups[g].absolute
    ensures Part(p, entries, true) == []
    decreases |entries|
  {
    if entries != [] { NoAbsoluteAnswers(p, entries[1..]); }
  }

  predicate GroupsApart(entries: seq<Entry>) {
    forall i, j :: 0 <= i < j < |entries| ==> entries[i].group != entries[j].group
  }

  lemma {:induction false} PutKeepsApart(entries: seq<Entry>, group: nat, id: OptionId)
    requires GroupsApart(entries)
    ensures GroupsApart(Put(entries, group, id))
    ensures forall i :: 0 <= i < |Put(entries, group, id)| ==>
      Put(entries, group, id)[i].group == group || exists j :: 0 <= j < |entries| && entries[j].group == Put(entries, group, id)[i].group
    decreases |entries|
  {
    if entries != [] && entries[0].group != group {
      PutKeepsApart(entries[1..], group, id);
      var rest := Put(entries[1..], group, id);
      forall i | 0 <= i < |rest| ensures entries[0].group != rest[i].group {
        if rest[i].group != group {
          var j :| 0 <= j < |entries[1..]| && entries[1..][j].group == rest[i].group;
          assert entries[j + 1].group == rest[i].group;
        }
      }
    }
  }

  lemma {:induction false} CollectedApart(p: Product, ids: seq<OptionId>)
    ensures GroupsApart(Collected(p, ids))
    decreases |ids|
  {
    if ids != [] {
      CollectedApart(p, ids[..|ids| - 1]);
      PutKeepsApart(Collected(p, ids[..|ids| - 1]), GroupOf(p, ids[|ids| - 1]), ids[|ids| - 1]);
    }
  }

  lemma {:induction false} NotCounted(entries: seq<Entry>, g: nat)
    requires forall i :: 0 <= i < |entries| ==> entries[i].group != g
    ensures CountOf(entries, g) == 0
    decreases |entries|
  {
    if entries != [] { NotCounted(entries[1..], g); }
  }

  lemma {:induction false} AbsolutePartIsCount(p: Product, entries: seq<Entry>, g: nat)
    requires GroupsApart(entries) && g < |p.groups| && p.groups[g].absolute
    requires forall h :: 0 <= h < |p.groups| && p.groups[h].absolute ==> h == g
    ensures |Part(p, entries, true)| == CountOf(entries, g)
    decreases |entries|
  {
    if entries != [] {
      AbsolutePartIsCount(p, entries[1..], g);
      if entries[0].group == g {
        forall i | 0 <= i < |entries[1..]| ensures entries[1..][i].group != g { assert entries[i + 1].group != entries[0].group; }
        NotCounted(entries[1..], g);
      }
    }
  }

  /** For such a product, every accepted selection has at most one answer that sets the price. */
  lemma SoundProductsLoseNothing(p: Product, ids: seq<OptionId>)
    requires OneAnswerSetsPrice(p) && PriceItem(p, ids).Some?
    ensures |Absolutes(p, ids)| <= 1
  {
    var entries := Collected(p, ids);
    CollectedApart(p, ids);
    if g :| 0 <= g < |p.groups| && p.groups[g].absolute {
      AbsolutePartIsCount(p, entries, g);
      assert CountFits(p.groups[g], CountOf(entries, g));
    } else {
      NoAbsoluteAnswers(p, entries);
    }
  }
}
