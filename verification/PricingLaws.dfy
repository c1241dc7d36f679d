/** What an item costs, told by the answers that were chosen. */
module PricingLaws {
  import opened Common
  import opened Pricing
  import Rows
  import Sorting

  // ---- The options of a product ----

  /** No two options of a product share an id. */
  ghost predicate OwnIds(p: Product) {
    forall g, h, i, j :: 0 <= g < |p.groups| && 0 <= h < |p.groups| && 0 <= i < |p.groups[g].options| && 0 <= j < |p.groups[h].options| ==>
      p.groups[g].options[i].id == p.groups[h].options[j].id ==> g == h && i == j
  }

  lemma {:induction false} FoundInOptions(options: seq<Choice>, i: nat)
    requires i < |options| && forall j :: 0 <= j < |options| && options[j].id == options[i].id ==> j == i
    ensures FindIn(options, options[i].id) == Some(options[i])
    decreases |options|
  {
    if i > 0 {
      assert options[0].id != options[i].id;
      forall j | 0 <= j < |options[1..]| && options[1..][j].id == options[1..][i - 1].id ensures j == i - 1 { assert options[j + 1].id == options[i].id; }
      FoundInOptions(options[1..], i - 1);
    }
  }

  lemma {:induction false} NotInOptions(options: seq<Choice>, id: OptionId)
    requires forall j :: 0 <= j < |options| ==> options[j].id != id
    ensures FindIn(options, id).None?
  {
    if options != [] { NotInOptions(options[1..], id); }
  }

  lemma {:induction false} FoundInGroups(groups: seq<Group>, g: nat, i: nat)
    requires g < |groups| && i < |groups[g].options|
    requires forall h, j :: 0 <= h < |groups| && 0 <= j < |groups[h].options| && groups[h].options[j].id == groups[g].options[i].id ==> h == g && j == i
    ensures Find(groups, groups[g].options[i].id) == Some(Hit(g, groups[g].options[i]))
    decreases |groups|
  {
    var last := |groups| - 1;
    if g == last { FoundInOptions(groups[g].options, i); }
    else {
      NotInOptions(groups[last].options, groups[g].options[i].id);
      FoundInGroups(groups[..last], g, i);
    }
  }

  lemma {:induction false} NotInGroups(groups: seq<Group>, id: OptionId)
    requires forall h, j :: 0 <= h < |groups| && 0 <= j < |groups[h].options| ==> groups[h].options[j].id != id
    ensures Find(groups, id).None?
    decreases |groups|
  {
    if groups != [] {
      NotInOptions(groups[|groups| - 1].options, id);
      NotInGroups(groups[..|groups| - 1], id);
    }
  }

  /** An id is that option of that group which bears it. */
  lemma OptionsAreFound(p: Product, g: nat, i: nat)
    requires OwnIds(p) && g < |p.groups| && i < |p.groups[g].options|
    ensures var o := p.groups[g].options[i];
            && GroupOf(p, o.id) == g && Effect(p, o.id) == o.effect
            && (Known(p, o.id) <==> o.active) && (SetsPrice(p, o.id) <==> p.groups[g].absolute)
  {
    FoundInGroups(p.groups, g, i);
  }

  lemma StrangersAreUnknown(p: Product, id: OptionId)
    requires forall g, i :: 0 <= g < |p.groups| && 0 <= i < |p.groups[g].options| ==> p.groups[g].options[i].id != id
    ensures !Known(p, id)
  {
    NotInGroups(p.groups, id);
  }

  // ---- The answer that sets the price ----

  /** Here a group that sets the price is answered for the first time. */
  ghost predicate Opens(p: Product, ids: seq<OptionId>, v: int) {
    0 <= v < |ids| && SetsPrice(p, ids[v]) && forall k :: 0 <= k < v ==> GroupOf(p, ids[k]) != GroupOf(p, ids[v])
  }

  /** No later answer opens a group that sets the price. */
  ghost predicate Decides(p: Product, ids: seq<OptionId>, v: int) {
    Opens(p, ids, v) && forall k :: Opens(p, ids, k) ==> k <= v
  }

  ghost predicate HasGroup(entries: seq<Entry>, group: nat) { exists i :: 0 <= i < |entries| && entries[i].group == group }

  lemma {:induction false} PutHasGroup(entries: seq<Entry>, group: nat, id: OptionId, g: nat)
    ensures HasGroup(Put(entries, group, id), g) <==> HasGroup(entries, g) || g == group
    decreases |entries|
  {
    var put := Put(entries, group, id);
    if entries == [] {
      assert put[0].group == group;
    } else if entries[0].group == group {
      assert put[0].group == group;
      forall i | 0 <= i < |entries| ensures put[i].group == entries[i].group { }
    } else {
      PutHasGroup(entries[1..], group, id, g);
      var rest := Put(entries[1..], group, id);
      assert put == [entries[0]] + rest;
      if HasGroup(rest, g) { var i :| 0 <= i < |rest| && rest[i].group == g; assert put[i + 1].group == g; }
      if HasGroup(put, g) { var i :| 0 <= i < |put| && put[i].group == g; if i > 0 { assert rest[i - 1].group == g; } }
      if HasGroup(entries[1..], g) { var i :| 0 <= i < |entries[1..]| && entries[1..][i].group == g; assert entries[i + 1].group == g; }
      if HasGroup(entries, g) { var i :| 0 <= i < |entries| && entries[i].group == g; if i > 0 { assert entries[1..][i - 1].group == g; } else { assert put[0].group == g; } }
    }
  }

  lemma {:induction false} CollectedGroups(p: Product, ids: seq<OptionId>, g: nat)
    ensures HasGroup(Collected(p, ids), g) <==> exists k :: 0 <= k < |ids| && GroupOf(p, ids[k]) == g
    decreases |ids|
  {
    if ids != [] {
      var last := |ids| - 1;
      CollectedGroups(p, ids[..last], g);
      PutHasGroup(Collected(p, ids[..last]), GroupOf(p, ids[last]), ids[last], g);
      if HasGroup(Collected(p, ids[..last]), g) { var k :| 0 <= k < last && GroupOf(p, ids[..last][k]) == g; assert GroupOf(p, ids[k]) == g; }
      if k :| 0 <= k < |ids| && GroupOf(p, ids[k]) == g { if k < last { assert GroupOf(p, ids[..last][k]) == g; } }
    }
  }

  lemma {:induction false} PutDecides(p: Product, entries: seq<Entry>, group: nat, id: OptionId)
    requires Nonempty(entries)
    ensures VariantOf(p, Put(entries, group, id))
         == if IsAbsolute(p, Entry(group, [])) && !HasGroup(entries, group) then Some(id) else VariantOf(p, entries)
    decreases |entries|
  {
    if entries == [] {
      assert [Entry(group, [id])][1..] == [];
    } else if entries[0].group == group {
      assert ([Entry(group, entries[0].ids + [id])] + entries[1..])[1..] == entries[1..];
    } else {
      PutDecides(p, entries[1..], group, id);
      assert ([entries[0]] + Put(entries[1..], group, id))[1..] == Put(entries[1..], group, id);
      if HasGroup(entries[1..], group) { var i :| 0 <= i < |entries[1..]| && entries[1..][i].group == group; assert entries[i + 1].group == group; }
      if HasGroup(entries, group) { var i :| 0 <= i < |entries| && entries[i].group == group; assert entries[1..][i - 1].group == group; }
    }
  }

  lemma OpensBefore(p: Product, ids: seq<OptionId>, v: int)
    requires ids != []
    ensures Opens(p, ids[..|ids| - 1], v) <==> Opens(p, ids, v) && v < |ids| - 1
  {
    var front := ids[..|ids| - 1];
    if 0 <= v < |front| { assert forall k :: 0 <= k <= v ==> front[k] == ids[k]; }
  }

  ghost predicate VariantFits(p: Product, ids: seq<OptionId>, variant: Option<OptionId>) {
    && (forall v :: Decides(p, ids, v) ==> variant == Some(ids[v]))
    && ((forall v :: !Opens(p, ids, v)) ==> variant.None?)
  }

  lemma DecidesBefore(p: Product, front: seq<OptionId>, ids: seq<OptionId>, v: int)
    requires ids != [] && front == ids[..|ids| - 1] && !Opens(p, ids, |ids| - 1)
    ensures Decides(p, ids, v) ==> Decides(p, front, v)
  {
    if Decides(p, ids, v) {
      OpensBefore(p, ids, v);
      forall k | Opens(p, front, k) ensures k <= v { OpensBefore(p, ids, k); }
    }
  }

  lemma NothingLess(p: Product, front: seq<OptionId>, ids: seq<OptionId>)
    requires ids != [] && front == ids[..|ids| - 1] && forall v :: !Opens(p, ids, v)
    ensures forall v :: !Opens(p, front, v)
  {
    forall v ensures !Opens(p, front, v) { OpensBefore(p, ids, v); }
  }

  lemma OneAnswerMore(p: Product, ids: seq<OptionId>, variant: Option<OptionId>)
    requires ids != [] && VariantFits(p, ids[..|ids| - 1], variant)
    ensures VariantFits(p, ids, if Opens(p, ids, |ids| - 1) then Some(ids[|ids| - 1]) else variant)
  {
    var last := |ids| - 1;
    if Opens(p, ids, last) {
      forall v | Decides(p, ids, v) ensures v == last { }
    } else {
      forall v | Decides(p, ids, v) ensures variant == Some(ids[v]) { DecidesBefore(p, ids[..last], ids, v); }
      if forall v :: !Opens(p, ids, v) { NothingLess(p, ids[..last], ids); }
    }
  }

  lemma LastOpens(p: Product, ids: seq<OptionId>)
    requires ids != []
    ensures var last := |ids| - 1;
            Opens(p, ids, last) <==> SetsPrice(p, ids[last]) && !HasGroup(Collected(p, ids[..last]), GroupOf(p, ids[last]))
  {
    var last := |ids| - 1;
    CollectedGroups(p, ids[..last], GroupOf(p, ids[last]));
    assert forall k :: 0 <= k < last ==> ids[..last][k] == ids[k];
  }

  /** The variant is the answer that opened the last of the price-setting groups. */
  lemma {:induction false} VariantDecides(p: Product, ids: seq<OptionId>)
    ensures VariantFits(p, ids, VariantOf(p, Collected(p, ids)))
    decreases |ids|
  {
    if ids != [] {
      var last := |ids| - 1;
      VariantDecides(p, ids[..last]);
      CollectedCounts(p, ids[..last], 0);
      PutDecides(p, Collected(p, ids[..last]), GroupOf(p, ids[last]), ids[last]);
      LastOpens(p, ids);
      OneAnswerMore(p, ids, VariantOf(p, Collected(p, ids[..last])));
    }
  }

  // ---- What is added to it ----

  function AddedBy(p: Product): OptionId -> int { (id: OptionId) => if SetsPrice(p, id) then 0 else Effect(p, id) }

  lemma {:induction false} PutAdds(p: Product, entries: seq<Entry>, group: nat, id: OptionId)
    ensures Sorting.SumBy(EffectIn(p), Part(p, Put(entries, group, id), false))
         == Sorting.SumBy(EffectIn(p), Part(p, entries, false)) + if IsAbsolute(p, Entry(group, [])) then 0 else Effect(p, id)
    decreases |entries|
  {
    assert [id][1..] == [] && Sorting.SumBy(EffectIn(p), []) == 0;
    assert Sorting.SumBy(EffectIn(p), [id]) == Effect(p, id);
    if entries == [] {
      assert [Entry(group, [id])][1..] == [] && [id] + [] == [id];
    } else if entries[0].group == group {
      var ids, rest := entries[0].ids, Part(p, entries[1..], false);
      assert ([Entry(group, ids + [id])] + entries[1..])[1..] == entries[1..];
      Sorting.SumConcat(EffectIn(p), ids, [id]);
      Sorting.SumConcat(EffectIn(p), ids + [id], rest);
      Sorting.SumConcat(EffectIn(p), ids, rest);
    } else {
      PutAdds(p, entries[1..], group, id);
      assert ([entries[0]] + Put(entries[1..], group, id))[1..] == Put(entries[1..], group, id);
      Sorting.SumConcat(EffectIn(p), entries[0].ids, Part(p, Put(entries[1..], group, id), false));
      Sorting.SumConcat(EffectIn(p), entries[0].ids, Part(p, entries[1..], false));
    }
  }

  lemma {:induction false} ExtrasAdd(p: Product, ids: seq<OptionId>)
    ensures Sorting.SumBy(EffectIn(p), Part(p, Collected(p, ids), false)) == Sorting.SumBy(AddedBy(p), ids)
    decreases |ids|
  {
    if ids != [] {
      var front, last := ids[..|ids| - 1], ids[|ids| - 1];
      assert ids == front + [last] && [last][1..] == [];
      ExtrasAdd(p, front);
      PutAdds(p, Collected(p, front), GroupOf(p, last), last);
      Sorting.SumConcat(AddedBy(p), front, [last]);
      assert Sorting.SumBy(AddedBy(p), [last]) == AddedBy(p)(last) + Sorting.SumBy(AddedBy(p), []);
    }
  }

  // ---- The price ----

  /** Active options of the product, each once, and of every group as many as it asks for. */
  ghost predicate Answers(p: Product, ids: seq<OptionId>) {
    && (forall i, j :: 0 <= i < j < |ids| ==> ids[i] != ids[j])
    && (forall id :: id in ids ==> Known(p, id))
    && forall g :: 0 <= g < |p.groups| ==>
         var n := Sorting.SumBy(InGroup(p, g), ids);
         p.groups[g].minSelect <= n && (p.groups[g].maxSelect == None || n <= p.groups[g].maxSelect.value)
  }

  lemma AnswersAreOk(p: Product, ids: seq<OptionId>)
    ensures SelectionOk(p, ids) <==> Answers(p, ids)
  {
    forall g: nat ensures CountOf(Collected(p, ids), g) == Sorting.SumBy(InGroup(p, g), ids) { CollectedCounts(p, ids, g); }
    if Answers(p, ids) {
      forall i | 0 <= i < |ids| ensures Known(p, ids[i]) { assert ids[i] in ids; }
      forall g | 0 <= g < |p.groups| ensures CountFits(p.groups[g], CountOf(Collected(p, ids), g)) { }
    }
    if SelectionOk(p, ids) {
      forall g | 0 <= g < |p.groups|
        ensures var n := Sorting.SumBy(InGroup(p, g), ids);
                p.groups[g].minSelect <= n && (p.groups[g].maxSelect == None || n <= p.groups[g].maxSelect.value)
      {
        assert CountFits(p.groups[g], CountOf(Collected(p, ids), g));
      }
    }
  }

  /** What the item costs before the answers that add to it. */
  ghost predicate IsBase(p: Product, ids: seq<OptionId>, base: int) {
    && (forall v :: Decides(p, ids, v) ==> base == Effect(p, ids[v]))
    && ((forall v :: !Opens(p, ids, v)) ==> base == p.price)
  }

  lemma {:induction false} LastOpening(p: Product, ids: seq<OptionId>, n: nat) returns (v: int)
    requires n <= |ids| && exists k :: k < n && Opens(p, ids, k)
    ensures Opens(p, ids, v) && v < n && forall k :: Opens(p, ids, k) && k < n ==> k <= v
    decreases n
  {
    if Opens(p, ids, n - 1) { v := n - 1; } else { v := LastOpening(p, ids, n - 1); }
  }

  /** An item is priced exactly if its answers are allowed and the price is not negative.  It costs the effect
      of the answer that opened the last price-setting group, or the product's price, plus the
      effects of all answers in the other groups. */
  lemma AnswersArePriced(p: Product, ids: seq<OptionId>, base: int)
    requires IsBase(p, ids, base)
    ensures PriceItem(p, ids).Some? <==> Answers(p, ids) && base + Sorting.SumBy(AddedBy(p), ids) >= 0
    ensures PriceItem(p, ids).Some? ==>
              var r := PriceItem(p, ids).value;
              && r.price == base + Sorting.SumBy(AddedBy(p), ids)
              && (forall v :: Decides(p, ids, v) ==> r.variant == Some(ids[v])) && (r.variant.Some? ==> exists v :: Decides(p, ids, v))
              && forall id :: multiset(r.extras)[id] == if SetsPrice(p, id) then 0 else multiset(ids)[id]
  {
    AnswersAreOk(p, ids);
    VariantDecides(p, ids);
    ExtrasAdd(p, ids);
    CollectedPart(p, ids, false);
    if v :| Opens(p, ids, v) {
      var last := LastOpening(p, ids, |ids|);
      assert Decides(p, ids, last);
    }
  }

  /** With at most one answer that sets the price there is nothing to choose between. */
  lemma OneAnswerDecides(p: Product, ids: seq<OptionId>)
    requires PriceItem(p, ids).Some?
    requires forall i, j :: 0 <= i < j < |ids| ==> !(SetsPrice(p, ids[i]) && SetsPrice(p, ids[j]))
    ensures var r := PriceItem(p, ids).value;
            && (forall id :: id in ids && SetsPrice(p, id) ==> r.variant == Some(id) && r.price == Effect(p, id) + Sorting.SumBy(AddedBy(p), ids))
            && ((forall id :: id in ids ==> !SetsPrice(p, id)) ==> r.variant.None? && r.price == p.price + Sorting.SumBy(AddedBy(p), ids))
  {
    if id :| id in ids && SetsPrice(p, id) {
      var i :| 0 <= i < |ids| && ids[i] == id;
      assert Opens(p, ids, i);
      assert Decides(p, ids, i);
      assert IsBase(p, ids, Effect(p, id)) by { forall v | Decides(p, ids, v) ensures ids[v] == id { assert v == i; } }
      AnswersArePriced(p, ids, Effect(p, id));
    } else {
      assert forall v :: !Opens(p, ids, v);
      AnswersArePriced(p, ids, p.price);
    }
  }
}
