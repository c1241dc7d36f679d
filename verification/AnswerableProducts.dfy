/**
 * Which products can be ordered at all: the bounds of their option groups against the options that are
 * active, and what the check of a payload makes sure of.
 */
module AnswerableProducts {
  import opened Common
  import OptionGroups
  import Pricing
  import PricingLaws
  import SavedProducts
  import Sorting

  type OptionId = Pricing.OptionId

  // ---- The answers a group has ----

  function ActiveIds(options: seq<Pricing.Choice>): seq<OptionId> {
    if options == [] then [] else (if options[0].active then [options[0].id] else []) + ActiveIds(options[1..])
  }

  ghost predicate Distinct<T(!new)>(s: seq<T>) { forall i, j :: 0 <= i < j < |s| ==> s[i] != s[j] }

  lemma {:induction false} ActiveIdsAre(options: seq<Pricing.Choice>)
    ensures forall id :: id in ActiveIds(options) <==> exists j :: 0 <= j < |options| && options[j].active && options[j].id == id
    decreases |options|
  {
    if options != [] {
      ActiveIdsAre(options[1..]);
      forall id | id in ActiveIds(options) ensures exists j :: 0 <= j < |options| && options[j].active && options[j].id == id {
        if id in ActiveIds(options[1..]) {
          var j :| 0 <= j < |options[1..]| && options[1..][j].active && options[1..][j].id == id;
          assert options[j + 1].active && options[j + 1].id == id;
        } else {
          assert options[0].active && options[0].id == id;
        }
      }
      forall j | 0 <= j < |options| && options[j].active ensures options[j].id in ActiveIds(options) {
        if j > 0 { assert options[1..][j - 1].active && options[1..][j - 1].id == options[j].id; }
      }
    }
  }

  lemma {:induction false} ActiveIdsDiffer(options: seq<Pricing.Choice>)
    requires forall i, j :: 0 <= i < j < |options| ==> options[i].id != options[j].id
    ensures Distinct(ActiveIds(options))
    decreases |options|
  {
    if options != [] {
      ActiveIdsDiffer(options[1..]);
      ActiveIdsAre(options[1..]);
      var rest := ActiveIds(options[1..]);
      forall k | 0 <= k < |rest| ensures rest[k] != options[0].id {
        assert rest[k] in rest;
        var j :| 0 <= j < |options[1..]| && options[1..][j].active && options[1..][j].id == rest[k];
        assert options[j + 1].id == rest[k];
      }
    }
  }

  /** A sequence without repetitions is no longer than one that has all of its elements. */
  lemma {:induction false} NoLonger<T(!new)>(a: seq<T>, b: seq<T>)
    requires Distinct(a) && forall x :: x in a ==> x in b
    ensures |a| <= |b|
    decreases |a|
  {
    if a != [] {
      assert a[0] in b;
      var i :| 0 <= i < |b| && b[i] == a[0];
      var rest := b[..i] + b[i + 1..];
      forall x | x in a[1..] ensures x in rest {
        var k :| 0 <= k < |a[1..]| && a[1..][k] == x;
        assert a[k + 1] == x != a[0] && x in a && x in b;
        var j :| 0 <= j < |b| && b[j] == x;
        if j < i { assert rest[j] == x; } else { assert rest[j - 1] == x; }
      }
      NoLonger(a[1..], rest);
    }
  }

  // ---- What a selection needs ----

  /** Every group has as many active options as it asks for. */
  predicate Answerable(p: Pricing.Product) {
    forall g :: 0 <= g < |p.groups| ==> p.groups[g].minSelect <= |ActiveIds(p.groups[g].options)|
  }

  predicate BoundsFit(p: Pricing.Product) {
    forall g :: 0 <= g < |p.groups| && p.groups[g].maxSelect.Some? ==> p.groups[g].minSelect <= p.groups[g].maxSelect.value
  }

  /** The chosen ids of one group. */
  function OfGroup(p: Pricing.Product, ids: seq<OptionId>, g: nat): seq<OptionId> {
    if ids == [] then [] else (if Pricing.GroupOf(p, ids[0]) == g then [ids[0]] else []) + OfGroup(p, ids[1..], g)
  }

  lemma {:induction false} OfGroupIs(p: Pricing.Product, ids: seq<OptionId>, g: nat)
    requires Distinct(ids)
    ensures |OfGroup(p, ids, g)| == Sorting.SumBy(Pricing.InGroup(p, g), ids)
    ensures forall id :: id in OfGroup(p, ids, g) <==> id in ids && Pricing.GroupOf(p, id) == g
    ensures Distinct(OfGroup(p, ids, g))
    decreases |ids|
  {
    if ids != [] { OfGroupIs(p, ids[1..], g); }
  }

  lemma {:induction false} FoundIn(options: seq<Pricing.Choice>, id: OptionId)
    requires Pricing.FindIn(options, id).Some?
    ensures exists j :: 0 <= j < |options| && options[j] == Pricing.FindIn(options, id).value && options[j].id == id
    decreases |options|
  {
    if options[0].id != id {
      FoundIn(options[1..], id);
      var j :| 0 <= j < |options[1..]| && options[1..][j] == Pricing.FindIn(options[1..], id).value && options[1..][j].id == id;
      assert options[j + 1].id == id;
    }
  }

  lemma {:induction false} KnownIsActive(groups: seq<Pricing.Group>, id: OptionId)
    requires Pricing.Find(groups, id).Some? && Pricing.Find(groups, id).value.option.active
    ensures id in ActiveIds(groups[Pricing.Find(groups, id).value.group].options)
    decreases |groups|
  {
    var last := |groups| - 1;
    if Pricing.FindIn(groups[last].options, id).Some? {
      FoundIn(groups[last].options, id);
      ActiveIdsAre(groups[last].options);
    } else {
      KnownIsActive(groups[..last], id);
    }
  }

  lemma AnsweredIsAnswerable(p: Pricing.Product, ids: seq<OptionId>)
    requires PricingLaws.Answers(p, ids)
    ensures Answerable(p)
  {
    forall g | 0 <= g < |p.groups| ensures p.groups[g].minSelect <= |ActiveIds(p.groups[g].options)| {
      OfGroupIs(p, ids, g);
      forall id | id in OfGroup(p, ids, g) ensures id in ActiveIds(p.groups[g].options) {
        assert Pricing.Known(p, id);
        KnownIsActive(p.groups, id);
      }
      NoLonger(OfGroup(p, ids, g), ActiveIds(p.groups[g].options));
    }
  }

  /** Of each of the first k groups, as few active options as it asks for. */
  function Fewest(p: Pricing.Product, k: nat): seq<OptionId>
    requires k <= |p.groups| && Answerable(p)
  {
    if k == 0 then [] else Fewest(p, k - 1) + ActiveIds(p.groups[k - 1].options)[..p.groups[k - 1].minSelect]
  }

  lemma ActiveIsKnown(p: Pricing.Product, g: nat, id: OptionId)
    requires PricingLaws.OwnIds(p) && g < |p.groups| && id in ActiveIds(p.groups[g].options)
    ensures Pricing.Known(p, id) && Pricing.GroupOf(p, id) == g
  {
    ActiveIdsAre(p.groups[g].options);
    var i :| 0 <= i < |p.groups[g].options| && p.groups[g].options[i].active && p.groups[g].options[i].id == id;
    PricingLaws.OptionsAreFound(p, g, i);
  }

  lemma {:induction false} AllOfGroup(p: Pricing.Product, ids: seq<OptionId>, group: nat, g: nat)
    requires forall id :: id in ids ==> Pricing.GroupOf(p, id) == group
    ensures Sorting.SumBy(Pricing.InGroup(p, g), ids) == if g == group then |ids| else 0
    decreases |ids|
  {
    if ids != [] {
      assert ids[0] in ids;
      AllOfGroup(p, ids[1..], group, g);
    }
  }

  lemma {:induction false} FewestIsKnown(p: Pricing.Product, k: nat)
    requires PricingLaws.OwnIds(p) && k <= |p.groups| && Answerable(p)
    ensures forall id :: id in Fewest(p, k) ==> Pricing.Known(p, id) && Pricing.GroupOf(p, id) < k
    ensures Distinct(Fewest(p, k))
  {
    if k > 0 {
      var g := k - 1;
      var group := ActiveIds(p.groups[g].options)[..p.groups[g].minSelect];
      FewestIsKnown(p, g);
      forall i, j | 0 <= i < j < |p.groups[g].options| ensures p.groups[g].options[i].id != p.groups[g].options[j].id { }
      ActiveIdsDiffer(p.groups[g].options);
      forall id | id in group ensures Pricing.Known(p, id) && Pricing.GroupOf(p, id) == g { ActiveIsKnown(p, g, id); }
      forall i, j | 0 <= i < j < |Fewest(p, k)| ensures Fewest(p, k)[i] != Fewest(p, k)[j] {
        if i < |Fewest(p, g)| <= j { assert Fewest(p, k)[i] in Fewest(p, g) && Fewest(p, k)[j] in group; }
      }
    }
  }

  /** An active option's id leads to its group. */
  ghost predicate GroupsKnown(p: Pricing.Product) {
    forall g, id :: 0 <= g < |p.groups| && id in ActiveIds(p.groups[g].options) ==> Pricing.GroupOf(p, id) == g
  }

  lemma FewestStep(p: Pricing.Product, k: nat, g: nat)
    requires 0 < k <= |p.groups| && Answerable(p) && GroupsKnown(p)
    ensures Sorting.SumBy(Pricing.InGroup(p, g), Fewest(p, k))
         == Sorting.SumBy(Pricing.InGroup(p, g), Fewest(p, k - 1)) + if g == k - 1 then p.groups[k - 1].minSelect else 0
  {
    var active := ActiveIds(p.groups[k - 1].options);
    var group := active[..p.groups[k - 1].minSelect];
    forall id | id in group ensures Pricing.GroupOf(p, id) == k - 1 { assert id in active; }
    AllOfGroup(p, group, k - 1, g);
    Sorting.SumConcat(Pricing.InGroup(p, g), Fewest(p, k - 1), group);
  }

  lemma {:induction false} FewestCounts(p: Pricing.Product, k: nat, g: nat)
    requires GroupsKnown(p) && k <= |p.groups| && Answerable(p) && g < |p.groups|
    ensures Sorting.SumBy(Pricing.InGroup(p, g), Fewest(p, k)) == if g < k then p.groups[g].minSelect else 0
    decreases k
  {
    if k > 0 {
      FewestCounts(p, k - 1, g);
      FewestStep(p, k, g);
    }
  }

  /** A product has a selection that its groups allow exactly if each has as many active options as it asks for. */
  lemma SelectableExactly(p: Pricing.Product)
    requires PricingLaws.OwnIds(p) && BoundsFit(p)
    ensures (exists ids :: Pricing.SelectionOk(p, ids)) <==> Answerable(p)
  {
    if ids :| Pricing.SelectionOk(p, ids) {
      PricingLaws.AnswersAreOk(p, ids);
      AnsweredIsAnswerable(p, ids);
    }
    if Answerable(p) {
      var ids := Fewest(p, |p.groups|);
      FewestIsKnown(p, |p.groups|);
      forall g, id | 0 <= g < |p.groups| && id in ActiveIds(p.groups[g].options) ensures Pricing.GroupOf(p, id) == g { ActiveIsKnown(p, g, id); }
      assert GroupsKnown(p);
      forall g | 0 <= g < |p.groups| ensures Sorting.SumBy(Pricing.InGroup(p, g), ids) == p.groups[g].minSelect { FewestCounts(p, |p.groups|, g); }
      PricingLaws.AnswersAreOk(p, ids);
    }
  }

  // ---- What the check of a payload makes sure of ----

  function ActiveRows(rows: map<OptionGroups.OptionId, OptionGroups.OptionRow>): set<OptionId> {
    set id | id in rows && rows[id].isActive
  }

  lemma {:induction false} SetSize<T(!new)>(s: seq<T>, all: set<T>)
    requires Distinct(s) && forall x :: x in all <==> x in s
    ensures |all| == |s|
    decreases |s|
  {
    if s == [] {
      assert all == {};
    } else {
      assert s[0] in all;
      forall x ensures x in all - {s[0]} <==> x in s[1..] {
        if x in s[1..] { var i :| 0 <= i < |s[1..]| && s[1..][i] == x; assert s[i + 1] == x; }
      }
      SetSize(s[1..], all - {s[0]});
    }
  }

  lemma ReadActive(options: seq<Pricing.Choice>, rows: map<OptionGroups.OptionId, OptionGroups.OptionRow>)
    requires SavedProducts.ReadsOptions(options, rows)
    ensures |ActiveIds(options)| == |ActiveRows(rows)|
  {
    ActiveIdsDiffer(options);
    ActiveIdsAre(options);
    forall id ensures id in ActiveRows(rows) <==> id in ActiveIds(options) {
      if id in ActiveRows(rows) {
        var k :| 0 <= k < |options| && options[k].id == id;
        assert options[k].active;
      }
    }
    SetSize(ActiveIds(options), ActiveRows(rows));
  }

  /** The rows of the entries that are active. */
  function ActiveOf(options: seq<OptionGroups.OptionInput>, ids: seq<OptionId>): seq<OptionId>
    requires |options| == |ids|
  {
    if options == [] then []
    else
      var last := |options| - 1;
      ActiveOf(options[..last], ids[..last]) + if OptionGroups.IsActive(options[last]) then [ids[last]] else []
  }

  ghost predicate MarkedAt(options: seq<OptionGroups.OptionInput>, ids: seq<OptionId>, id: OptionId, i: int) {
    0 <= i < |ids| && i < |options| && ids[i] == id && OptionGroups.IsActive(options[i])
  }

  lemma {:induction false} ActiveOfHas(options: seq<OptionGroups.OptionInput>, ids: seq<OptionId>)
    requires |options| == |ids|
    ensures forall id :: id in ActiveOf(options, ids) <==> exists i :: MarkedAt(options, ids, id, i)
    decreases |options|
  {
    if options != [] {
      var last := |options| - 1;
      ActiveOfHas(options[..last], ids[..last]);
      forall id ensures id in ActiveOf(options, ids) <==> exists i :: MarkedAt(options, ids, id, i) {
        if id in ActiveOf(options[..last], ids[..last]) {
          var i :| MarkedAt(options[..last], ids[..last], id, i);
          assert MarkedAt(options, ids, id, i);
        } else if id in ActiveOf(options, ids) {
          assert MarkedAt(options, ids, id, last);
        }
        if i :| MarkedAt(options, ids, id, i) {
          if i < last { assert MarkedAt(options[..last], ids[..last], id, i); }
        }
      }
    }
  }

  lemma {:induction false} ActiveOfIs(options: seq<OptionGroups.OptionInput>, ids: seq<OptionId>)
    requires |options| == |ids| && Distinct(ids)
    ensures |ActiveOf(options, ids)| == OptionGroups.ActiveCount(options) && Distinct(ActiveOf(options, ids))
    decreases |options|
  {
    if options != [] {
      var last := |options| - 1;
      var front := ActiveOf(options[..last], ids[..last]);
      ActiveOfIs(options[..last], ids[..last]);
      ActiveOfHas(options[..last], ids[..last]);
      forall k | 0 <= k < |front| ensures front[k] != ids[last] {
        assert front[k] in front;
        var i :| MarkedAt(options[..last], ids[..last], front[k], i);
      }
    }
  }

  /** No option is named twice. */
  predicate OptionsNamedOnce(g: OptionGroups.GroupInput) {
    forall i, j :: 0 <= i < j < |g.options| && g.options[i].id.Some? ==> g.options[i].id != g.options[j].id
  }

  lemma PlacesDiffer(g: OptionGroups.GroupInput, ids: seq<OptionGroups.OptionId>)
    requires OptionGroups.OptionPlaces(g.options, ids) && OptionsNamedOnce(g)
    ensures Distinct(ids)
  {
    forall i, j | 0 <= i < j < |ids| ensures ids[i] != ids[j] {
      if g.options[i].id.None? { assert OptionGroups.IsOnly(ids, i); } else if g.options[j].id.None? { assert OptionGroups.IsOnly(ids, j); }
    }
  }

  lemma StoredFlags(row: OptionGroups.GroupRow, g: OptionGroups.GroupInput, ids: seq<OptionGroups.OptionId>, i: nat)
    requires OptionGroups.OptionsMatch(row.options, g.options, ids) && Distinct(ids) && i < |ids|
    ensures ids[i] in row.options && (row.options[ids[i]].isActive <==> OptionGroups.IsActive(g.options[i]))
  {
    assert OptionGroups.IsLast(ids, i) && ids[i] in ids;
  }

  lemma StoredWhereMarked(row: OptionGroups.GroupRow, g: OptionGroups.GroupInput, ids: seq<OptionGroups.OptionId>, id: OptionId)
    requires OptionGroups.OptionsMatch(row.options, g.options, ids) && Distinct(ids)
    ensures id in ActiveRows(row.options) <==> exists i :: MarkedAt(g.options, ids, id, i)
  {
    if id in row.options {
      assert id in ids;
      var i :| 0 <= i < |ids| && ids[i] == id;
      StoredFlags(row, g, ids, i);
      if row.options[id].isActive { assert MarkedAt(g.options, ids, id, i); }
    }
    if i :| MarkedAt(g.options, ids, id, i) { StoredFlags(row, g, ids, i); }
  }

  lemma StoredActive(row: OptionGroups.GroupRow, g: OptionGroups.GroupInput)
    requires OptionGroups.GroupMatches(row, g) && OptionsNamedOnce(g)
    ensures |ActiveRows(row.options)| == OptionGroups.ActiveCount(g.options)
  {
    var ids: seq<OptionGroups.OptionId> :| OptionGroups.OptionsMatch(row.options, g.options, ids);
    PlacesDiffer(g, ids);
    ActiveOfIs(g.options, ids);
    ActiveOfHas(g.options, ids);
    var active := ActiveOf(g.options, ids);
    forall id ensures id in ActiveRows(row.options) <==> id in active { StoredWhereMarked(row, g, ids, id); }
    SetSize(active, ActiveRows(row.options));
  }

  /** A payload whose entries are different groups and options. */
  ghost predicate NamedOnce(groups: seq<OptionGroups.GroupInput>) {
    OptionGroups.DistinctIds(groups) && forall i :: 0 <= i < |groups| ==> OptionsNamedOnce(groups[i])
  }

  /** A group without an upper bound asks for no more than it has. */
  predicate OpenGroupsFit(groups: seq<OptionGroups.GroupInput>) {
    forall i :: 0 <= i < |groups| && groups[i].maxSelect.None? ==> groups[i].minSelect <= OptionGroups.ActiveCount(groups[i].options)
  }

  lemma StoredGroup(rows: SavedProducts.Table, groups: seq<OptionGroups.GroupInput>, ids: seq<OptionGroups.GroupId>, i: nat)
    requires OptionGroups.GroupsMatch(rows, groups, ids) && NamedOnce(groups) && i < |groups|
    ensures ids[i] in rows && rows[ids[i]] == OptionGroups.RowOf(groups[i], rows[ids[i]].options)
    ensures |ActiveRows(rows[ids[i]].options)| == OptionGroups.ActiveCount(groups[i].options)
  {
    forall k | 0 <= k < |ids| && k != i ensures ids[k] != ids[i] {
      assert OptionGroups.Single(groups, i);
      if groups[i].id.None? { assert OptionGroups.IsOnly(ids, i); } else if groups[k].id.None? { assert OptionGroups.IsOnly(ids, k); }
    }
    assert OptionGroups.IsOnly(ids, i) && OptionGroups.IsLast(ids, i);
    assert ids[i] in ids;
    StoredActive(rows[ids[i]], groups[i]);
  }

  lemma ReadAsStored(p: Pricing.Product, rows: SavedProducts.Table, listing: seq<OptionGroups.GroupId>, groups: seq<OptionGroups.GroupInput>, ids: seq<OptionGroups.GroupId>, g: nat, i: nat)
    requires OptionGroups.GroupsMatch(rows, groups, ids) && NamedOnce(groups) && SavedProducts.Lists(p, rows, listing)
    requires g < |p.groups| && i < |groups| && listing[g] == ids[i]
    ensures p.groups[g].minSelect == groups[i].minSelect && |ActiveIds(p.groups[g].options)| == OptionGroups.ActiveCount(groups[i].options)
    ensures p.groups[g].maxSelect.Some? <==> groups[i].maxSelect.Some?
    ensures p.groups[g].maxSelect.Some? ==> p.groups[g].maxSelect.value == groups[i].maxSelect.value
  {
    StoredGroup(rows, groups, ids, i);
    assert SavedProducts.ReadsGroup(p.groups[g], rows[listing[g]]);
    ReadActive(p.groups[g].options, rows[listing[g]].options);
  }

  /** The product's group and the payload's entry are one. */
  ghost predicate SameBounds(p: Pricing.Product, groups: seq<OptionGroups.GroupInput>, g: nat, i: nat) {
    && g < |p.groups| && i < |groups|
    && p.groups[g].minSelect == groups[i].minSelect && |ActiveIds(p.groups[g].options)| == OptionGroups.ActiveCount(groups[i].options)
    && (p.groups[g].maxSelect.Some? <==> groups[i].maxSelect.Some?)
    && (p.groups[g].maxSelect.Some? ==> p.groups[g].maxSelect.value == groups[i].maxSelect.value)
  }

  lemma EntryOfGroup(p: Pricing.Product, rows: SavedProducts.Table, groups: seq<OptionGroups.GroupInput>, ids: seq<OptionGroups.GroupId>, g: nat) returns (i: nat)
    requires OptionGroups.GroupsMatch(rows, groups, ids) && NamedOnce(groups) && SavedProducts.Reads(p, rows) && g < |p.groups|
    ensures SameBounds(p, groups, g, i)
  {
    var listing :| SavedProducts.Lists(p, rows, listing);
    assert listing[g] in listing && listing[g] in rows && listing[g] in ids;
    i :| 0 <= i < |ids| && ids[i] == listing[g];
    ReadAsStored(p, rows, listing, groups, ids, g, i);
  }

  lemma GroupOfEntry(p: Pricing.Product, rows: SavedProducts.Table, groups: seq<OptionGroups.GroupInput>, ids: seq<OptionGroups.GroupId>, i: nat) returns (g: nat)
    requires OptionGroups.GroupsMatch(rows, groups, ids) && NamedOnce(groups) && SavedProducts.Reads(p, rows) && i < |groups|
    ensures SameBounds(p, groups, g, i)
  {
    var listing :| SavedProducts.Lists(p, rows, listing);
    assert ids[i] in ids && ids[i] in rows && ids[i] in listing;
    g :| 0 <= g < |listing| && listing[g] == ids[i];
    ReadAsStored(p, rows, listing, groups, ids, g, i);
  }

  lemma CheckedBounds(groups: seq<OptionGroups.GroupInput>, i: nat)
    requires OptionGroups.PayloadOk(groups) && i < |groups| && groups[i].maxSelect.Some?
    ensures groups[i].minSelect <= groups[i].maxSelect.value <= OptionGroups.ActiveCount(groups[i].options)
  {
    assert OptionGroups.GroupOk(groups[i]);
  }

  /** What passed the check has room for what it asks for wherever it names an upper bound; nothing checks the others. */
  lemma CheckedBoundsFit(p: Pricing.Product, rows: SavedProducts.Table, groups: seq<OptionGroups.GroupInput>, ids: seq<OptionGroups.GroupId>)
    requires OptionGroups.PayloadOk(groups) && OptionGroups.GroupsMatch(rows, groups, ids) && NamedOnce(groups) && SavedProducts.Reads(p, rows)
    ensures BoundsFit(p) && (Answerable(p) <==> OpenGroupsFit(groups))
  {
    forall g | 0 <= g < |p.groups|
      ensures p.groups[g].maxSelect.Some? ==> p.groups[g].minSelect <= p.groups[g].maxSelect.value
      ensures OpenGroupsFit(groups) ==> p.groups[g].minSelect <= |ActiveIds(p.groups[g].options)|
    {
      var i := EntryOfGroup(p, rows, groups, ids, g);
      if groups[i].maxSelect.Some? { CheckedBounds(groups, i); }
    }
    if Answerable(p) {
      forall i | 0 <= i < |groups| && groups[i].maxSelect.None? ensures groups[i].minSelect <= OptionGroups.ActiveCount(groups[i].options) {
        var g := GroupOfEntry(p, rows, groups, ids, i);
      }
    }
  }

  /** The rule that no group may ask for more than its active options is enforced through the upper bound only: a
      product whose groups passed the check can be answered exactly if every group without one meets the rule. */
  lemma CheckedProductsAreSelectableExactly(p: Pricing.Product, rows: SavedProducts.Table, groups: seq<OptionGroups.GroupInput>, ids: seq<OptionGroups.GroupId>)
    requires OptionGroups.PayloadOk(groups) && OptionGroups.GroupsMatch(rows, groups, ids) && NamedOnce(groups)
    requires SavedProducts.Reads(p, rows) && PricingLaws.OwnIds(p)
    ensures (exists chosen :: Pricing.SelectionOk(p, chosen)) <==> OpenGroupsFit(groups)
  {
    CheckedBoundsFit(p, rows, groups, ids);
    SelectableExactly(p);
  }

  // ---- A payload that passes and cannot be answered ----

  const OneSide := OptionGroups.OptionInput(None, "Salad", 100, None, 0)

  /** At least two sides, of which there is one. */
  const TwoSides := OptionGroups.GroupInput(None, "Sides", false, 2, None, false, false, 0, [OneSide])

  lemma TwoSidesPass()
    ensures OptionGroups.PayloadOk([TwoSides]) && NamedOnce([TwoSides])
    ensures OptionGroups.ActiveCount(TwoSides.options) == 1
  {
    NotBlank("Salad");
    NotBlank("Sides");
    assert TwoSides.options[..0] == [];
    assert OptionGroups.ActiveCount(TwoSides.options) == OptionGroups.ActiveCount([]) + 1;
    assert OptionGroups.OptionOk(TwoSides.options[0]);
    assert OptionGroups.GroupOk(TwoSides);
  }

  lemma NotBlank(s: string)
    requires s != "" && !IsSpace(s[0]) && !IsSpace(s[|s| - 1])
    ensures Trim(s) == s
  {
  }

  /** So a product can be saved that nobody can ever order. */
  lemma CheckedProductsCanBeUnsellable() returns (groups: seq<OptionGroups.GroupInput>)
    ensures OptionGroups.PayloadOk(groups)
    ensures forall p, rows, ids, chosen ::
              OptionGroups.GroupsMatch(rows, groups, ids) && SavedProducts.Reads(p, rows) ==> Pricing.PriceItem(p, chosen).None?
  {
    groups := [TwoSides];
    TwoSidesPass();
    forall p, rows, ids, chosen | OptionGroups.GroupsMatch(rows, groups, ids) && SavedProducts.Reads(p, rows)
      ensures Pricing.PriceItem(p, chosen).None?
    {
      CheckedBoundsFit(p, rows, groups, ids);
      assert groups[0] == TwoSides && !OpenGroupsFit(groups);
      PricingLaws.AnswersAreOk(p, chosen);
      if PricingLaws.Answers(p, chosen) { AnsweredIsAnswerable(p, chosen); }
    }
  }
}
