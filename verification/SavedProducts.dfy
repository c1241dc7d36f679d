/**
 * From the option groups that were saved, or imported, to the products that sales are priced by: what
 * the checks of a group guarantee for every sale.
 */
module SavedProducts {
  import opened Common
  import ConfigTransfer
  import OptionGroups
  import Payments
  import Pricing
  import Replay

  type Table = map<OptionGroups.GroupId, OptionGroups.GroupRow>

  // ---- Reading a product ----

  ghost predicate ReadsOptions(options: seq<Pricing.Choice>, rows: map<OptionGroups.OptionId, OptionGroups.OptionRow>) {
    && (forall k :: 0 <= k < |options| ==>
          options[k].id in rows && options[k].effect == rows[options[k].id].priceEffect && options[k].active == rows[options[k].id].isActive)
    && (forall id :: id in rows ==> exists k :: 0 <= k < |options| && options[k].id == id)
    && (forall j, k :: 0 <= j < k < |options| ==> options[j].id != options[k].id)
  }

  ghost predicate ReadsGroup(g: Pricing.Group, row: OptionGroups.GroupRow) {
    && g.minSelect == row.minSelect && g.absolute == row.absolute
    && (g.maxSelect.Some? <==> row.maxSelect.Some?) && (g.maxSelect.Some? ==> g.maxSelect.value == row.maxSelect.value)
    && ReadsOptions(g.options, row.options)
  }

  /** The product's groups are the rows, in the order of `listing`. */
  ghost predicate Lists(p: Pricing.Product, rows: Table, listing: seq<OptionGroups.GroupId>) {
    && |listing| == |p.groups| && OptionGroups.Distinct(listing)
    && (forall id :: id in rows <==> id in listing)
    && (forall g :: 0 <= g < |listing| ==> ReadsGroup(p.groups[g], rows[listing[g]]))
  }

  /** A query without an order clause may list the rows in any order. */
  ghost predicate Reads(p: Pricing.Product, rows: Table) { exists listing :: Lists(p, rows, listing) }

  // ---- Saved groups ----

  /** What the table keeps through every save, whatever was in the payloads. */
  ghost predicate Sound(rows: Table) { OptionGroups.OneAbsolute(rows) && OptionGroups.PricesAskOnce(rows) }

  /** The rows are those of a payload that passed its check. */
  ghost predicate Saved(rows: Table) {
    exists groups, ids :: OptionGroups.PayloadOk(groups) && OptionGroups.GroupsMatch(rows, groups, ids)
  }

  lemma {:induction false} LastOf<T>(ids: seq<T>, id: T) returns (i: nat)
    requires id in ids
    ensures i < |ids| && ids[i] == id && OptionGroups.IsLast(ids, i)
    decreases |ids|
  {
    var last := |ids| - 1;
    if ids[last] == id {
      i := last;
    } else {
      i := LastOf(ids[..last], id);
      forall k | i < k < |ids| ensures ids[k] != ids[i] {
        if k < last { assert ids[..last][k] == ids[k]; }
      }
    }
  }

  lemma RowOfGroup(rows: Table, groups: seq<OptionGroups.GroupInput>, ids: seq<OptionGroups.GroupId>, id: OptionGroups.GroupId) returns (i: nat)
    requires OptionGroups.GroupsMatch(rows, groups, ids) && id in rows
    ensures i < |groups| && ids[i] == id
    ensures rows[id].absolute == groups[i].absolute && rows[id].minSelect == groups[i].minSelect && rows[id].maxSelect == groups[i].maxSelect
  {
    i := LastOf(ids, id);
    assert rows[id] == OptionGroups.RowOf(groups[i], rows[id].options);
  }

  lemma PricesAreAskedOnce(rows: Table, groups: seq<OptionGroups.GroupInput>, ids: seq<OptionGroups.GroupId>)
    requires OptionGroups.PayloadOk(groups) && OptionGroups.GroupsMatch(rows, groups, ids)
    ensures OptionGroups.PricesAskOnce(rows)
  {
    forall id | id in rows && rows[id].absolute ensures rows[id].minSelect == 1 && rows[id].maxSelect == Some(1) {
      var i := RowOfGroup(rows, groups, ids, id);
      assert OptionGroups.GroupOk(groups[i]);
    }
  }

  lemma OnePriceIsSet(rows: Table, groups: seq<OptionGroups.GroupInput>, ids: seq<OptionGroups.GroupId>)
    requires OptionGroups.RolesOk(groups) && OptionGroups.GroupsMatch(rows, groups, ids)
    ensures OptionGroups.OneAbsolute(rows)
  {
    forall a, b | a in rows && b in rows && rows[a].absolute && rows[b].absolute ensures a == b {
      var i := RowOfGroup(rows, groups, ids, a);
      var j := RowOfGroup(rows, groups, ids, b);
    }
  }

  lemma SavedIsSound(rows: Table)
    requires Saved(rows)
    ensures Sound(rows)
  {
    var groups: seq<OptionGroups.GroupInput>, ids: seq<OptionGroups.GroupId> :| OptionGroups.PayloadOk(groups) && OptionGroups.GroupsMatch(rows, groups, ids);
    PricesAreAskedOnce(rows, groups, ids);
    OnePriceIsSet(rows, groups, ids);
  }

  /** However its rows are listed, a saved product has at most one group that sets the price, and that
      group asks for one answer. */
  lemma SoundTablesPriceOnce(p: Pricing.Product, rows: Table)
    requires Sound(rows) && Reads(p, rows)
    ensures Pricing.OneAnswerSetsPrice(p)
  {
    var listing :| Lists(p, rows, listing);
    forall g, h | 0 <= g < h < |p.groups| ensures !(p.groups[g].absolute && p.groups[h].absolute) {
      assert listing[g] in rows && listing[h] in rows && listing[g] != listing[h];
      assert ReadsGroup(p.groups[g], rows[listing[g]]) && ReadsGroup(p.groups[h], rows[listing[h]]);
    }
    forall g | 0 <= g < |p.groups| && p.groups[g].absolute ensures p.groups[g].maxSelect == Some(1) {
      assert listing[g] in rows && ReadsGroup(p.groups[g], rows[listing[g]]);
    }
  }

  /** A product whose groups passed their check, or went through any sequence of saves: at most one
      answer of an accepted selection sets the price, so the stored item knows all that was chosen. */
  lemma SavedProductsLoseNothing(p: Pricing.Product, rows: Table, ids: seq<Pricing.OptionId>)
    requires (Saved(rows) || Sound(rows)) && Reads(p, rows) && Pricing.PriceItem(p, ids).Some?
    ensures multiset(Pricing.StoredIds(Pricing.PriceItem(p, ids).value)) == multiset(ids)
  {
    if Saved(rows) { SavedIsSound(rows); }
    SoundTablesPriceOnce(p, rows);
    Pricing.SoundProductsLoseNothing(p, ids);
    Pricing.StoredIdsAreChosen(p, ids);
  }

  /** Where the option groups of every product were checked before they were saved, every quick sale
      can be repeated safely: the same request is answered with the first answer. */
  lemma SavedCatalogsReplay(cat: Replay.Catalog, tables: map<nat, Table>, req: Replay.Request, pickup: Option<nat>)
    requires Replay.Sell(cat, req, pickup).Some?
    requires forall p :: p in cat ==> p in tables && (Saved(tables[p]) || Sound(tables[p])) && Reads(cat[p], tables[p])
    ensures var (stored, answer) := Replay.Sell(cat, req, pickup).value; Replay.ResolveIdempotent(stored, req) == Some(answer)
  {
    forall p | p in cat ensures Pricing.OneAnswerSetsPrice(cat[p]) {
      if Saved(tables[p]) { SavedIsSound(tables[p]); }
      SoundTablesPriceOnce(cat[p], tables[p]);
    }
    Replay.OnePriceCatalogsReplay(cat, req, pickup);
  }

  // ---- Imported groups ----

  ghost predicate ReadsArticle(p: Pricing.Product, a: ConfigTransfer.Article) {
    && |p.groups| == |a.groups|
    && forall g :: 0 <= g < |p.groups| ==>
         p.groups[g].absolute == a.groups[g].absolute
         && (p.groups[g].maxSelect.Some? <==> a.groups[g].maxSelect.Some?)
         && (p.groups[g].maxSelect.Some? ==> p.groups[g].maxSelect.value == a.groups[g].maxSelect.value)
  }

  /** The check of an imported document guarantees the same as saving does. */
  lemma ImportedArticlesPriceOnce(p: Pricing.Product, doc: ConfigTransfer.Document, i: nat)
    requires ConfigTransfer.ValidateImport(doc).Some? && i < |doc.products| && ReadsArticle(p, doc.products[i].article)
    ensures Pricing.OneAnswerSetsPrice(p)
  {
    assert ConfigTransfer.ProductDocOk(doc, doc.products[i]);
    var a := doc.products[i].article;
    forall g, h | 0 <= g < h < |p.groups| ensures !(p.groups[g].absolute && p.groups[h].absolute) {
      assert !(a.groups[g].absolute && a.groups[h].absolute);
    }
    forall g | 0 <= g < |p.groups| && p.groups[g].absolute ensures p.groups[g].maxSelect == Some(1) {
      assert ConfigTransfer.GroupOk(a.groups[g]);
    }
  }

  // ---- Without the checks ----

  const First := Pricing.Choice(1, 400, true)
  const Second := Pricing.Choice(2, 500, true)

  /** Two groups that both set the price. */
  const TwoPrices := Pricing.Product(0, 300, 0, [Pricing.Group(1, Some(1), true, [First]), Pricing.Group(1, Some(1), true, [Second])])

  lemma BothAnswersAreFound()
    ensures Pricing.Find(TwoPrices.groups, 1) == Some(Pricing.Hit(0, First))
    ensures Pricing.Find(TwoPrices.groups, 2) == Some(Pricing.Hit(1, Second))
  {
    var groups := TwoPrices.groups;
    assert [Second][1..] == [] && groups[..1] == [groups[0]];
    assert Pricing.FindIn(groups[1].options, 1) == Pricing.FindIn([], 1);
    assert Pricing.Find(groups, 1) == Pricing.Find(groups[..1], 1);
  }

  lemma BothAnswersSetThePrice()
    ensures Pricing.Collected(TwoPrices, [1, 2]) == [Pricing.Entry(0, [1]), Pricing.Entry(1, [2])]
    ensures Pricing.PriceItem(TwoPrices, [1, 2]) == Some(Pricing.Priced(500, Some(2), []))
    ensures |Pricing.Absolutes(TwoPrices, [1, 2])| == 2
  {
    BothAnswersAreFound();
    var one, two := Pricing.Entry(0, [1]), Pricing.Entry(1, [2]);
    assert [1, 2][..1] == [1] && [1][..0] == [];
    assert Pricing.Collected(TwoPrices, [1]) == Pricing.Put([], 0, 1) == [one];
    assert Pricing.Put([one], 1, 2) == [one] + Pricing.Put([one][1..], 1, 2) == [one, two];
    var entries := [one, two];
    assert entries[1..] == [two] && [two][1..] == [];
    assert Pricing.CountOf(entries, 0) == 1 && Pricing.CountOf(entries, 1) == 1;
    assert Pricing.VariantOf(TwoPrices, [two]) == Some(2);
    assert Pricing.Part(TwoPrices, [two], true) == [2] + Pricing.Part(TwoPrices, [], true);
    assert Pricing.Part(TwoPrices, entries, true) == [1] + Pricing.Part(TwoPrices, [two], true);
    assert Pricing.Part(TwoPrices, entries, false) == Pricing.Part(TwoPrices, [two], false) == Pricing.Part(TwoPrices, [], false) == [];
    assert Pricing.Effect(TwoPrices, 2) == 500;
  }

  /** Where two of a product's groups set the price, the unique index refuses its rows. */
  lemma TwoPricesAreRefused(p: Pricing.Product, rows: Table)
    requires |p.groups| == 2 && p.groups[0].absolute && p.groups[1].absolute && Reads(p, rows)
    ensures !OptionGroups.IndexesHold(rows)
  {
    var listing :| Lists(p, rows, listing);
    assert ReadsGroup(p.groups[0], rows[listing[0]]) && ReadsGroup(p.groups[1], rows[listing[1]]);
    assert listing[0] in rows && listing[1] in rows && listing[0] != listing[1];
  }

  /** What the checks are for: of two answers that set the price only the second would be stored, and
      the sale would not recognise its own repetition.  No table with its indexes holds such a product. */
  lemma TwoPricesAreNotRecognised() returns (cat: Replay.Catalog, req: Replay.Request)
    ensures Replay.Sell(cat, req, None).Some? && Replay.ResolveIdempotent(Replay.Sell(cat, req, None).value.0, req).None?
    ensures 0 in cat && forall rows: Table :: Reads(cat[0], rows) ==> !OptionGroups.IndexesHold(rows)
  {
    cat := map[0 := TwoPrices];
    var line := Replay.Wanted(0, 1, [1, 2]);
    req := Replay.Request(0, 0, None, [line], Payments.CARD, None, 0);
    BothAnswersSetThePrice();
    SoldAtTheSecondPrice(cat, line, req);
    Replay.OwnLinesRecognised(cat, req, None);
    assert Replay.PriceAnswers(cat, req.lines[0]) == 2;
    forall rows: Table | Reads(cat[0], rows) ensures !OptionGroups.IndexesHold(rows) { TwoPricesAreRefused(cat[0], rows); }
  }

  lemma SoldAtTheSecondPrice(cat: Replay.Catalog, line: Replay.Wanted, req: Replay.Request)
    requires cat == map[0 := TwoPrices] && line == Replay.Wanted(0, 1, [1, 2])
    requires req == Replay.Request(0, 0, None, [line], Payments.CARD, None, 0)
    ensures Replay.Sell(cat, req, None).Some?
  {
    BothAnswersSetThePrice();
    var item := Replay.StoredItem(0, 1, 500, 0, Some(2), []);
    assert Replay.ItemOf(cat, line) == Some(item);
    assert [line][1..] == [] && [item][1..] == [];
    assert Replay.Items(cat, []) == Some([]);
    assert Replay.Items(cat, [line]) == Some([item] + []) && [item] + [] == [item];
    assert Replay.GrossOf([item]) == 500 + Replay.GrossOf([]);
    assert Replay.Units([line]) == 1 + Replay.Units([]);
  }
}
