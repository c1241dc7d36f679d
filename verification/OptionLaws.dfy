/** The rules of option groups in plain terms, and that what passes them can be stored. */
module OptionLaws {
  import opened Common
  import opened OptionGroups
  import SavedProducts

  // ---- The rules ----

  ghost predicate OptionPasses(o: OptionInput) {
    Trim(o.name) != "" && 0 <= o.sortOrder && -1_000_000 <= o.priceEffect <= 1_000_000
  }

  /** Options are active unless they say otherwise. */
  ghost function ActiveAt(options: seq<OptionInput>): set<nat> {
    set i: nat | i < |options| && (options[i].isActive == None || options[i].isActive == Some(true))
  }

  /** What a group must be like: with something to choose, bounds within that, and exactly one answer where it
      sets the price or has tiles. */
  ghost predicate GroupPasses(g: GroupInput) {
    && Trim(g.name) != "" && 0 <= g.sortOrder && |g.options| <= 20
    && (forall o :: o in g.options ==> OptionPasses(o))
    && (forall i, j :: 0 <= i < j < |g.options| ==> Trim(g.options[i].name) != Trim(g.options[j].name))
    && ActiveAt(g.options) != {} && 0 <= g.minSelect
    && (match g.maxSelect case None => !g.single case Some(max) => 1 <= max <= |ActiveAt(g.options)| && g.minSelect <= max && (g.single ==> max == 1))
    && (g.absolute || g.quickSaleTiles ==> g.single && g.minSelect == 1)
    && (g.absolute ==> forall o :: o in g.options ==> 0 <= o.priceEffect)
  }

  lemma ThreeAnswers(b: Option<bool>)
    ensures b == None || b == Some(true) || b == Some(false)
  {
    if b.Some? { assert b.value == true || b.value == false; }
  }

  lemma OneMoreActive(options: seq<OptionInput>, front: seq<OptionInput>)
    requires options != [] && front == options[..|options| - 1]
    ensures ActiveAt(options) == ActiveAt(front) + if IsActive(options[|front|]) then {|front|} else {}
    ensures |front| !in ActiveAt(front)
  {
    ThreeAnswers(options[|front|].isActive);
    assert forall i :: 0 <= i < |front| ==> front[i] == options[i];
  }

  lemma {:induction false} ActiveCountIsSize(options: seq<OptionInput>)
    ensures ActiveCount(options) == |ActiveAt(options)|
    decreases |options|
  {
    if options == [] {
      assert ActiveAt(options) == {};
    } else {
      ActiveCountIsSize(options[..|options| - 1]);
      OneMoreActive(options, options[..|options| - 1]);
    }
  }

  lemma OptionsPass(options: seq<OptionInput>)
    ensures OptionsOk(options)
            <==> (forall o :: o in options ==> OptionPasses(o)) && forall i, j :: 0 <= i < j < |options| ==> Trim(options[i].name) != Trim(options[j].name)
  {
    if forall o :: o in options ==> OptionPasses(o) {
      forall i | 0 <= i < |options| ensures OptionOk(options[i]) { assert options[i] in options; }
    }
    if OptionsOk(options) {
      forall o | o in options ensures OptionPasses(o) {
        var i :| 0 <= i < |options| && options[i] == o;
        assert OptionOk(options[i]);
      }
    }
  }

  lemma GroupPassesExactly(g: GroupInput)
    ensures GroupOk(g) <==> GroupPasses(g)
  {
    ActiveCountIsSize(g.options);
    OptionsPass(g.options);
    if forall o :: o in g.options ==> 0 <= o.priceEffect {
      forall i | 0 <= i < |g.options| ensures g.options[i].priceEffect >= 0 { assert g.options[i] in g.options; }
    }
  }

  /** At most ten groups of different names, one of which may set the price; tiles are its own then. */
  lemma PayloadPassesExactly(groups: seq<GroupInput>)
    ensures PayloadOk(groups)
            <==> |groups| <= 10 && (forall g :: g in groups ==> GroupPasses(g))
                 && (forall i, j :: 0 <= i < j < |groups| ==> Trim(groups[i].name) != Trim(groups[j].name))
                 && forall i, j :: 0 <= i < |groups| && 0 <= j < |groups| && i != j && (groups[i].absolute || groups[i].quickSaleTiles) ==>
                      !groups[j].absolute && !groups[j].quickSaleTiles
  {
    if forall g :: g in groups ==> GroupPasses(g) {
      forall i | 0 <= i < |groups| ensures GroupOk(groups[i]) { assert groups[i] in groups; GroupPassesExactly(groups[i]); }
    }
    if forall i :: 0 <= i < |groups| ==> GroupOk(groups[i]) {
      forall g | g in groups ensures GroupPasses(g) {
        var i :| 0 <= i < |groups| && groups[i] == g;
        GroupPassesExactly(groups[i]);
      }
    }
  }

  // ---- The rows ----

  /** The conditions that the table puts on the row of a group. */
  ghost predicate GroupRowMeetsChecks(r: GroupRow) {
    && r.name != "" && 0 <= r.sortOrder && 0 <= r.minSelect
    && (r.maxSelect.Some? ==> 1 <= r.maxSelect.value && r.minSelect <= r.maxSelect.value)
    && (r.isRequired <==> r.minSelect >= 1)
    && (r.single ==> r.maxSelect == Some(1) && r.minSelect <= 1)
    && (r.absolute || r.quickSaleTiles ==> r.single && r.isRequired)
  }

  ghost predicate OptionRowMeetsChecks(o: OptionRow) {
    o.name != "" && 0 <= o.sortOrder && -1_000_000 <= o.priceEffect <= 1_000_000
  }

  lemma GroupRowChecked(g: GroupInput, options: map<OptionId, OptionRow>)
    requires GroupOk(g)
    ensures GroupRowMeetsChecks(RowOf(g, options))
  {
  }

  lemma OptionRowsChecked(rows: map<OptionId, OptionRow>, g: GroupInput, placed: seq<OptionId>)
    requires GroupOk(g) && OptionsMatch(rows, g.options, placed)
    ensures forall o :: o in rows ==> OptionRowMeetsChecks(rows[o])
  {
    forall o | o in rows ensures OptionRowMeetsChecks(rows[o]) {
      var k := SavedProducts.LastOf(placed, o);
      assert OptionOk(g.options[k]) && rows[o] == OptionRowOf(g.options[k]);
    }
  }

  /** No row of a payload that passed is refused by the table's conditions on it. */
  lemma SavedRowsMeetChecks(rows: SavedProducts.Table, groups: seq<GroupInput>, ids: seq<GroupId>, id: GroupId)
    requires PayloadOk(groups) && GroupsMatch(rows, groups, ids) && id in rows
    ensures GroupRowMeetsChecks(rows[id])
    ensures DistinctIds(groups) ==> forall o :: o in rows[id].options ==> OptionRowMeetsChecks(rows[id].options[o])
  {
    var i := SavedProducts.LastOf(ids, id);
    assert GroupOk(groups[i]);
    GroupRowChecked(groups[i], rows[id].options);
    if DistinctIds(groups) {
      PlacedOnce(groups, ids, i);
      var placed := PlacesOf(rows[id], groups[i]);
      OptionRowsChecked(rows[id].options, groups[i], placed);
    }
  }

  lemma PlacesOf(r: GroupRow, g: GroupInput) returns (placed: seq<OptionId>)
    requires GroupMatches(r, g)
    ensures OptionsMatch(r.options, g.options, placed)
  {
    placed :| OptionsMatch(r.options, g.options, placed);
  }

  lemma PlacedOnce(groups: seq<GroupInput>, ids: seq<GroupId>, i: nat)
    requires GroupPlaces(groups, ids) && DistinctIds(groups) && i < |groups|
    ensures IsOnly(ids, i) && IsLast(ids, i)
  {
    assert Single(groups, i);
    forall k | 0 <= k < |ids| && k != i ensures ids[k] != ids[i] {
      if groups[i].id.None? { assert IsOnly(ids, i); } else if groups[k].id.None? { assert IsOnly(ids, k); }
    }
  }

  ghost predicate GroupEntered(r: GroupRow, g: GroupInput) {
    && r.name == Trim(g.name) && r.single == g.single && r.minSelect == g.minSelect && r.maxSelect == g.maxSelect
    && r.absolute == g.absolute && r.quickSaleTiles == g.quickSaleTiles && r.sortOrder == g.sortOrder
  }

  ghost predicate OptionEntered(rows: map<OptionId, OptionRow>, id: OptionId, o: OptionInput) {
    && id in rows && (o.id.Some? ==> id == o.id.value)
    && rows[id].name == Trim(o.name) && rows[id].priceEffect == o.priceEffect && rows[id].sortOrder == o.sortOrder
    && (rows[id].isActive <==> o.isActive == None || o.isActive == Some(true))
  }

  lemma OptionsEntered(rows: map<OptionId, OptionRow>, g: GroupInput, placed: seq<OptionId>, k: nat)
    requires OptionsMatch(rows, g.options, placed) && k < |placed| && IsLast(placed, k)
    ensures OptionEntered(rows, placed[k], g.options[k])
  {
    assert placed[k] in placed && rows[placed[k]] == OptionRowOf(g.options[k]);
    ThreeAnswers(g.options[k].isActive);
  }

  /** What is stored of a group, and of each of its options, is what was entered, names trimmed. */
  lemma StoredAsEntered(rows: SavedProducts.Table, groups: seq<GroupInput>, ids: seq<GroupId>, i: nat) returns (placed: seq<OptionId>)
    requires GroupsMatch(rows, groups, ids) && DistinctIds(groups) && i < |groups|
    ensures ids[i] in rows && (groups[i].id.Some? ==> ids[i] == groups[i].id.value) && GroupEntered(rows[ids[i]], groups[i])
    ensures |placed| == |groups[i].options|
    ensures forall k :: 0 <= k < |placed| && IsLast(placed, k) ==> OptionEntered(rows[ids[i]].options, placed[k], groups[i].options[k])
  {
    PlacedOnce(groups, ids, i);
    assert ids[i] in ids;
    placed := PlacesOf(rows[ids[i]], groups[i]);
    forall k | 0 <= k < |placed| && IsLast(placed, k) ensures OptionEntered(rows[ids[i]].options, placed[k], groups[i].options[k]) {
      OptionsEntered(rows[ids[i]].options, groups[i], placed, k);
    }
  }

  /** A payload may name the product's own groups, and of each only that group's own options. */
  lemma OwnIdsOnly(existing: map<GroupId, GroupRow>, groups: seq<GroupInput>)
    ensures IdsKnown(existing, groups)
            <==> forall g :: g in groups ==> NamesOwn(existing, g)
  {
    forall i | 0 <= i < |groups| ensures GroupKnown(existing, groups[i]) <==> NamesOwn(existing, groups[i]) { GroupNamesOwn(existing, groups[i]); }
    if IdsKnown(existing, groups) {
      forall g | g in groups ensures NamesOwn(existing, g) {
        var i :| 0 <= i < |groups| && groups[i] == g;
        assert GroupKnown(existing, groups[i]);
      }
    }
    if forall g :: g in groups ==> NamesOwn(existing, g) {
      forall i | 0 <= i < |groups| ensures GroupKnown(existing, groups[i]) { assert groups[i] in groups; }
    }
  }

  ghost predicate GroupKnown(existing: map<GroupId, GroupRow>, g: GroupInput) {
    && (g.id.Some? ==> g.id.value in existing)
    && OptionsKnown(if g.id.Some? && g.id.value in existing then existing[g.id.value].options else map[], g.options)
  }

  ghost predicate NamesOwn(existing: map<GroupId, GroupRow>, g: GroupInput) {
    && (g.id.Some? ==> g.id.value in existing)
    && forall o :: o in g.options && o.id.Some? ==> g.id.Some? && g.id.value in existing && o.id.value in existing[g.id.value].options
  }

  lemma GroupNamesOwn(existing: map<GroupId, GroupRow>, g: GroupInput)
    ensures GroupKnown(existing, g) <==> NamesOwn(existing, g)
  {
    if NamesOwn(existing, g) {
      forall k | 0 <= k < |g.options| && g.options[k].id.Some? ensures g.id.Some? && g.options[k].id.value in existing[g.id.value].options {
        assert g.options[k] in g.options;
      }
    }
  }
}
