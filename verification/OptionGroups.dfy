/**
 * The option groups of one product: checking a payload and bringing the stored groups in line with
 * it, statement by statement, under the two partial unique indexes of the table.
 */
module OptionGroups {
  import opened Common

  type GroupId = nat
  type OptionId = nat

  const MAX_GROUPS_PER_PRODUCT := 10
  const MAX_OPTIONS_PER_GROUP := 20
  const MAX_PRICE_EFFECT := 1_000_000

  datatype OptionInput = OptionInput(id: Option<OptionId>, name: string, priceEffect: int, isActive: Option<bool>, sortOrder: int)

  datatype GroupInput = GroupInput(
    id: Option<GroupId>, name: string, single: bool, minSelect: int, maxSelect: Option<int>,
    absolute: bool, quickSaleTiles: bool, sortOrder: int, options: seq<OptionInput>)

  datatype OptionRow = OptionRow(name: string, priceEffect: int, isActive: bool, sortOrder: int)

  datatype GroupRow = GroupRow(
    name: string, single: bool, isRequired: bool, minSelect: int, maxSelect: Option<int>,
    absolute: bool, quickSaleTiles: bool, sortOrder: int, options: map<OptionId, OptionRow>)

  // ---- The rules of a payload ----

  predicate OptionOk(o: OptionInput) {
    Trim(o.name) != "" && o.sortOrder >= 0 && -MAX_PRICE_EFFECT <= o.priceEffect <= MAX_PRICE_EFFECT
  }

  predicate IsActive(o: OptionInput) { o.isActive != Some(false) }

  function ActiveCount(options: seq<OptionInput>): nat {
    if options == [] then 0 else ActiveCount(options[..|options| - 1]) + if IsActive(options[|options| - 1]) then 1 else 0
  }

  ghost predicate OptionsOk(options: seq<OptionInput>) {
    && (forall i :: 0 <= i < |options| ==> OptionOk(options[i]))
    && (forall i, j :: 0 <= i < j < |options| ==> Trim(options[i].name) != Trim(options[j].name))
  }

  predicate BoundsOk(g: GroupInput) {
    && Trim(g.name) != "" && |g.options| <= MAX_OPTIONS_PER_GROUP && g.sortOrder >= 0 && g.minSelect >= 0
    && (g.maxSelect.Some? ==> g.maxSelect.value >= 1 && g.maxSelect.value >= g.minSelect)
    && (g.single ==> g.maxSelect == Some(1) && g.minSelect <= 1)
  }

  /** A group that sets the price, or has its own quick-sale tiles, asks for exactly one answer. */
  predicate RoleOk(g: GroupInput) {
    && (g.absolute ==> g.single && g.minSelect >= 1)
    && (g.quickSaleTiles ==> g.single && g.minSelect >= 1)
  }

  ghost predicate GroupOk(g: GroupInput) {
    && BoundsOk(g) && RoleOk(g) && OptionsOk(g.options)
    && ActiveCount(g.options) > 0 && (g.maxSelect.Some? ==> g.maxSelect.value <= ActiveCount(g.options))
    && (g.absolute ==> forall i :: 0 <= i < |g.options| ==> g.options[i].priceEffect >= 0)
  }

  ghost predicate PayloadOk(groups: seq<GroupInput>) {
    && |groups| <= MAX_GROUPS_PER_PRODUCT
    && (forall i :: 0 <= i < |groups| ==> GroupOk(groups[i]))
    && (forall i, j :: 0 <= i < j < |groups| ==> Trim(groups[i].name) != Trim(groups[j].name))
    && RolesOk(groups)
  }

  method AllDifferent(names: seq<string>) returns (ok: bool)
    ensures ok <==> forall i, j :: 0 <= i < j < |names| ==> names[i] != names[j]
  {
    var seen: set<string> := {};
    for i := 0 to |names|
      invariant forall j :: 0 <= j < i ==> names[j] in seen
      invariant forall n :: n in seen ==> exists j :: 0 <= j < i && names[j] == n
      invariant forall j, k :: 0 <= j < k < i ==> names[j] != names[k]
    {
      if names[i] in seen { return false; }
      seen := seen + {names[i]};
    }
    return true;
  }

  method ValidateOptions(options: seq<OptionInput>) returns (active: Option<nat>)
    ensures active.Some? <==> OptionsOk(options)
    ensures active.Some? ==> active.value == ActiveCount(options)
  {
    var count := 0;
    for i := 0 to |options|
      invariant forall j :: 0 <= j < i ==> OptionOk(options[j])
      invariant count == ActiveCount(options[..i])
    {
      if !OptionOk(options[i]) { return None; }
      assert options[..i + 1][..i] == options[..i];
      if IsActive(options[i]) { count := count + 1; }
    }
    assert options[..|options|] == options;
    var names := seq(|options|, i requires 0 <= i < |options| => Trim(options[i].name));
    var different := AllDifferent(names);
    if !different {
      ghost var i, j :| 0 <= i < j < |names| && names[i] == names[j];
      assert Trim(options[i].name) == Trim(options[j].name);
      return None;
    }
    forall i, j | 0 <= i < j < |options| ensures Trim(options[i].name) != Trim(options[j].name) {
      assert names[i] != names[j];
    }
    return Some(count);
  }

  method ValidateGroup(g: GroupInput) returns (ok: bool)
    ensures ok <==> GroupOk(g)
  {
    if !BoundsOk(g) { return false; }
    var active := ValidateOptions(g.options);
    if active.None? || active.value == 0 || (g.maxSelect.Some? && g.maxSelect.value > active.value) { return false; }
    if !RoleOk(g) { return false; }
    return !(g.absolute && exists i :: 0 <= i < |g.options| && g.options[i].priceEffect < 0);
  }

  method ValidateOptionGroupsPayload(groups: seq<GroupInput>) returns (ok: bool)
    ensures ok <==> PayloadOk(groups)
  {
    if |groups| > MAX_GROUPS_PER_PRODUCT { return false; }
    for i := 0 to |groups|
      invariant forall j :: 0 <= j < i ==> GroupOk(groups[j])
    {
      var valid := ValidateGroup(groups[i]);
      if !valid { return false; }
    }
    var names := seq(|groups|, i requires 0 <= i < |groups| => Trim(groups[i].name));
    var different := AllDifferent(names);
    if !different {
      ghost var i, j :| 0 <= i < j < |names| && names[i] == names[j];
      assert Trim(groups[i].name) == Trim(groups[j].name);
      return false;
    }
    forall i, j | 0 <= i < j < |groups| ensures Trim(groups[i].name) != Trim(groups[j].name) {
      assert names[i] != names[j];
    }
    ok := RolesAreUnique(groups);
  }

  ghost predicate RolesOk(groups: seq<GroupInput>) {
    && (forall i, j :: 0 <= i < j < |groups| ==> !(groups[i].absolute && groups[j].absolute))
    && (forall i, j :: 0 <= i < j < |groups| ==> !(groups[i].quickSaleTiles && groups[j].quickSaleTiles))
    && (forall i, j :: 0 <= i < |groups| && 0 <= j < |groups| && groups[i].absolute && groups[j].quickSaleTiles ==> i == j)
  }

  method RolesAreUnique(groups: seq<GroupInput>) returns (ok: bool)
    ensures ok <==> RolesOk(groups)
  {
    var absolutes := seq(|groups|, i requires 0 <= i < |groups| => groups[i].absolute);
    var tiles := seq(|groups|, i requires 0 <= i < |groups| => groups[i].quickSaleTiles);
    var absoluteCount, absoluteAt := CountMarks(absolutes);
    var tilesCount, tilesAt := CountMarks(tiles);
    MarksAreRoles(groups, absolutes, tiles);
    if absoluteCount > 1 || tilesCount > 1 { return false; }
    return !(absoluteCount == 1 && tilesCount == 1 && absoluteAt != tilesAt);
  }

  ghost predicate AtMostOne(marks: seq<bool>) {
    forall j, k :: 0 <= j < k < |marks| ==> !(marks[j] && marks[k])
  }

  lemma MarksAreRoles(groups: seq<GroupInput>, absolutes: seq<bool>, tiles: seq<bool>)
    requires |absolutes| == |tiles| == |groups|
    requires forall i :: 0 <= i < |groups| ==> absolutes[i] == groups[i].absolute && tiles[i] == groups[i].quickSaleTiles
    ensures RolesOk(groups) <==> AtMostOne(absolutes) && AtMostOne(tiles)
                                 && forall i, j :: 0 <= i < |groups| && 0 <= j < |groups| && absolutes[i] && tiles[j] ==> i == j
  {
    if AtMostOne(absolutes) && AtMostOne(tiles) {
      forall i, j | 0 <= i < j < |groups|
        ensures !(groups[i].absolute && groups[j].absolute) && !(groups[i].quickSaleTiles && groups[j].quickSaleTiles)
      {
        assert !(absolutes[i] && absolutes[j]) && !(tiles[i] && tiles[j]);
      }
    }
    if RolesOk(groups) {
      forall i, j | 0 <= i < |groups| && 0 <= j < |groups| && absolutes[i] && tiles[j] ensures i == j {
        assert groups[i].absolute && groups[j].quickSaleTiles;
      }
    }
  }

  /** How many marks are set, and where the last one is. */
  method CountMarks(marks: seq<bool>) returns (count: nat, at: Option<nat>)
    ensures count <= 1 <==> AtMostOne(marks)
    ensures count == 0 <==> forall j :: 0 <= j < |marks| ==> !marks[j]
    ensures at.Some? <==> count > 0
    ensures at.Some? ==> at.value < |marks| && marks[at.value]
  {
    count, at := 0, None;
    for i := 0 to |marks|
      invariant count == 0 <==> forall j :: 0 <= j < i ==> !marks[j]
      invariant count <= 1 <==> forall j, k :: 0 <= j < k < i ==> !(marks[j] && marks[k])
      invariant at.Some? <==> count > 0
      invariant at.Some? ==> at.value < i && marks[at.value]
    {
      if marks[i] { count, at := count + 1, Some(i); }
    }
  }

  // ---- The table ----

  ghost predicate OneAbsolute(rows: map<GroupId, GroupRow>) {
    forall a, b :: a in rows && b in rows && rows[a].absolute && rows[b].absolute ==> a == b
  }

  ghost predicate OneTiled(rows: map<GroupId, GroupRow>) {
    forall a, b :: a in rows && b in rows && rows[a].quickSaleTiles && rows[b].quickSaleTiles ==> a == b
  }

  /** What the two unique indexes demand after every statement. */
  ghost predicate IndexesHold(rows: map<GroupId, GroupRow>) { OneAbsolute(rows) && OneTiled(rows) }

  predicate AsksOnce(g: GroupInput) { g.absolute ==> g.minSelect == 1 && g.maxSelect == Some(1) }

  /** Price-setting groups ask for exactly one answer. */
  ghost predicate PricesAskOnce(rows: map<GroupId, GroupRow>) {
    forall id :: id in rows && rows[id].absolute ==> rows[id].minSelect == 1 && rows[id].maxSelect == Some(1)
  }

  function RowOf(g: GroupInput, options: map<OptionId, OptionRow>): GroupRow {
    GroupRow(Trim(g.name), g.single, g.minSelect >= 1, g.minSelect, g.maxSelect, g.absolute, g.quickSaleTiles, g.sortOrder, options)
  }

  function OptionRowOf(o: OptionInput): OptionRow {
    OptionRow(Trim(o.name), o.priceEffect, o.isActive != Some(false), o.sortOrder)
  }

  function Neutral(r: GroupRow): GroupRow { r.(absolute := false, quickSaleTiles := false) }

  ghost predicate Distinct<T>(ids: seq<T>) {
    forall i, j :: 0 <= i < j < |ids| ==> ids[i] != ids[j]
  }

  /** No later entry went to the same row. */
  ghost predicate IsLast<T>(ids: seq<T>, i: nat)
    requires i < |ids|
  {
    forall k :: i < k < |ids| ==> ids[k] != ids[i]
  }

  ghost predicate IsOnly<T>(ids: seq<T>, i: nat)
    requires i < |ids|
  {
    forall k :: 0 <= k < |ids| && k != i ==> ids[k] != ids[i]
  }

  /** Each entry of the payload went to a row: under its own id, or to a new row of its own. */
  ghost predicate OptionPlaces(options: seq<OptionInput>, ids: seq<OptionId>) {
    && |ids| == |options|
    && forall i :: 0 <= i < |ids| ==> if options[i].id.Some? then ids[i] == options[i].id.value else IsOnly(ids, i)
  }

  /** The stored options are exactly those of the payload, known ones under their old ids; an id that
      the payload repeats has its last entry. */
  ghost predicate OptionsMatch(rows: map<OptionId, OptionRow>, options: seq<OptionInput>, ids: seq<OptionId>) {
    && OptionPlaces(options, ids)
    && (forall id :: id in rows <==> id in ids)
    && (forall i :: 0 <= i < |ids| && IsLast(ids, i) ==> rows[ids[i]] == OptionRowOf(options[i]))
  }

  ghost predicate GroupMatches(row: GroupRow, g: GroupInput) {
    row == RowOf(g, row.options) && exists ids :: OptionsMatch(row.options, g.options, ids)
  }

  ghost predicate GroupPlaces(groups: seq<GroupInput>, ids: seq<GroupId>) {
    && |ids| == |groups|
    && forall i :: 0 <= i < |ids| ==> if groups[i].id.Some? then ids[i] == groups[i].id.value else IsOnly(ids, i)
  }

  /** The stored groups are exactly those of the payload; an id that the payload repeats has the fields
      of its last entry.  Where it does not repeat it, the options are those of the entry, too. */
  ghost predicate GroupsMatch(rows: map<GroupId, GroupRow>, groups: seq<GroupInput>, ids: seq<GroupId>) {
    && GroupPlaces(groups, ids)
    && (forall id :: id in rows <==> id in ids)
    && (forall i :: 0 <= i < |ids| && IsLast(ids, i) ==> rows[ids[i]] == RowOf(groups[i], rows[ids[i]].options))
    && (forall i :: 0 <= i < |ids| && IsOnly(ids, i) ==> GroupMatches(rows[ids[i]], groups[i]))
  }

  /** No other entry of the payload names the same group. */
  predicate Single(groups: seq<GroupInput>, i: nat)
    requires i < |groups|
  {
    groups[i].id.Some? ==> forall k :: 0 <= k < |groups| && k != i ==> groups[k].id != groups[i].id
  }

  predicate DistinctIds(groups: seq<GroupInput>) {
    forall i :: 0 <= i < |groups| ==> Single(groups, i)
  }

  /** Every id the payload mentions belongs to this product, or to that group of it. */
  predicate OptionsKnown(existing: map<OptionId, OptionRow>, options: seq<OptionInput>) {
    forall i :: 0 <= i < |options| && options[i].id.Some? ==> options[i].id.value in existing
  }

  predicate IdsKnown(existing: map<GroupId, GroupRow>, groups: seq<GroupInput>) {
    forall i :: 0 <= i < |groups| ==>
      && (groups[i].id.Some? ==> groups[i].id.value in existing)
      && OptionsKnown(if groups[i].id.Some? && groups[i].id.value in existing then existing[groups[i].id.value].options else map[], groups[i].options)
  }

  datatype SaveError = InvalidPayload | ForeignId | RowMissing | IndexViolated

  /** What the table keeps through every statement, with the ids given out so far. */
  ghost predicate TableOk(rows: map<GroupId, GroupRow>, next: nat) {
    IndexesHold(rows) && PricesAskOnce(rows) && (forall id :: id in rows ==> id < next && forall o :: o in rows[id].options ==> o < next)
  }

  class OptionGroupTable {
    var rows: map<GroupId, GroupRow>
    var nextId: nat   // ids below have been given out

    ghost predicate Valid()
      reads this
    {
      TableOk(rows, nextId)
    }

    /** The options of one group: those read before and no longer wanted go, then one statement per
        entry; an UPDATE of a row that is gone fails. */
    method SaveOptions(current: map<OptionId, OptionRow>, existing: map<OptionId, OptionRow>, options: seq<OptionInput>)
        returns (saved: Option<map<OptionId, OptionRow>>)
      requires forall o :: o in current ==> o < nextId
      modifies this`nextId
      ensures nextId >= old(nextId)
      ensures saved.Some? ==> forall o :: o in saved.value ==> o < nextId
      ensures current == existing && OptionsKnown(existing, options) ==>
        saved.Some? && exists ids :: OptionsMatch(saved.value, options, ids)
    {
      var keep := set i | 0 <= i < |options| && options[i].id.Some? :: options[i].id.value;
      var rows: map<OptionId, OptionRow> := map o | o in current && (o in keep || o !in existing) :: current[o];
      ghost var ids: seq<OptionId> := [];
      ghost var plain := current == existing && OptionsKnown(existing, options);
      ghost var first := nextId;
      assert plain ==> OptionsSaved(rows, options, [], keep, first, nextId);
      for i := 0 to |options|
        invariant first == old(nextId) <= nextId && forall o :: o in rows ==> o < nextId
        invariant |ids| == i
        invariant plain ==> OptionsSaved(rows, options, ids, keep, first, nextId)
      {
        var option := options[i];
        if option.id.Some? {
          assert option.id.value in keep;
          if option.id.value !in rows { return None; }
          if plain { OptionStep(rows, options, ids, keep, first, nextId, option.id.value, nextId); }
          rows := rows[option.id.value := OptionRowOf(option)];
          ids := ids + [option.id.value];
        } else {
          if plain { OptionStep(rows, options, ids, keep, first, nextId, nextId, nextId + 1); }
          rows := rows[nextId := OptionRowOf(option)];
          ids := ids + [nextId];
          nextId := nextId + 1;
        }
      }
      if plain { OptionsAreSaved(rows, options, ids, keep, first, nextId); }
      return Some(rows);
    }

    /** One UPDATE or INSERT: the database refuses a row that breaks an index. */
    method WriteRow(id: GroupId, row: GroupRow) returns (ok: bool)
      modifies this`rows
      ensures ok <==> Fits(old(rows), id, row.absolute, row.quickSaleTiles)
      ensures rows == if ok then old(rows)[id := row] else old(rows)
    {
      if exists a :: a in rows && a != id && ((row.absolute && rows[a].absolute) || (row.quickSaleTiles && rows[a].quickSaleTiles)) {
        return false;
      }
      rows := rows[id := row];
      return true;
    }

    /** Writes one payload group: its row first, then its options. */
    method SaveGroup(existing: map<GroupId, GroupRow>, g: GroupInput) returns (error: Option<SaveError>, id: GroupId)
      requires g.id.Some? ==> g.id.value in existing && g.id.value in rows
      requires Valid() && AsksOnce(g)
      modifies this
      ensures id == if g.id.Some? then g.id.value else old(nextId)
      ensures nextId >= old(nextId) && (g.id.None? && error.None? ==> nextId > id)
      ensures error == Some(IndexViolated) ==> !Fits(old(rows), id, g.absolute, g.quickSaleTiles)
      ensures error.None? ==> Valid() && id in rows && rows == old(rows)[id := rows[id]] && rows[id] == RowOf(g, rows[id].options)
      ensures Fits(old(rows), id, g.absolute, g.quickSaleTiles) && OptionsOf(old(rows), g) == OptionsOf(existing, g) ==>
        (error.None? <==> OptionsKnown(OptionsOf(existing, g), g.options)) && (error.None? ==> GroupMatches(rows[id], g))
    {
      id := if g.id.Some? then g.id.value else nextId;
      var before, current := OptionsOf(existing, g), OptionsOf(rows, g);
      if exists i :: 0 <= i < |g.options| && g.options[i].id.Some? && g.options[i].id.value !in before { return Some(ForeignId), id; }
      ghost var table, next := rows, nextId;
      var written := WriteRow(id, RowOf(g, current));
      if !written { return Some(IndexViolated), id; }
      if g.id.None? { nextId := nextId + 1; }
      var options := SaveOptions(current, before, g.options);
      if options.None? { return Some(RowMissing), id; }
      rows := rows[id := RowOf(g, options.value)];
      assert rows == table[id := RowOf(g, options.value)];
      RowKeepsTable(table, id, g, options.value, next, nextId);
      return None, id;
    }

    /** Group by group, in payload order, after the marks were taken off. */
    method WriteGroups(existing: map<GroupId, GroupRow>, groups: seq<GroupInput>) returns (error: Option<SaveError>, ghost ids: seq<GroupId>)
      requires Valid() && RolesOk(groups) && forall i :: 0 <= i < |groups| ==> AsksOnce(groups[i])
      requires Kept(groups) <= existing.Keys && Progress(rows, groups, [], nextId, nextId) && Untouched(rows, existing, groups, 0)
      modifies this
      ensures error != Some(IndexViolated)
      ensures DistinctIds(groups) ==> (error.None? <==> forall i :: 0 <= i < |groups| ==> KnownOptions(existing, groups[i]))
      ensures error.None? ==> Valid() && |ids| == |groups|
      ensures error.None? ==> Progress(rows, groups, ids, old(nextId), nextId) && Faithful(rows, existing, groups, ids)
    {
      ids := [];
      ghost var first := nextId;
      for i := 0 to |groups|
        invariant Valid() && nextId >= first == old(nextId) && |ids| == i
        invariant Progress(rows, groups, ids, first, nextId)
        invariant Faithful(rows, existing, groups, ids)
      {
        var g := groups[i];
        ghost var table := rows;
        assert g.id.Some? ==> g.id.value in Kept(groups);
        NextRowFits(rows, groups, ids, if g.id.Some? then g.id.value else nextId);
        ghost var idsBefore, next := ids, nextId;
        var id: GroupId;
        error, id := SaveGroup(existing, g);
        if error.Some? { return; }
        ids := ids + [id];
        ProgressStep(table, groups, idsBefore, first, next, nextId, id, rows[id]);
        FaithfulStep(table, existing, groups, idsBefore, first, next, id, rows[id]);
      }
      error := None;
    }

    /** One DELETE of the groups that are gone, one UPDATE that takes both marks off the others. */
    method DeleteAndClear(groups: seq<GroupInput>)
      requires Valid() && Kept(groups) <= rows.Keys
      modifies this`rows
      ensures Valid() && Progress(rows, groups, [], nextId, nextId) && Untouched(rows, old(rows), groups, 0)
    {
      ghost var before := rows;
      var keep := Kept(groups);
      rows := map id | id in rows && id in keep :: rows[id];
      rows := map id | id in rows :: Neutral(rows[id]);
      assert rows == Cleared(before, groups);
      ClearedStarts(before, groups, nextId);
    }

    /** Deletes what is gone, takes both marks off every kept group, then writes group by group.  No
        order of a valid payload ever breaks an index, and the rows end as the payload's. */
    method SaveOptionGroups(groups: seq<GroupInput>) returns (r: Option<SaveError>)
      requires Valid()
      modifies this
      ensures r.Some? ==> rows == old(rows)
      ensures r != Some(IndexViolated)
      ensures r.None? ==> Valid() && PayloadOk(groups) && exists ids :: GroupsMatch(rows, groups, ids)
      ensures DistinctIds(groups) ==> (r.None? <==> PayloadOk(groups) && IdsKnown(old(rows), groups))
    {
      var valid := ValidateOptionGroupsPayload(groups);
      if !valid { return Some(InvalidPayload); }
      var existing := rows;
      if exists i :: 0 <= i < |groups| && groups[i].id.Some? && groups[i].id.value !in existing { return Some(ForeignId); }
      DeleteAndClear(groups);
      forall i | 0 <= i < |groups| ensures AsksOnce(groups[i]) { assert GroupOk(groups[i]); }
      ghost var ids;
      r, ids := WriteGroups(existing, groups);
      KnownIds(existing, groups);
      if r.Some? {
        rows := existing;
        return;
      }
      FaithfulMatches(rows, existing, groups, ids, old(nextId), nextId);
    }
  }

  ghost function Cleared(rows: map<GroupId, GroupRow>, groups: seq<GroupInput>): map<GroupId, GroupRow> {
    map id | id in rows && id in Kept(groups) :: Neutral(rows[id])
  }

  lemma ClearedStarts(rows: map<GroupId, GroupRow>, groups: seq<GroupInput>, next: nat)
    requires TableOk(rows, next) && Kept(groups) <= rows.Keys
    ensures TableOk(Cleared(rows, groups), next)
    ensures Progress(Cleared(rows, groups), groups, [], next, next) && Untouched(Cleared(rows, groups), rows, groups, 0)
  {
    forall j | 0 <= j < |groups| && groups[j].id.Some? ensures groups[j].id.value in Kept(groups) { }
  }

  lemma RowKeepsTable(table: map<GroupId, GroupRow>, id: GroupId, g: GroupInput, options: map<OptionId, OptionRow>, next: nat, next': nat)
    requires TableOk(table, next) && Fits(table, id, g.absolute, g.quickSaleTiles) && AsksOnce(g)
    requires next <= next' && id < next' && forall o :: o in options ==> o < next'
    ensures TableOk(table[id := RowOf(g, options)], next')
  {
    FittingKeepsIndexes(table, id, RowOf(g, options));
  }

  // ---- What the loop over the options keeps ----

  ghost predicate OptionsSaved(rows: map<OptionId, OptionRow>, options: seq<OptionInput>, ids: seq<OptionId>, keep: set<OptionId>, first: nat, next: nat) {
    && |ids| <= |options| && (forall o :: o in keep ==> o < first)
    && (forall o :: o in rows <==> o in keep || o in ids)
    && (forall j :: 0 <= j < |ids| ==> Place(options[j].id, ids, j, keep, first, next))
    && (forall j :: 0 <= j < |ids| && IsLast(ids, j) ==> rows[ids[j]] == OptionRowOf(options[j]))
  }

  lemma PlacedNext<T>(ids: seq<T>, id: T, j: nat)
    requires j < |ids|
    ensures IsLast(ids + [id], j) <==> IsLast(ids, j) && ids[j] != id
    ensures IsOnly(ids + [id], j) <==> IsOnly(ids, j) && ids[j] != id
  {
    var ids' := ids + [id];
    assert ids'[|ids|] == id;
    if IsLast(ids', j) {
      forall k | j < k < |ids| ensures ids[k] != ids[j] { assert ids'[k] == ids[k]; }
    }
    if IsOnly(ids', j) {
      forall k | 0 <= k < |ids| && k != j ensures ids[k] != ids[j] { assert ids'[k] == ids[k]; }
    }
  }

  /** An entry's row is the one it names, among the kept ones, or a new one of its own. */
  ghost predicate Place(named: Option<nat>, ids: seq<nat>, j: nat, keep: set<nat>, first: nat, next: nat)
    requires j < |ids|
  {
    if named.Some? then ids[j] == named.value && ids[j] in keep else first <= ids[j] < next && IsOnly(ids, j)
  }

  lemma PlaceStays(named: Option<nat>, ids: seq<nat>, j: nat, keep: set<nat>, first: nat, next: nat, id: nat, next': nat)
    requires j < |ids| && Place(named, ids, j, keep, first, next) && first <= next <= next'
    requires forall k :: k in keep ==> k < first
    requires id in keep || id == next
    ensures Place(named, ids + [id], j, keep, first, next')
  {
    PlacedNext(ids, id, j);
  }

  lemma PlaceIsNew(ids: seq<nat>, keep: set<nat>, first: nat, next: nat, next': nat)
    requires forall j :: 0 <= j < |ids| ==> ids[j] in keep || ids[j] < next
    requires (forall k :: k in keep ==> k < first) && first <= next < next'
    ensures Place(None, ids + [next], |ids|, keep, first, next')
  {
  }

  lemma NextIsPlaced(named: seq<Option<nat>>, ids: seq<nat>, keep: set<nat>, first: nat, next: nat, id: nat, next': nat)
    requires |ids| < |named| && first <= next <= next' && forall k :: k in keep ==> k < first
    requires forall j :: 0 <= j < |ids| ==> Place(named[j], ids, j, keep, first, next)
    requires if named[|ids|].Some? then id == named[|ids|].value && id in keep else id == next < next'
    ensures forall j :: 0 <= j <= |ids| ==> Place(named[j], ids + [id], j, keep, first, next')
  {
    forall j | 0 <= j <= |ids| ensures Place(named[j], ids + [id], j, keep, first, next') {
      if j < |ids| {
        PlaceStays(named[j], ids, j, keep, first, next, id, next');
      } else if named[j].None? {
        forall k | 0 <= k < |ids| ensures ids[k] in keep || ids[k] < next { assert Place(named[k], ids, k, keep, first, next); }
        PlaceIsNew(ids, keep, first, next, next');
      }
    }
  }

  lemma OptionStep(rows: map<OptionId, OptionRow>, options: seq<OptionInput>, ids: seq<OptionId>, keep: set<OptionId>,
                   first: nat, next: nat, id: OptionId, next': nat)
    requires OptionsSaved(rows, options, ids, keep, first, next) && |ids| < |options| && first <= next <= next'
    requires var o := options[|ids|]; if o.id.Some? then id == o.id.value && id in keep else id == next < next'
    ensures OptionsSaved(rows[id := OptionRowOf(options[|ids|])], options, ids + [id], keep, first, next')
  {
    var rows', ids' := rows[id := OptionRowOf(options[|ids|])], ids + [id];
    var named := seq(|options|, i requires 0 <= i < |options| => options[i].id);
    NextIsPlaced(named, ids, keep, first, next, id, next');
    forall j | 0 <= j < |ids'| ensures Place(options[j].id, ids', j, keep, first, next') {
      assert Place(named[j], ids', j, keep, first, next');
    }
    forall j | 0 <= j < |ids'| && IsLast(ids', j) ensures rows'[ids'[j]] == OptionRowOf(options[j]) {
      if j < |ids| { PlacedNext(ids, id, j); }
    }
  }

  lemma OptionsAreSaved(rows: map<OptionId, OptionRow>, options: seq<OptionInput>, ids: seq<OptionId>, keep: set<OptionId>, first: nat, next: nat)
    requires OptionsSaved(rows, options, ids, keep, first, next) && |ids| == |options|
    requires forall o :: o in keep ==> exists i :: 0 <= i < |options| && options[i].id == Some(o)
    ensures OptionsMatch(rows, options, ids)
  {
    forall o | o in keep ensures o in ids {
      var i :| 0 <= i < |options| && options[i].id == Some(o);
      assert Place(options[i].id, ids, i, keep, first, next);
    }
  }

  // ---- What the loop over the groups keeps ----

  function Kept(groups: seq<GroupInput>): set<GroupId> {
    set i | 0 <= i < |groups| && groups[i].id.Some? :: groups[i].id.value
  }

  function OptionsOf(rows: map<GroupId, GroupRow>, g: GroupInput): map<OptionId, OptionRow> {
    if g.id.Some? && g.id.value in rows then rows[g.id.value].options else map[]
  }

  ghost predicate KnownOptions(existing: map<GroupId, GroupRow>, g: GroupInput) {
    OptionsKnown(OptionsOf(existing, g), g.options)
  }

  /** No other row carries a mark that this row is to carry. */
  predicate Fits(rows: map<GroupId, GroupRow>, id: GroupId, absolute: bool, tiles: bool) {
    forall a :: a in rows && a != id ==> !(absolute && rows[a].absolute) && !(tiles && rows[a].quickSaleTiles)
  }

  /** The table's refusal is exactly the violation of an index. */
  lemma FittingKeepsIndexes(rows: map<GroupId, GroupRow>, id: GroupId, row: GroupRow)
    requires IndexesHold(rows)
    ensures Fits(rows, id, row.absolute, row.quickSaleTiles) <==> IndexesHold(rows[id := row])
  {
    var after := rows[id := row];
    assert after[id] == row && forall a :: a in rows && a != id ==> after[a] == rows[a];
  }

  ghost predicate GroupsPlaced(rows: map<GroupId, GroupRow>, groups: seq<GroupInput>, ids: seq<GroupId>, first: nat, next: nat) {
    && |ids| <= |groups| && Kept(groups) <= rows.Keys
    && (forall id :: id in Kept(groups) ==> id < first)
    && (forall id :: id in rows ==> id in Kept(groups) || id in ids)
    && (forall j :: 0 <= j < |ids| ==> ids[j] in rows && Place(groups[j].id, ids, j, Kept(groups), first, next))
  }

  ghost predicate Written(groups: seq<GroupInput>, ids: seq<GroupId>, id: GroupId, mark: GroupInput -> bool) {
    exists j :: 0 <= j < |ids| && j < |groups| && ids[j] == id && mark(groups[j])
  }

  const Absolute := (g: GroupInput) => g.absolute
  const Tiled := (g: GroupInput) => g.quickSaleTiles

  /** Only rows already written for a marked payload group carry a mark; rows are kept or written. */
  ghost predicate Progress(rows: map<GroupId, GroupRow>, groups: seq<GroupInput>, ids: seq<GroupId>, first: nat, next: nat) {
    && GroupsPlaced(rows, groups, ids, first, next)
    && (forall id :: id in rows && rows[id].absolute ==> Written(groups, ids, id, Absolute))
    && (forall id :: id in rows && rows[id].quickSaleTiles ==> Written(groups, ids, id, Tiled))
  }

  /** Kept groups that have not been written yet still have their old options. */
  ghost predicate Untouched(rows: map<GroupId, GroupRow>, existing: map<GroupId, GroupRow>, groups: seq<GroupInput>, i: nat) {
    forall j :: i <= j < |groups| && Single(groups, j) ==> OptionsOf(rows, groups[j]) == OptionsOf(existing, groups[j])
  }

  ghost predicate Faithful(rows: map<GroupId, GroupRow>, existing: map<GroupId, GroupRow>, groups: seq<GroupInput>, ids: seq<GroupId>) {
    && |ids| <= |groups| && Untouched(rows, existing, groups, |ids|)
    && (forall j :: 0 <= j < |ids| ==> ids[j] in rows)
    && (forall j :: 0 <= j < |ids| && IsLast(ids, j) ==> rows[ids[j]] == RowOf(groups[j], rows[ids[j]].options))
    && (forall j :: 0 <= j < |ids| && Single(groups, j) ==> GroupMatches(rows[ids[j]], groups[j]) && KnownOptions(existing, groups[j]))
  }

  lemma KnownIds(existing: map<GroupId, GroupRow>, groups: seq<GroupInput>)
    requires forall i :: 0 <= i < |groups| && groups[i].id.Some? ==> groups[i].id.value in existing
    ensures IdsKnown(existing, groups) <==> forall i :: 0 <= i < |groups| ==> KnownOptions(existing, groups[i])
  {
  }

  lemma NextRowFits(rows: map<GroupId, GroupRow>, groups: seq<GroupInput>, ids: seq<GroupId>, id: GroupId)
    requires |ids| < |groups| && RolesOk(groups)
    requires forall a :: a in rows && rows[a].absolute ==> Written(groups, ids, a, Absolute)
    requires forall a :: a in rows && rows[a].quickSaleTiles ==> Written(groups, ids, a, Tiled)
    ensures Fits(rows, id, groups[|ids|].absolute, groups[|ids|].quickSaleTiles)
  {
  }

  lemma WrittenNext(groups: seq<GroupInput>, ids: seq<GroupId>, a: GroupId, id: GroupId, mark: GroupInput -> bool)
    requires |ids| < |groups| && (if a == id then mark(groups[|ids|]) else Written(groups, ids, a, mark))
    ensures Written(groups, ids + [id], a, mark)
  {
    var ids' := ids + [id];
    if a == id {
      assert ids'[|ids|] == a;
    } else {
      var j :| 0 <= j < |ids| && j < |groups| && ids[j] == a && mark(groups[j]);
      assert ids'[j] == a;
    }
  }

  lemma GroupsPlacedNext(rows: map<GroupId, GroupRow>, groups: seq<GroupInput>, ids: seq<GroupId>, first: nat, next: nat, next': nat, id: GroupId, row: GroupRow)
    requires GroupsPlaced(rows, groups, ids, first, next) && |ids| < |groups| && first <= next <= next'
    requires var g := groups[|ids|]; id == (if g.id.Some? then g.id.value else next) && (g.id.None? ==> next' > id)
    ensures GroupsPlaced(rows[id := row], groups, ids + [id], first, next')
  {
    var named := seq(|groups|, i requires 0 <= i < |groups| => groups[i].id);
    if groups[|ids|].id.Some? { assert id in Kept(groups); }
    NextIsPlaced(named, ids, Kept(groups), first, next, id, next');
    forall j | 0 <= j <= |ids| ensures Place(groups[j].id, ids + [id], j, Kept(groups), first, next') {
      assert Place(named[j], ids + [id], j, Kept(groups), first, next');
    }
  }

  lemma ProgressStep(rows: map<GroupId, GroupRow>, groups: seq<GroupInput>, ids: seq<GroupId>, first: nat, next: nat, next': nat, id: GroupId, row: GroupRow)
    requires Progress(rows, groups, ids, first, next) && |ids| < |groups| && first <= next <= next'
    requires var g := groups[|ids|];
             id == (if g.id.Some? then g.id.value else next) && (g.id.None? ==> next' > id)
             && row.absolute == g.absolute && row.quickSaleTiles == g.quickSaleTiles
    ensures Progress(rows[id := row], groups, ids + [id], first, next')
  {
    var rows' := rows[id := row];
    GroupsPlacedNext(rows, groups, ids, first, next, next', id, row);
    forall a | a in rows' && rows'[a].absolute ensures Written(groups, ids + [id], a, Absolute) {
      WrittenNext(groups, ids, a, id, Absolute);
    }
    forall a | a in rows' && rows'[a].quickSaleTiles ensures Written(groups, ids + [id], a, Tiled) {
      WrittenNext(groups, ids, a, id, Tiled);
    }
  }

  /** The row of an entry that is alone under its id is nobody else's. */
  lemma SingleIsAlone(groups: seq<GroupInput>, ids: seq<GroupId>, rows: map<GroupId, GroupRow>, first: nat, next: nat, id: GroupId, j: nat)
    requires GroupsPlaced(rows, groups, ids, first, next) && first <= next && j < |groups| && j != |ids| < |groups|
    requires id == if groups[|ids|].id.Some? then groups[|ids|].id.value else next
    requires Single(groups, j)
    ensures j < |ids| ==> ids[j] != id
    ensures j > |ids| && groups[j].id.Some? ==> groups[j].id.value != id
  {
    var i := |ids|;
    assert groups[j].id.Some? ==> groups[i].id != groups[j].id;
    if groups[i].id.Some? { assert id in Kept(groups); }
    if groups[j].id.Some? { assert groups[j].id.value in Kept(groups); }
    if j < |ids| { assert Place(groups[j].id, ids, j, Kept(groups), first, next); }
  }

  lemma FaithfulStep(rows: map<GroupId, GroupRow>, existing: map<GroupId, GroupRow>, groups: seq<GroupInput>, ids: seq<GroupId>,
                     first: nat, next: nat, id: GroupId, row: GroupRow)
    requires Faithful(rows, existing, groups, ids) && Progress(rows, groups, ids, first, next) && |ids| < |groups| && first <= next
    requires id == if groups[|ids|].id.Some? then groups[|ids|].id.value else next
    requires row == RowOf(groups[|ids|], row.options)
    requires Single(groups, |ids|) ==> GroupMatches(row, groups[|ids|]) && KnownOptions(existing, groups[|ids|])
    ensures Faithful(rows[id := row], existing, groups, ids + [id])
  {
    var rows', ids' := rows[id := row], ids + [id];
    forall j | 0 <= j < |ids'| && IsLast(ids', j) ensures rows'[ids'[j]] == RowOf(groups[j], rows'[ids'[j]].options) {
      if j < |ids| { PlacedNext(ids, id, j); }
    }
    forall j | 0 <= j < |ids'| && Single(groups, j) ensures GroupMatches(rows'[ids'[j]], groups[j]) && KnownOptions(existing, groups[j]) {
      if j < |ids| { SingleIsAlone(groups, ids, rows, first, next, id, j); }
    }
    forall j | |ids'| <= j < |groups| && Single(groups, j) ensures OptionsOf(rows', groups[j]) == OptionsOf(existing, groups[j]) {
      SingleIsAlone(groups, ids, rows, first, next, id, j);
    }
  }

  /** An entry whose row is its alone is alone under its id. */
  lemma OnlyIsSingle(groups: seq<GroupInput>, ids: seq<GroupId>, i: nat)
    requires |ids| == |groups| && i < |ids| && IsOnly(ids, i)
    requires forall j :: 0 <= j < |ids| && groups[j].id.Some? ==> ids[j] == groups[j].id.value
    ensures Single(groups, i)
  {
  }

  lemma EntriesArePlaced(rows: map<GroupId, GroupRow>, groups: seq<GroupInput>, ids: seq<GroupId>, first: nat, next: nat)
    requires GroupsPlaced(rows, groups, ids, first, next) && |ids| == |groups|
    ensures GroupPlaces(groups, ids) && forall id :: id in rows <==> id in ids
  {
    forall i | 0 <= i < |ids| ensures if groups[i].id.Some? then ids[i] == groups[i].id.value else IsOnly(ids, i) {
      assert Place(groups[i].id, ids, i, Kept(groups), first, next);
    }
    forall id | id in Kept(groups) ensures id in ids {
      var i :| 0 <= i < |groups| && groups[i].id == Some(id);
      assert ids[i] == id;
    }
  }

  lemma FaithfulMatches(rows: map<GroupId, GroupRow>, existing: map<GroupId, GroupRow>, groups: seq<GroupInput>, ids: seq<GroupId>, first: nat, next: nat)
    requires Faithful(rows, existing, groups, ids) && Progress(rows, groups, ids, first, next) && |ids| == |groups|
    ensures GroupsMatch(rows, groups, ids)
  {
    EntriesArePlaced(rows, groups, ids, first, next);
    forall i | 0 <= i < |ids| && IsOnly(ids, i) ensures GroupMatches(rows[ids[i]], groups[i]) {
      OnlyIsSingle(groups, ids, i);
    }
  }

  /** Without repeated ids the rows are the payload's, one for one. */
  lemma DistinctIdsMatchOneToOne(rows: map<GroupId, GroupRow>, groups: seq<GroupInput>, ids: seq<GroupId>)
    requires DistinctIds(groups) && GroupsMatch(rows, groups, ids)
    ensures Distinct(ids) && forall i :: 0 <= i < |groups| ==> GroupMatches(rows[ids[i]], groups[i])
  {
    forall i, j | 0 <= i < j < |ids| ensures ids[i] != ids[j] {
      assert Single(groups, i);
    }
  }
}
