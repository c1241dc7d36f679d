/**
 * The crash-safe exchange of the live database for a restored one.
 *
 * The outside world is a Disk: the persisted phase and the databases by name.  Every operation
 * carries the number of effects (a rename, a write of the phase) it can still perform; where that
 * number runs out the process dies and only the Disk survives.
 */
module RestoreSwap {
  import opened Common

  datatype SwapPhase =
    REQUESTED | LIVE_RENAMED | SWAPPED | COMPLETED | ROLLBACK_LIVE_RENAMED | ROLLED_BACK | ROLLBACK_COMPLETED

  datatype SwapState = SwapState(
    swapId: string, phase: SwapPhase, liveDatabase: string, stagedDatabase: string, previousDatabase: string)

  datatype SwapError = INVALID_STATE | STATE_NOT_FOUND | OPERATION_ALREADY_EXISTS | INCONSISTENT_DATABASE_LAYOUT

  // ---- Names ----

  predicate IsWordChar(c: char) { 'a' <= c <= 'z' || '0' <= c <= '9' }

  predicate IsSwapId(s: string) {
    |s| == 16 && forall i :: 0 <= i < |s| ==> 'a' <= s[i] <= 'f' || '0' <= s[i] <= '9'
  }

  predicate StartsWith(s: string, prefix: string) {
    |prefix| <= |s| && s[..|prefix|] == prefix
  }

  /** Zero or more groups of an underscore and at least one lower-case letter or digit. */
  predicate IsGroups(s: string)
    decreases |s|
  {
    s == [] || (|s| >= 2 && s[0] == '_' && IsWordChar(s[1]) && IsGroups(DropWord(s[2..])))
  }

  function DropWord(s: string): (r: string)
    ensures |r| <= |s|
  {
    if s != [] && IsWordChar(s[0]) then DropWord(s[1..]) else s
  }

  predicate IsSafeLiveDatabaseName(s: string) {
    && |s| <= 63
    && StartsWith(s, "vereinorder") && IsGroups(s[11..])
    && !StartsWith(s, "vereinorder_restore_") && !StartsWith(s, "vereinorder_pre_")
  }

  predicate TestGroupAt(s: string, i: nat) {
    i + 4 <= |s| && s[i..i + 4] == "test" && (i == 0 || s[i - 1] == '_') && (i + 4 == |s| || s[i + 4] == '_')
  }

  /** Whether "test" is a whole group of the name. */
  function TestMarker(s: string): string {
    if exists i: nat :: i <= |s| && TestGroupAt(s, i) then "test_" else ""
  }

  predicate IsValid(s: SwapState) {
    && IsSwapId(s.swapId)
    && IsSafeLiveDatabaseName(s.liveDatabase)
    && s.stagedDatabase == "vereinorder_restore_" + TestMarker(s.liveDatabase) + s.swapId
    && s.previousDatabase == "vereinorder_pre_" + TestMarker(s.liveDatabase) + s.swapId
  }

  function CreateRestoreSwapState(liveDatabase: string, swapId: string): Result<SwapState, SwapError> {
    var marker := TestMarker(liveDatabase);
    var state := SwapState(swapId, REQUESTED, liveDatabase,
                           "vereinorder_restore_" + marker + swapId, "vereinorder_pre_" + marker + swapId);
    if IsValid(state) then Ok(state) else Err(INVALID_STATE)
  }

  /** A state is created exactly for a safe live name and a well-formed id, and then it is valid. */
  lemma CreatedStatesAreValid(liveDatabase: string, swapId: string)
    ensures CreateRestoreSwapState(liveDatabase, swapId).Ok? <==> IsSafeLiveDatabaseName(liveDatabase) && IsSwapId(swapId)
    ensures var r := CreateRestoreSwapState(liveDatabase, swapId);
            r.Ok? ==> IsValid(r.value) && Distinct(r.value) && r.value.phase == REQUESTED && r.value.liveDatabase == liveDatabase
  {
    var r := CreateRestoreSwapState(liveDatabase, swapId);
    if r.Ok? { NamesAreDistinct(r.value); }
  }

  ghost predicate Distinct(s: SwapState) {
    s.liveDatabase != s.stagedDatabase && s.liveDatabase != s.previousDatabase && s.stagedDatabase != s.previousDatabase
  }

  const STAGED_PREFIX := "vereinorder_restore_"
  const PREVIOUS_PREFIX := "vereinorder_pre_"

  lemma PrefixesDiffer(a: string, b: string)
    ensures STAGED_PREFIX + a != PREVIOUS_PREFIX + b
  {
    assert (STAGED_PREFIX + a)[12] == 'r' && (PREVIOUS_PREFIX + b)[12] == 'p';
  }

  lemma SamePrefix(prefix: string, a: string, b: string)
    requires prefix + a == prefix + b
    ensures a == b
  {
    assert (prefix + a)[|prefix|..] == a && (prefix + b)[|prefix|..] == b;
  }

  lemma SameTail(a: string, b: string, x: string, y: string)
    requires a + x == b + y && |x| == |y|
    ensures x == y
  {
    assert (a + x)[|a|..] == x && (b + y)[|b|..] == y;
  }

  /** The three names never collide, whatever the live database is called. */
  lemma NamesAreDistinct(s: SwapState)
    requires IsValid(s)
    ensures Distinct(s)
  {
    var rest := TestMarker(s.liveDatabase) + s.swapId;
    assert s.stagedDatabase == STAGED_PREFIX + rest && s.previousDatabase == PREVIOUS_PREFIX + rest;
    PrefixesDiffer(rest, rest);
    assert StartsWith(s.stagedDatabase, STAGED_PREFIX) && StartsWith(s.previousDatabase, PREVIOUS_PREFIX);
  }

  lemma SideNamesDiffer(ra: string, rb: string, x: string, y: string)
    requires |x| == |y| && x != y
    ensures {STAGED_PREFIX + (ra + x), PREVIOUS_PREFIX + (ra + x)} !! {STAGED_PREFIX + (rb + y), PREVIOUS_PREFIX + (rb + y)}
  {
    PrefixesDiffer(ra + x, rb + y);
    PrefixesDiffer(rb + y, ra + x);
    if ra + x == rb + y { SameTail(ra, rb, x, y); }
    if STAGED_PREFIX + (ra + x) == STAGED_PREFIX + (rb + y) { SamePrefix(STAGED_PREFIX, ra + x, rb + y); }
    if PREVIOUS_PREFIX + (ra + x) == PREVIOUS_PREFIX + (rb + y) { SamePrefix(PREVIOUS_PREFIX, ra + x, rb + y); }
  }

  lemma Regroup(a: string, b: string, c: string)
    ensures a + b + c == a + (b + c)
  {
  }

  lemma NamesSplit(s: SwapState)
    requires IsValid(s)
    ensures s.stagedDatabase == STAGED_PREFIX + (TestMarker(s.liveDatabase) + s.swapId)
    ensures s.previousDatabase == PREVIOUS_PREFIX + (TestMarker(s.liveDatabase) + s.swapId)
  {
    var marker := TestMarker(s.liveDatabase);
    Regroup(STAGED_PREFIX, marker, s.swapId);
    Regroup(PREVIOUS_PREFIX, marker, s.swapId);
  }

  /** Two swaps share no side database, so discarding one's never touches the other's. */
  lemma SideNamesBelongToOneSwap(a: SwapState, b: SwapState)
    requires IsValid(a) && IsValid(b) && a.swapId != b.swapId
    ensures {a.stagedDatabase, a.previousDatabase} !! {b.stagedDatabase, b.previousDatabase}
  {
    NamesSplit(a);
    NamesSplit(b);
    SideNamesDiffer(TestMarker(a.liveDatabase), TestMarker(b.liveDatabase), a.swapId, b.swapId);
  }

  // ---- The disk ----

  datatype Contents = Contents(origin: nat, audits: seq<Audit>)

  datatype Audit = Audit(action: string, swapId: string)

  datatype Disk = Disk(store: Option<SwapState>, dbs: map<string, Contents>)

  datatype Outcome = Finished(state: SwapState) | Refused(error: SwapError) | Crashed

  datatype Ran = Ran(disk: Disk, outcome: Outcome, effects: nat)

  function Renamed(dbs: map<string, Contents>, source: string, target: string): map<string, Contents>
    requires source in dbs && target !in dbs
  {
    dbs[target := dbs[source]] - {source}
  }

  /** Which of the three databases exist. */
  datatype Layout = Layout(live: bool, staged: bool, previous: bool)

  const Ready := Layout(true, true, false)
  const Between := Layout(false, true, true)
  const Exchanged := Layout(true, false, true)

  function LayoutOf(dbs: map<string, Contents>, s: SwapState): Layout {
    Layout(s.liveDatabase in dbs, s.stagedDatabase in dbs, s.previousDatabase in dbs)
  }

  // ---- The operations, as functions of the disk and the remaining effects ----

  function Written(d: Disk, s: SwapState): Disk { d.(store := Some(s)) }

  function Forward(d: Disk, s: SwapState, effects: nat): Ran
    decreases effects
  {
    var layout := LayoutOf(d.dbs, s);
    if s.phase in {SWAPPED, COMPLETED} then
      Ran(d, if layout == Exchanged then Finished(s) else Refused(INCONSISTENT_DATABASE_LAYOUT), effects)
    else if layout == Ready then
      if s.phase != REQUESTED then Ran(d, Refused(INCONSISTENT_DATABASE_LAYOUT), effects)
      else RenameThen(d, s, s.liveDatabase, s.previousDatabase, LIVE_RENAMED, effects)
    else if layout == Between then
      if s.phase == REQUESTED then
        if effects == 0 then Ran(d, Crashed, 0)
        else
          var marked := s.(phase := LIVE_RENAMED);
          RenameThen(Written(d, marked), marked, s.stagedDatabase, s.liveDatabase, SWAPPED, effects - 1)
      else RenameThen(d, s, s.stagedDatabase, s.liveDatabase, SWAPPED, effects)
    else if layout == Exchanged then
      if effects == 0 then Ran(d, Crashed, 0)
      else
        var done := s.(phase := SWAPPED);
        Ran(Written(d, done), Finished(done), effects - 1)
    else Ran(d, Refused(INCONSISTENT_DATABASE_LAYOUT), effects)
  }

  /** Rename, write the next phase, go round the loop again. */
  function RenameThen(d: Disk, s: SwapState, source: string, target: string, phase: SwapPhase, effects: nat): Ran
    requires source in d.dbs && target !in d.dbs
    decreases effects, 0
  {
    if effects == 0 then Ran(d, Crashed, 0)
    else
      var renamed := d.(dbs := Renamed(d.dbs, source, target));
      if effects == 1 then Ran(renamed, Crashed, 0)
      else
        var next := s.(phase := phase);
        if phase in {LIVE_RENAMED, SWAPPED}
        then Forward(Written(renamed, next), next, effects - 2)
        else Backward(Written(renamed, next), next, effects - 2)
  }

  function Backward(d: Disk, s: SwapState, effects: nat): Ran
    decreases effects
  {
    var layout := LayoutOf(d.dbs, s);
    if s.phase in {ROLLED_BACK, ROLLBACK_COMPLETED} then
      Ran(d, if layout == Ready then Finished(s) else Refused(INCONSISTENT_DATABASE_LAYOUT), effects)
    else if layout == Exchanged then
      if s.phase !in {SWAPPED, COMPLETED} then Ran(d, Refused(INCONSISTENT_DATABASE_LAYOUT), effects)
      else RenameThen(d, s, s.liveDatabase, s.stagedDatabase, ROLLBACK_LIVE_RENAMED, effects)
    else if layout == Between then
      if s.phase in {SWAPPED, COMPLETED} then
        if effects == 0 then Ran(d, Crashed, 0)
        else
          var marked := s.(phase := ROLLBACK_LIVE_RENAMED);
          RenameThen(Written(d, marked), marked, s.previousDatabase, s.liveDatabase, ROLLED_BACK, effects - 1)
      else RenameThen(d, s, s.previousDatabase, s.liveDatabase, ROLLED_BACK, effects)
    else if layout == Ready then
      if effects == 0 then Ran(d, Crashed, 0)
      else
        var done := s.(phase := ROLLED_BACK);
        Ran(Written(d, done), Finished(done), effects - 1)
    else Ran(d, Refused(INCONSISTENT_DATABASE_LAYOUT), effects)
  }

  function Resume(d: Disk, effects: nat): Ran {
    if d.store.None? then Ran(d, Refused(STATE_NOT_FOUND), effects)
    else if d.store.value.phase in {ROLLBACK_LIVE_RENAMED, ROLLED_BACK, ROLLBACK_COMPLETED}
    then Backward(d, d.store.value, effects)
    else Forward(d, d.store.value, effects)
  }

  function Begin(d: Disk, s: SwapState, effects: nat): Ran {
    if !IsValid(s) || s.phase != REQUESTED then Ran(d, Refused(INVALID_STATE), effects)
    else if d.store.Some? then Ran(d, Refused(OPERATION_ALREADY_EXISTS), effects)
    else if effects == 0 then Ran(d, Crashed, 0)
    else Resume(Written(d, s), effects - 1)
  }

  function Rollback(d: Disk, effects: nat): Ran {
    if d.store.None? then Ran(d, Refused(STATE_NOT_FOUND), effects)
    else if d.store.value.phase in {REQUESTED, LIVE_RENAMED} then Ran(d, Refused(INVALID_STATE), effects)
    else Backward(d, d.store.value, effects)
  }

  /** markCompleted and markRollbackCompleted: from one phase to its audited form. */
  function Mark(d: Disk, from: SwapPhase, to: SwapPhase, effects: nat): Ran {
    if d.store.None? then Ran(d, Refused(STATE_NOT_FOUND), effects)
    else if d.store.value.phase == to then Ran(d, Finished(d.store.value), effects)
    else if d.store.value.phase != from then Ran(d, Refused(INVALID_STATE), effects)
    else if effects == 0 then Ran(d, Crashed, 0)
    else
      var done := d.store.value.(phase := to);
      Ran(Written(d, done), Finished(done), effects - 1)
  }

  // ---- The coordinator ----

  class RestoreSwapCoordinator {
    var store: Option<SwapState>
    var dbs: map<string, Contents>
    var effects: nat

    ghost function View(): Disk
      reads this
    {
      Disk(store, dbs)
    }

    method WriteState(s: SwapState) returns (ok: bool)
      modifies this`store, this`effects
      ensures ok <==> old(effects) > 0
      ensures ok ==> store == Some(s) && effects == old(effects) - 1
      ensures !ok ==> store == old(store) && effects == 0
    {
      if effects == 0 { return false; }
      store, effects := Some(s), effects - 1;
      return true;
    }

    method RenameDatabase(source: string, target: string) returns (ok: bool)
      requires source in dbs && target !in dbs
      modifies this`dbs, this`effects
      ensures ok <==> old(effects) > 0
      ensures ok ==> dbs == Renamed(old(dbs), source, target) && effects == old(effects) - 1
      ensures !ok ==> dbs == old(dbs) && effects == 0
    {
      if effects == 0 { return false; }
      dbs, effects := dbs[target := dbs[source]] - {source}, effects - 1;
      return true;
    }

    method BeginSwap(s: SwapState) returns (outcome: Outcome)
      modifies this
      ensures Ran(View(), outcome, effects) == Begin(old(View()), s, old(effects))
    {
      if !IsValid(s) || s.phase != REQUESTED { return Refused(INVALID_STATE); }
      if store.Some? { return Refused(OPERATION_ALREADY_EXISTS); }
      var ok := WriteState(s);
      if !ok { return Crashed; }
      outcome := ResumeSwap();
    }

    method ResumeSwap() returns (outcome: Outcome)
      modifies this
      ensures Ran(View(), outcome, effects) == Resume(old(View()), old(effects))
    {
      if store.None? { return Refused(STATE_NOT_FOUND); }
      var phase := store.value.phase;
      if phase == ROLLBACK_LIVE_RENAMED || phase == ROLLED_BACK || phase == ROLLBACK_COMPLETED {
        outcome := ResumeRollback(store.value);
      } else {
        outcome := ResumeForward(store.value);
      }
    }

    method RollbackSwap() returns (outcome: Outcome)
      modifies this
      ensures Ran(View(), outcome, effects) == Rollback(old(View()), old(effects))
    {
      if store.None? { return Refused(STATE_NOT_FOUND); }
      var phase := store.value.phase;
      if phase == REQUESTED || phase == LIVE_RENAMED { return Refused(INVALID_STATE); }
      outcome := ResumeRollback(store.value);
    }

    method MarkCompleted() returns (outcome: Outcome)
      modifies this`store, this`effects
      ensures Ran(View(), outcome, effects) == Mark(old(View()), SWAPPED, COMPLETED, old(effects))
    {
      if store.None? { return Refused(STATE_NOT_FOUND); }
      var state := store.value;
      if state.phase != SWAPPED && state.phase != COMPLETED { return Refused(INVALID_STATE); }
      if state.phase == COMPLETED { return Finished(state); }
      var ok := WriteState(state.(phase := COMPLETED));
      return if ok then Finished(state.(phase := COMPLETED)) else Crashed;
    }

    method MarkRollbackCompleted() returns (outcome: Outcome)
      modifies this`store, this`effects
      ensures Ran(View(), outcome, effects) == Mark(old(View()), ROLLED_BACK, ROLLBACK_COMPLETED, old(effects))
    {
      if store.None? { return Refused(STATE_NOT_FOUND); }
      var state := store.value;
      if state.phase != ROLLED_BACK && state.phase != ROLLBACK_COMPLETED { return Refused(INVALID_STATE); }
      if state.phase == ROLLBACK_COMPLETED { return Finished(state); }
      var ok := WriteState(state.(phase := ROLLBACK_COMPLETED));
      return if ok then Finished(state.(phase := ROLLBACK_COMPLETED)) else Crashed;
    }

    method ResumeForward(initial: SwapState) returns (outcome: Outcome)
      modifies this
      ensures Ran(View(), outcome, effects) == Forward(old(View()), initial, old(effects))
    {
      var state := initial;
      while true
        invariant Forward(View(), state, effects) == Forward(old(View()), initial, old(effects))
        decreases effects
      {
        var hasLive, hasStaged, hasPrevious :=
          state.liveDatabase in dbs, state.stagedDatabase in dbs, state.previousDatabase in dbs;
        if state.phase == SWAPPED || state.phase == COMPLETED {
          return if hasLive && !hasStaged && hasPrevious then Finished(state) else Refused(INCONSISTENT_DATABASE_LAYOUT);
        }
        if hasLive && hasStaged && !hasPrevious {
          if state.phase != REQUESTED { return Refused(INCONSISTENT_DATABASE_LAYOUT); }
          var renamed := RenameDatabase(state.liveDatabase, state.previousDatabase);
          if !renamed { return Crashed; }
          state := state.(phase := LIVE_RENAMED);
          var written := WriteState(state);
          if !written { return Crashed; }
        } else if !hasLive && hasStaged && hasPrevious {
          if state.phase == REQUESTED {
            state := state.(phase := LIVE_RENAMED);
            var marked := WriteState(state);
            if !marked { return Crashed; }
          }
          var renamed := RenameDatabase(state.stagedDatabase, state.liveDatabase);
          if !renamed { return Crashed; }
          state := state.(phase := SWAPPED);
          var written := WriteState(state);
          if !written { return Crashed; }
        } else if hasLive && !hasStaged && hasPrevious {
          state := state.(phase := SWAPPED);
          var written := WriteState(state);
          return if written then Finished(state) else Crashed;
        } else {
          return Refused(INCONSISTENT_DATABASE_LAYOUT);
        }
      }
    }

    method ResumeRollback(initial: SwapState) returns (outcome: Outcome)
      modifies this
      ensures Ran(View(), outcome, effects) == Backward(old(View()), initial, old(effects))
    {
      var state := initial;
      while true
        invariant Backward(View(), state, effects) == Backward(old(View()), initial, old(effects))
        decreases effects
      {
        var hasLive, hasStaged, hasPrevious :=
          state.liveDatabase in dbs, state.stagedDatabase in dbs, state.previousDatabase in dbs;
        if state.phase == ROLLED_BACK || state.phase == ROLLBACK_COMPLETED {
          return if hasLive && hasStaged && !hasPrevious then Finished(state) else Refused(INCONSISTENT_DATABASE_LAYOUT);
        }
        if hasLive && !hasStaged && hasPrevious {
          if state.phase != SWAPPED && state.phase != COMPLETED { return Refused(INCONSISTENT_DATABASE_LAYOUT); }
          var renamed := RenameDatabase(state.liveDatabase, state.stagedDatabase);
          if !renamed { return Crashed; }
          state := state.(phase := ROLLBACK_LIVE_RENAMED);
          var written := WriteState(state);
          if !written { return Crashed; }
        } else if !hasLive && hasStaged && hasPrevious {
          if state.phase == SWAPPED || state.phase == COMPLETED {
            state := state.(phase := ROLLBACK_LIVE_RENAMED);
            var marked := WriteState(state);
            if !marked { return Crashed; }
          }
          var renamed := RenameDatabase(state.previousDatabase, state.liveDatabase);
          if !renamed { return Crashed; }
          state := state.(phase := ROLLED_BACK);
          var written := WriteState(state);
          if !written { return Crashed; }
        } else if hasLive && hasStaged && !hasPrevious {
          state := state.(phase := ROLLED_BACK);
          var written := WriteState(state);
          return if written then Finished(state) else Crashed;
        } else {
          return Refused(INCONSISTENT_DATABASE_LAYOUT);
        }
      }
    }
  }
}
