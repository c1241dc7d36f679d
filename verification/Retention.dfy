/** Which backups rotation keeps, and in which order the files of a backup come and go. */
module Retention {
  import opened Common

  datatype Trigger = MANUAL | SCHEDULE | PRE_RESTORE | PRE_MIGRATION

  datatype Manifest = Manifest(file: nat, day: int, trigger: Trigger, restored: bool)

  datatype Policy = Policy(hourlyKeep: nat, dailyKeep: nat, eventKeep: nat)

  // ---- Why a backup is kept, by its place among the newer ones ----

  function Count(ms: seq<Manifest>, t: Trigger): nat {
    if ms == [] then 0 else Count(ms[..|ms| - 1], t) + if ms[|ms| - 1].trigger == t then 1 else 0
  }

  /** Days of the scheduled backups beyond the hourly ones. */
  function LateDays(ms: seq<Manifest>, hourlyKeep: nat): set<int> {
    if ms == [] then {}
    else
      var front, last := ms[..|ms| - 1], ms[|ms| - 1];
      LateDays(front, hourlyKeep) + if last.trigger == SCHEDULE && Count(front, SCHEDULE) >= hourlyKeep then {last.day} else {}
  }

  predicate NoneRestored(ms: seq<Manifest>) {
    forall i :: 0 <= i < |ms| ==> !ms[i].restored
  }

  predicate Hourly(policy: Policy, newer: seq<Manifest>, m: Manifest) {
    m.trigger == SCHEDULE && Count(newer, SCHEDULE) < policy.hourlyKeep
  }

  predicate Daily(policy: Policy, newer: seq<Manifest>, m: Manifest) {
    && m.trigger == SCHEDULE && Count(newer, SCHEDULE) >= policy.hourlyKeep
    && m.day !in LateDays(newer, policy.hourlyKeep) && |LateDays(newer, policy.hourlyKeep)| < policy.dailyKeep
  }

  predicate Kept(policy: Policy, newer: seq<Manifest>, m: Manifest) {
    || newer == []
    || (m.restored && NoneRestored(newer))
    || m.trigger == MANUAL
    || Hourly(policy, newer, m)
    || Daily(policy, newer, m)
    || (m.trigger in {PRE_RESTORE, PRE_MIGRATION} && Count(newer, m.trigger) < policy.eventKeep)
  }

  /** The backups that survive a rotation, newest first like the list itself. */
  function Survivors(policy: Policy, ms: seq<Manifest>): seq<Manifest> {
    if ms == [] then []
    else
      var front, last := ms[..|ms| - 1], ms[|ms| - 1];
      Survivors(policy, front) + if Kept(policy, front, last) then [last] else []
  }

  lemma CountSnoc(front: seq<Manifest>, last: Manifest, t: Trigger)
    ensures Count(front + [last], t) == Count(front, t) + if last.trigger == t then 1 else 0
  {
    assert (front + [last])[..|front|] == front;
  }

  lemma LateDaysSnoc(front: seq<Manifest>, last: Manifest, hourlyKeep: nat)
    ensures LateDays(front + [last], hourlyKeep)
         == LateDays(front, hourlyKeep) + if last.trigger == SCHEDULE && Count(front, SCHEDULE) >= hourlyKeep then {last.day} else {}
  {
    assert (front + [last])[..|front|] == front;
  }

  ghost predicate FilesDiffer(ms: seq<Manifest>) {
    forall i, j :: 0 <= i < j < |ms| ==> ms[i].file != ms[j].file
  }

  function KeptFiles(policy: Policy, ms: seq<Manifest>): set<nat> {
    if ms == [] then {}
    else
      var front, last := ms[..|ms| - 1], ms[|ms| - 1];
      KeptFiles(policy, front) + if Kept(policy, front, last) then {last.file} else {}
  }

  lemma {:induction false} KeptFilesMeaning(policy: Policy, ms: seq<Manifest>, i: nat)
    requires i < |ms| && FilesDiffer(ms)
    ensures ms[i].file in KeptFiles(policy, ms) <==> Kept(policy, ms[..i], ms[i])
    decreases |ms|
  {
    var front, last := ms[..|ms| - 1], ms[|ms| - 1];
    if i < |front| {
      KeptFilesMeaning(policy, front, i);
      assert front[..i] == ms[..i] && front[i] == ms[i];
    } else {
      KeptFilesIn(policy, front);
      assert ms[..i] == front;
    }
  }

  lemma {:induction false} KeptFilesIn(policy: Policy, ms: seq<Manifest>)
    ensures forall x :: x in KeptFiles(policy, ms) ==> exists j :: 0 <= j < |ms| && ms[j].file == x
    decreases |ms|
  {
    if ms != [] { KeptFilesIn(policy, ms[..|ms| - 1]); }
  }

  lemma SurvivorsSnoc(policy: Policy, front: seq<Manifest>, last: Manifest)
    ensures Survivors(policy, front + [last]) == if Kept(policy, front, last) then Survivors(policy, front) + [last] else Survivors(policy, front)
    ensures Doomed(policy, front + [last]) == if Kept(policy, front, last) then Doomed(policy, front) else Doomed(policy, front) + [last.file]
  {
    assert (front + [last])[..|front|] == front;
  }

  // ---- Rotation ----

  datatype Files = Files(dumps: set<nat>, manifests: map<nat, Manifest>)

  /** Removing a backup: its manifest first, then its dump; cut off after some of the effects. */
  function RemovePair(f: Files, file: nat, effects: nat): Files {
    if effects == 0 then f
    else if effects == 1 then f.(manifests := f.manifests - {file})
    else Files(f.dumps - {file}, f.manifests - {file})
  }

  function RemoveAll(f: Files, files: seq<nat>, effects: nat): Files
    decreases |files|
  {
    if files == [] then f
    else RemoveAll(RemovePair(f, files[0], effects), files[1..], if effects >= 2 then effects - 2 else 0)
  }

  function Doomed(policy: Policy, ms: seq<Manifest>): seq<nat> {
    if ms == [] then []
    else
      var front, last := ms[..|ms| - 1], ms[|ms| - 1];
      Doomed(policy, front) + if Kept(policy, front, last) then [] else [last.file]
  }

  lemma NextDoomed(policy: Policy, ms: seq<Manifest>, i: nat)
    requires i < |ms| && FilesDiffer(ms)
    ensures Doomed(policy, ms[..i + 1])
         == if ms[i].file in KeptFiles(policy, ms) then Doomed(policy, ms[..i]) else Doomed(policy, ms[..i]) + [ms[i].file]
  {
    assert ms[..i + 1] == ms[..i] + [ms[i]];
    SurvivorsSnoc(policy, ms[..i], ms[i]);
    KeptFilesMeaning(policy, ms, i);
  }

  /** What the walk over the list, newest first, has seen so far. */
  datatype Tally = Tally(seen: nat, restoredSeen: bool, scheduled: nat, preRestore: nat, preMigration: nat, days: set<int>)

  ghost function TallyOf(policy: Policy, ms: seq<Manifest>): Tally {
    Tally(|ms|, !NoneRestored(ms), Count(ms, SCHEDULE), Count(ms, PRE_RESTORE), Count(ms, PRE_MIGRATION), LateDays(ms, policy.hourlyKeep))
  }

  function Decide(policy: Policy, t: Tally, m: Manifest): bool {
    || t.seen == 0 || (m.restored && !t.restoredSeen) || m.trigger == MANUAL
    || (m.trigger == SCHEDULE && t.scheduled < policy.hourlyKeep)
    || (m.trigger == SCHEDULE && t.scheduled >= policy.hourlyKeep && m.day !in t.days && |t.days| < policy.dailyKeep)
    || (m.trigger == PRE_RESTORE && t.preRestore < policy.eventKeep)
    || (m.trigger == PRE_MIGRATION && t.preMigration < policy.eventKeep)
  }

  function Counted(policy: Policy, t: Tally, m: Manifest): Tally {
    var t' := t.(seen := t.seen + 1, restoredSeen := t.restoredSeen || m.restored);
    match m.trigger
    case MANUAL => t'
    case SCHEDULE => t'.(scheduled := t.scheduled + 1, days := if t.scheduled >= policy.hourlyKeep then t.days + {m.day} else t.days)
    case PRE_RESTORE => t'.(preRestore := t.preRestore + 1)
    case PRE_MIGRATION => t'.(preMigration := t.preMigration + 1)
  }

  /** The running tally knows every reason to keep a backup. */
  lemma TallyDecides(policy: Policy, newer: seq<Manifest>, m: Manifest)
    ensures Decide(policy, TallyOf(policy, newer), m) <==> Kept(policy, newer, m)
    ensures Counted(policy, TallyOf(policy, newer), m) == TallyOf(policy, newer + [m])
  {
    CountSnoc(newer, m, SCHEDULE);
    CountSnoc(newer, m, PRE_RESTORE);
    CountSnoc(newer, m, PRE_MIGRATION);
    LateDaysSnoc(newer, m, policy.hourlyKeep);
    RestoredSnoc(newer, m);
  }

  const NothingSeen := Tally(0, false, 0, 0, 0, {})

  /** Where the walk stands: its tally and the files it protects. */
  datatype Walk = Walk(tally: Tally, protected: set<nat>)

  function Step(policy: Policy, w: Walk, m: Manifest): Walk {
    Walk(Counted(policy, w.tally, m), if Decide(policy, w.tally, m) then w.protected + {m.file} else w.protected)
  }

  function Stepper(policy: Policy): (Walk, Manifest) -> Walk { (w: Walk, m: Manifest) => Step(policy, w, m) }

  function Fold<A, T>(f: (A, T) -> A, start: A, s: seq<T>): A {
    if s == [] then start else Fold(f, f(start, s[0]), s[1..])
  }

  lemma {:induction false} FoldSnoc<A, T>(f: (A, T) -> A, start: A, s: seq<T>, x: T)
    ensures Fold(f, start, s + [x]) == f(Fold(f, start, s), x)
    decreases |s|
  {
    if s == [] {
      assert s + [x] == [x];
    } else {
      assert (s + [x])[1..] == s[1..] + [x];
      FoldSnoc(f, f(start, s[0]), s[1..], x);
    }
  }

  const Beginning := Walk(NothingSeen, {})

  /** The walk knows every reason, so what it protects is what is to be kept. */
  lemma {:induction false} WalkKnows(policy: Policy, ms: seq<Manifest>)
    ensures Fold(Stepper(policy), Beginning, ms) == Walk(TallyOf(policy, ms), KeptFiles(policy, ms))
    decreases |ms|
  {
    if ms == [] {
      assert NoneRestored(ms);
    } else {
      var front, last := ms[..|ms| - 1], ms[|ms| - 1];
      assert ms == front + [last];
      WalkKnows(policy, front);
      FoldSnoc(Stepper(policy), Beginning, front, last);
      TallyDecides(policy, front, last);
    }
  }

  class BackupDirectory {
    var f: Files
    var effects: nat

    /** Everything protected: the newest, the newest restore-verified, manual ones, the first
        scheduled ones, one a day after that, and the first of either event kind. */
    method ProtectedDumps(policy: Policy, ms: seq<Manifest>) returns (protected: set<nat>)
      ensures protected == KeptFiles(policy, ms)
    {
      var w := Beginning;
      for i := 0 to |ms|
        invariant Fold(Stepper(policy), w, ms[i..]) == Fold(Stepper(policy), Beginning, ms)
      {
        assert ms[i..][0] == ms[i] && ms[i..][1..] == ms[i + 1..];
        w := Step(policy, w, ms[i]);
      }
      assert ms[|ms|..] == [];
      WalkKnows(policy, ms);
      return w.protected;
    }

    method RemoveNativeBackupPair(file: nat)
      modifies this
      ensures f == RemovePair(old(f), file, old(effects))
      ensures effects == if old(effects) >= 2 then old(effects) - 2 else 0
    {
      if effects == 0 { return; }
      f, effects := f.(manifests := f.manifests - {file}), effects - 1;
      if effects == 0 { return; }
      f, effects := f.(dumps := f.dumps - {file}), effects - 1;
    }

    method UnprotectedFiles(policy: Policy, ms: seq<Manifest>, protected: set<nat>) returns (doomed: seq<nat>)
      requires FilesDiffer(ms) && protected == KeptFiles(policy, ms)
      ensures doomed == Doomed(policy, ms)
    {
      doomed := [];
      for i := 0 to |ms|
        invariant doomed == Doomed(policy, ms[..i])
      {
        NextDoomed(policy, ms, i);
        if ms[i].file !in protected { doomed := doomed + [ms[i].file]; }
      }
      assert ms[..|ms|] == ms;
    }

    method RotateBackups(policy: Policy, ms: seq<Manifest>)
      requires FilesDiffer(ms)
      modifies this
      ensures f == RemoveAll(old(f), Doomed(policy, ms), old(effects))
    {
      if |ms| == 0 {
        assert ms == [];
        return;
      }
      var protected := ProtectedDumps(policy, ms);
      var doomed := UnprotectedFiles(policy, ms, protected);
      ghost var goal := RemoveAll(f, doomed, effects);
      for i := 0 to |doomed|
        invariant RemoveAll(f, doomed[i..], effects) == goal
      {
        assert doomed[i..][1..] == doomed[i + 1..];
        RemoveNativeBackupPair(doomed[i]);
      }
      assert doomed[|doomed|..] == [];
    }
  }

  // ---- Rotating again ----

  lemma {:induction false} SurvivorsCountLess(policy: Policy, ms: seq<Manifest>, t: Trigger)
    ensures Count(Survivors(policy, ms), t) <= Count(ms, t)
    decreases |ms|
  {
    if ms != [] {
      var front, last := ms[..|ms| - 1], ms[|ms| - 1];
      assert ms == front + [last];
      SurvivorsCountLess(policy, front, t);
      SurvivorsSnoc(policy, front, last);
      CountSnoc(front, last, t);
      CountSnoc(Survivors(policy, front), last, t);
    }
  }

  lemma {:induction false} SurvivorsIn(policy: Policy, ms: seq<Manifest>)
    ensures forall m :: m in Survivors(policy, ms) ==> m in ms
    decreases |ms|
  {
    if ms != [] {
      var front, last := ms[..|ms| - 1], ms[|ms| - 1];
      assert ms == front + [last];
      SurvivorsIn(policy, front);
      SurvivorsSnoc(policy, front, last);
    }
  }

  lemma {:induction false} SurvivorsFewerDays(policy: Policy, ms: seq<Manifest>)
    ensures LateDays(Survivors(policy, ms), policy.hourlyKeep) <= LateDays(ms, policy.hourlyKeep)
    decreases |ms|
  {
    if ms != [] {
      var front, last := ms[..|ms| - 1], ms[|ms| - 1];
      assert ms == front + [last];
      SurvivorsFewerDays(policy, front);
      SurvivorsCountLess(policy, front, SCHEDULE);
      SurvivorsSnoc(policy, front, last);
      LateDaysSnoc(front, last, policy.hourlyKeep);
      LateDaysSnoc(Survivors(policy, front), last, policy.hourlyKeep);
    }
  }

  lemma {:induction false} SomeSurvive(policy: Policy, ms: seq<Manifest>)
    requires ms != []
    ensures Survivors(policy, ms) != []
    decreases |ms|
  {
    var front, last := ms[..|ms| - 1], ms[|ms| - 1];
    assert ms == front + [last];
    SurvivorsSnoc(policy, front, last);
    if front != [] { SomeSurvive(policy, front); }
  }

  /** Every reason to keep a backup stays one when newer backups go: nothing gets a later place. */
  lemma ReasonsPersist(policy: Policy, newer: seq<Manifest>, m: Manifest)
    requires Kept(policy, newer, m)
    ensures Kept(policy, Survivors(policy, newer), m)
  {
    SurvivorsCountLess(policy, newer, m.trigger);
    SurvivorsFewerDays(policy, newer);
    SurvivorsIn(policy, newer);
    SubsetSize(LateDays(Survivors(policy, newer), policy.hourlyKeep), LateDays(newer, policy.hourlyKeep));
    if m.restored && NoneRestored(newer) {
      forall i | 0 <= i < |Survivors(policy, newer)| ensures !Survivors(policy, newer)[i].restored {
        assert Survivors(policy, newer)[i] in newer;
      }
    }
  }

  /** A second rotation finds nothing to delete. */
  lemma {:induction false} RotatingTwiceChangesNothing(policy: Policy, ms: seq<Manifest>)
    ensures Survivors(policy, Survivors(policy, ms)) == Survivors(policy, ms)
    ensures Doomed(policy, Survivors(policy, ms)) == []
    decreases |ms|
  {
    if ms != [] {
      var front, last := ms[..|ms| - 1], ms[|ms| - 1];
      assert ms == front + [last];
      RotatingTwiceChangesNothing(policy, front);
      SurvivorsSnoc(policy, front, last);
      if Kept(policy, front, last) {
        ReasonsPersist(policy, front, last);
        SurvivorsSnoc(policy, Survivors(policy, front), last);
      }
    }
  }

  // ---- What survives ----

  lemma {:induction false} SurvivorsAre(policy: Policy, ms: seq<Manifest>, i: nat)
    requires i < |ms|
    ensures Kept(policy, ms[..i], ms[i]) ==> ms[i] in Survivors(policy, ms)
    decreases |ms|
  {
    var front, last := ms[..|ms| - 1], ms[|ms| - 1];
    if i < |front| {
      SurvivorsAre(policy, front, i);
      assert front[..i] == ms[..i] && front[i] == ms[i];
    }
  }

  /** The newest backup, every manual one, and the newest restore-verified one survive any policy. */
  lemma ImportantBackupsSurvive(policy: Policy, ms: seq<Manifest>, i: nat)
    requires i < |ms|
    requires i == 0 || ms[i].trigger == MANUAL || (ms[i].restored && NoneRestored(ms[..i]))
    ensures ms[i] in Survivors(policy, ms)
  {
    SurvivorsAre(policy, ms, i);
  }

  /** How many scheduled backups the reasons can keep. */
  function DailyKept(policy: Policy, ms: seq<Manifest>): nat {
    if ms == [] then 0
    else
      var front, last := ms[..|ms| - 1], ms[|ms| - 1];
      DailyKept(policy, front) + if Daily(policy, front, last) then 1 else 0
  }

  lemma {:induction false} DailyKeptBounded(policy: Policy, ms: seq<Manifest>)
    ensures DailyKept(policy, ms) <= policy.dailyKeep && DailyKept(policy, ms) <= |LateDays(ms, policy.hourlyKeep)|
    decreases |ms|
  {
    if ms != [] {
      var front, last := ms[..|ms| - 1], ms[|ms| - 1];
      DailyKeptBounded(policy, front);
      var days := LateDays(front, policy.hourlyKeep);
      if Daily(policy, front, last) { assert LateDays(ms, policy.hourlyKeep) == days + {last.day}; }
      SubsetSize(days, LateDays(ms, policy.hourlyKeep));
    }
  }

  /** What scheduled backups may be kept for, as a bound on their number. */
  function ScheduledBound(policy: Policy, ms: seq<Manifest>): nat {
    (if Count(ms, SCHEDULE) <= policy.hourlyKeep then Count(ms, SCHEDULE) else policy.hourlyKeep) + DailyKept(policy, ms)
    + (if ms == [] then 0 else 1) + (if NoneRestored(ms) then 0 else 1)
  }

  lemma BoundGrows(policy: Policy, front: seq<Manifest>, last: Manifest)
    ensures ScheduledBound(policy, front + [last])
         >= ScheduledBound(policy, front) + if last.trigger == SCHEDULE && Kept(policy, front, last) then 1 else 0
  {
    var ms := front + [last];
    assert ms[..|front|] == front;
    CountSnoc(front, last, SCHEDULE);
    RestoredSnoc(front, last);
    assert DailyKept(policy, ms) == DailyKept(policy, front) + if Daily(policy, front, last) then 1 else 0;
  }

  lemma {:induction false} ScheduledBounded(policy: Policy, ms: seq<Manifest>)
    ensures Count(Survivors(policy, ms), SCHEDULE) <= ScheduledBound(policy, ms)
    decreases |ms|
  {
    if ms != [] {
      var front, last := ms[..|ms| - 1], ms[|ms| - 1];
      assert ms == front + [last];
      ScheduledBounded(policy, front);
      BoundGrows(policy, front, last);
      SurvivorsSnoc(policy, front, last);
      CountSnoc(Survivors(policy, front), last, SCHEDULE);
    }
  }

  lemma RestoredSnoc(front: seq<Manifest>, last: Manifest)
    ensures NoneRestored(front + [last]) <==> NoneRestored(front) && !last.restored
  {
    if NoneRestored(front + [last]) {
      forall i | 0 <= i < |front| ensures !front[i].restored { assert (front + [last])[i] == front[i]; }
      assert (front + [last])[|front|] == last;
    }
  }

  /** At most the hourly and the daily ones, the newest, and the newest restore-verified one. */
  lemma ScheduledSurvivorsAreFew(policy: Policy, ms: seq<Manifest>)
    ensures Count(Survivors(policy, ms), SCHEDULE) <= policy.hourlyKeep + policy.dailyKeep + 2
  {
    ScheduledBounded(policy, ms);
    DailyKeptBounded(policy, ms);
  }

  // ---- Publishing and removing, cut off anywhere ----

  datatype Failure = NoFailure | BeforeDump | BeforeManifest | AtAudit

  /** Publishing a backup: the dump is renamed into place, then the manifest; a later failure takes
      the manifest away before the dump. */
  function Publish(f: Files, m: Manifest, fails: Failure, effects: nat): Files {
    if fails == BeforeDump || effects == 0 then f
    else
      var placed := f.(dumps := f.dumps + {m.file});
      if fails == BeforeManifest then (if effects == 1 then placed else f.(dumps := placed.dumps - {m.file}))
      else if effects == 1 then placed
      else
        var published := placed.(manifests := placed.manifests[m.file := m]);
        if fails != AtAudit || effects == 2 then published
        else RemovePair(published, m.file, effects - 2)
  }

  datatype Event =
    | CreateEvent(m: Manifest, fails: Failure, effects: nat)
    | RotateEvent(policy: Policy, ms: seq<Manifest>, effects: nat)

  /** Rotation works on a list of valid backups: manifests that are there. */
  function Next(f: Files, e: Event): Files {
    match e
    case CreateEvent(m, fails, effects) =>
      if m.file in f.dumps || m.file in f.manifests then f else Publish(f, m, fails, effects)
    case RotateEvent(policy, ms, effects) => RemoveAll(f, Doomed(policy, ms), effects)
  }

  function Run(f: Files, events: seq<Event>): Files
    decreases |events|
  {
    if events == [] then f else Run(Next(f, events[0]), events[1..])
  }

  /** A manifest is the commit marker: its dump is there. */
  predicate Committed(f: Files) { f.manifests.Keys <= f.dumps }

  lemma {:induction false} RemovingKeepsCommitted(f: Files, files: seq<nat>, effects: nat)
    requires Committed(f)
    ensures Committed(RemoveAll(f, files, effects))
    decreases |files|
  {
    if files != [] { RemovingKeepsCommitted(RemovePair(f, files[0], effects), files[1..], if effects >= 2 then effects - 2 else 0); }
  }

  lemma {:induction false} ManifestsHaveDumps(f: Files, events: seq<Event>)
    requires Committed(f)
    ensures Committed(Run(f, events))
    decreases |events|
  {
    if events != [] {
      match events[0] {
        case CreateEvent(m, fails, effects) =>
        case RotateEvent(policy, ms, effects) => RemovingKeepsCommitted(f, Doomed(policy, ms), effects);
      }
      ManifestsHaveDumps(Next(f, events[0]), events[1..]);
    }
  }

  lemma {:induction false} OthersRemain(f: Files, files: seq<nat>, effects: nat, file: nat)
    requires file !in files
    ensures file in RemoveAll(f, files, effects).manifests <==> file in f.manifests
    ensures file in RemoveAll(f, files, effects).dumps <==> file in f.dumps
    decreases |files|
  {
    if files != [] { OthersRemain(RemovePair(f, files[0], effects), files[1..], if effects >= 2 then effects - 2 else 0, file); }
  }

  // ---- A whole rotation ----

  /** The list is the directory's: every manifest in it, under its own file, once. */
  ghost predicate Listed(f: Files, ms: seq<Manifest>) {
    && FilesDiffer(ms)
    && (forall i :: 0 <= i < |ms| ==> ms[i].file in f.manifests && f.manifests[ms[i].file] == ms[i])
    && (forall file :: file in f.manifests ==> f.manifests[file] in ms && f.manifests[file].file == file)
  }

  function FilesOf(files: seq<nat>): set<nat> { set x | x in files }

  lemma {:induction false} AllAreRemoved(f: Files, files: seq<nat>, effects: nat)
    requires effects >= 2 * |files|
    ensures RemoveAll(f, files, effects) == Files(f.dumps - FilesOf(files), f.manifests - FilesOf(files))
    decreases |files|
  {
    if files == [] {
      assert f.dumps - {} == f.dumps && f.manifests - {} == f.manifests;
    } else {
      var next := RemovePair(f, files[0], effects);
      AllAreRemoved(next, files[1..], effects - 2);
      assert FilesOf(files) == {files[0]} + FilesOf(files[1..]) by { assert files == [files[0]] + files[1..]; }
      assert next.dumps - FilesOf(files[1..]) == f.dumps - FilesOf(files);
      assert next.manifests - FilesOf(files[1..]) == f.manifests - FilesOf(files);
    }
  }

  lemma {:induction false} SurvivorsDiffer(policy: Policy, ms: seq<Manifest>)
    requires FilesDiffer(ms)
    ensures FilesDiffer(Survivors(policy, ms))
    decreases |ms|
  {
    if ms != [] {
      var front, last := ms[..|ms| - 1], ms[|ms| - 1];
      assert ms == front + [last];
      SurvivorsDiffer(policy, front);
      SurvivorsIn(policy, front);
      SurvivorsSnoc(policy, front, last);
      var kept := Survivors(policy, front);
      forall i | 0 <= i < |kept| ensures kept[i].file != last.file {
        assert kept[i] in front;
      }
    }
  }

  lemma {:induction false} DoomedIn(policy: Policy, ms: seq<Manifest>)
    ensures forall x :: x in Doomed(policy, ms) ==> exists j :: 0 <= j < |ms| && ms[j].file == x
    decreases |ms|
  {
    if ms != [] { DoomedIn(policy, ms[..|ms| - 1]); }
  }

  /** Of every backup in the list, rotation keeps or removes it, never both. */
  lemma {:induction false} SurvivesOrGoes(policy: Policy, ms: seq<Manifest>)
    requires FilesDiffer(ms)
    ensures forall i :: 0 <= i < |ms| ==> (ms[i] in Survivors(policy, ms) <==> ms[i].file !in Doomed(policy, ms))
    decreases |ms|
  {
    if ms != [] {
      var front, last := ms[..|ms| - 1], ms[|ms| - 1];
      assert ms == front + [last];
      SurvivesOrGoes(policy, front);
      SurvivorsSnoc(policy, front, last);
      SurvivorsIn(policy, front);
      DoomedIn(policy, front);
      forall i | 0 <= i < |ms| ensures ms[i] in Survivors(policy, ms) <==> ms[i].file !in Doomed(policy, ms) {
        if i < |front| { assert ms[i] == front[i]; }
      }
    }
  }

  lemma RestIsListed(f: Files, ms: seq<Manifest>, kept: seq<Manifest>, gone: seq<nat>)
    requires Listed(f, ms) && FilesDiffer(kept) && forall m :: m in kept ==> m in ms
    requires forall i :: 0 <= i < |ms| ==> (ms[i] in kept <==> ms[i].file !in gone)
    ensures Listed(Files(f.dumps - FilesOf(gone), f.manifests - FilesOf(gone)), kept)
  {
    var left := f.manifests - FilesOf(gone);
    forall i | 0 <= i < |kept| ensures kept[i].file in left && left[kept[i].file] == kept[i] {
      assert kept[i] in ms;
    }
    forall file | file in left ensures left[file] in kept && left[file].file == file {
      var i :| 0 <= i < |ms| && ms[i] == f.manifests[file];
    }
  }

  /** A rotation that runs to its end leaves exactly the survivors, manifests and dumps, and nothing for
      the next one to do. */
  lemma WholeRotation(f: Files, policy: Policy, ms: seq<Manifest>, effects: nat, again: nat)
    requires Listed(f, ms) && effects >= 2 * |Doomed(policy, ms)|
    ensures var f' := RemoveAll(f, Doomed(policy, ms), effects);
            && Listed(f', Survivors(policy, ms))
            && f'.dumps == f.dumps - FilesOf(Doomed(policy, ms))
            && RemoveAll(f', Doomed(policy, Survivors(policy, ms)), again) == f'
  {
    AllAreRemoved(f, Doomed(policy, ms), effects);
    SurvivorsDiffer(policy, ms);
    SurvivorsIn(policy, ms);
    SurvivesOrGoes(policy, ms);
    RestIsListed(f, ms, Survivors(policy, ms), Doomed(policy, ms));
    RotatingTwiceChangesNothing(policy, ms);
  }

  /** However rotation is interrupted, both files of an important backup stay. */
  lemma RotationSparesImportantFiles(f: Files, policy: Policy, ms: seq<Manifest>, effects: nat, i: nat)
    requires i < |ms| && ms[i].file in f.dumps && ms[i].file in f.manifests && FilesDiffer(ms)
    requires i == 0 || ms[i].trigger == MANUAL || (ms[i].restored && NoneRestored(ms[..i]))
    ensures var f' := RemoveAll(f, Doomed(policy, ms), effects); ms[i].file in f'.dumps && ms[i].file in f'.manifests
  {
    ImportantBackupsSurvive(policy, ms, i);
    SurvivesOrGoes(policy, ms);
    OthersRemain(f, Doomed(policy, ms), effects, ms[i].file);
  }
}
