/** Which backups rotation keeps, told by their places in the list, newest first. */
module RetentionLaws {
  import opened Common
  import opened Retention

  /** The newer backups of the same kind. */
  ghost function Before(ms: seq<Manifest>, i: nat, t: Trigger): set<nat>
    requires i <= |ms|
  {
    set j: nat | j < i && ms[j].trigger == t
  }

  /** A scheduled backup with enough newer ones. */
  ghost predicate Late(policy: Policy, ms: seq<Manifest>, j: nat) {
    j < |ms| && ms[j].trigger == SCHEDULE && |Before(ms, j, SCHEDULE)| >= policy.hourlyKeep
  }

  ghost function DaysBefore(policy: Policy, ms: seq<Manifest>, i: nat): set<int>
    requires i <= |ms|
  {
    set j: nat | j < i && Late(policy, ms, j) :: ms[j].day
  }

  /** Why the i-th newest backup stays. */
  ghost predicate Stays(policy: Policy, ms: seq<Manifest>, i: nat)
    requires i < |ms|
  {
    || i == 0
    || ms[i].trigger == MANUAL
    || (ms[i].restored && forall j :: 0 <= j < i ==> !ms[j].restored)
    || (ms[i].trigger == SCHEDULE && |Before(ms, i, SCHEDULE)| < policy.hourlyKeep)
    || (Late(policy, ms, i) && ms[i].day !in DaysBefore(policy, ms, i) && |DaysBefore(policy, ms, i)| < policy.dailyKeep)
    || ((ms[i].trigger == PRE_RESTORE || ms[i].trigger == PRE_MIGRATION) && |Before(ms, i, ms[i].trigger)| < policy.eventKeep)
  }

  lemma {:induction false} CountIsBefore(ms: seq<Manifest>, i: nat, t: Trigger)
    requires i <= |ms|
    ensures Count(ms[..i], t) == |Before(ms, i, t)|
    decreases i
  {
    if i > 0 {
      CountIsBefore(ms, i - 1, t);
      assert ms[..i][..i - 1] == ms[..i - 1];
      if ms[i - 1].trigger == t { assert Before(ms, i, t) == Before(ms, i - 1, t) + {i - 1}; }
      else { assert Before(ms, i, t) == Before(ms, i - 1, t); }
    } else {
      assert Before(ms, 0, t) == {};
    }
  }

  lemma OneMoreLateDay(policy: Policy, ms: seq<Manifest>, i: nat)
    requires 0 < i <= |ms|
    ensures LateDays(ms[..i], policy.hourlyKeep) == LateDays(ms[..i - 1], policy.hourlyKeep) + if Late(policy, ms, i - 1) then {ms[i - 1].day} else {}
  {
    CountIsBefore(ms, i - 1, SCHEDULE);
    assert ms[..i] == ms[..i - 1] + [ms[i - 1]];
    LateDaysSnoc(ms[..i - 1], ms[i - 1], policy.hourlyKeep);
  }

  lemma {:induction false} LateDaysAreDays(policy: Policy, ms: seq<Manifest>, i: nat)
    requires i <= |ms|
    ensures LateDays(ms[..i], policy.hourlyKeep) == DaysBefore(policy, ms, i)
    decreases i
  {
    if i > 0 {
      LateDaysAreDays(policy, ms, i - 1);
      OneMoreLateDay(policy, ms, i);
      OneMoreDay(policy, ms, i);
    }
  }

  lemma OneMoreDay(policy: Policy, ms: seq<Manifest>, i: nat)
    requires 0 < i <= |ms|
    ensures DaysBefore(policy, ms, i) == DaysBefore(policy, ms, i - 1) + if Late(policy, ms, i - 1) then {ms[i - 1].day} else {}
  {
    if Late(policy, ms, i - 1) { assert ms[i - 1].day in DaysBefore(policy, ms, i); }
  }

  lemma KeptIsStays(policy: Policy, ms: seq<Manifest>, i: nat)
    requires i < |ms|
    ensures Kept(policy, ms[..i], ms[i]) <==> Stays(policy, ms, i)
  {
    CountIsBefore(ms, i, ms[i].trigger);
    CountIsBefore(ms, i, SCHEDULE);
    LateDaysAreDays(policy, ms, i);
    assert NoneRestored(ms[..i]) <==> forall j :: 0 <= j < i ==> !ms[j].restored by {
      if NoneRestored(ms[..i]) { forall j | 0 <= j < i ensures !ms[j].restored { assert !ms[..i][j].restored; } }
    }
  }

  lemma {:induction false} SurvivorHasReason(policy: Policy, ms: seq<Manifest>, i: nat)
    requires i < |ms| && FilesDiffer(ms)
    ensures ms[i].file in Doomed(policy, ms) <==> !Kept(policy, ms[..i], ms[i])
    decreases |ms|
  {
    var front, last := ms[..|ms| - 1], ms[|ms| - 1];
    DoomedIn(policy, front);
    if i < |front| {
      SurvivorHasReason(policy, front, i);
      assert front[..i] == ms[..i] && front[i] == ms[i];
    } else {
      assert front == ms[..i];
    }
  }

  /** A rotation that runs to its end keeps both files of a backup that has a reason to stay, and neither
      of one that has none. */
  lemma RotationFollowsReasons(f: Files, policy: Policy, ms: seq<Manifest>, effects: nat, i: nat)
    requires Listed(f, ms) && i < |ms| && ms[i].file in f.dumps && effects >= 2 * |ms|
    ensures var f' := RemoveAll(f, Doomed(policy, ms), effects);
            (ms[i].file in f'.dumps <==> Stays(policy, ms, i)) && (ms[i].file in f'.manifests <==> Stays(policy, ms, i))
  {
    FewAreDoomed(policy, ms);
    AllAreRemoved(f, Doomed(policy, ms), effects);
    SurvivorHasReason(policy, ms, i);
    KeptIsStays(policy, ms, i);
  }

  lemma {:induction false} FewAreDoomed(policy: Policy, ms: seq<Manifest>)
    ensures |Doomed(policy, ms)| <= |ms|
    decreases |ms|
  {
    if ms != [] { FewAreDoomed(policy, ms[..|ms| - 1]); }
  }

  function Least(a: int, b: int): int { if a < b then a else b }

  lemma {:induction false} OneMoreSurvives(policy: Policy, ms: seq<Manifest>, t: Trigger, keep: nat)
    requires forall newer: seq<Manifest>, m: Manifest :: m.trigger == t && Count(newer, t) < keep ==> Kept(policy, newer, m)
    ensures Count(Survivors(policy, ms), t) >= Least(keep, Count(ms, t))
    decreases |ms|
  {
    if ms != [] {
      var front, last := ms[..|ms| - 1], ms[|ms| - 1];
      assert ms == front + [last];
      OneMoreSurvives(policy, front, t, keep);
      SurvivorsSnoc(policy, front, last);
      CountSnoc(front, last, t);
      CountSnoc(Survivors(policy, front), last, t);
    }
  }

  /** Of every kind as many backups survive as the policy asks for, or all there are. */
  lemma EnoughSurvive(policy: Policy, ms: seq<Manifest>)
    ensures Count(Survivors(policy, ms), SCHEDULE) >= Least(policy.hourlyKeep, Count(ms, SCHEDULE))
    ensures Count(Survivors(policy, ms), PRE_RESTORE) >= Least(policy.eventKeep, Count(ms, PRE_RESTORE))
    ensures Count(Survivors(policy, ms), PRE_MIGRATION) >= Least(policy.eventKeep, Count(ms, PRE_MIGRATION))
  {
    OneMoreSurvives(policy, ms, SCHEDULE, policy.hourlyKeep);
    OneMoreSurvives(policy, ms, PRE_RESTORE, policy.eventKeep);
    OneMoreSurvives(policy, ms, PRE_MIGRATION, policy.eventKeep);
  }

  // ---- Cut anywhere ----

  ghost predicate AllDiffer(files: seq<nat>) { forall i, j :: 0 <= i < j < |files| ==> files[i] != files[j] }

  /** A rotation that dies has removed the backups before the one it was at, and of that one the manifest at most. */
  lemma {:induction false} RemovedUpTo(f: Files, files: seq<nat>, effects: nat, i: nat)
    requires AllDiffer(files) && i < |files|
    ensures var f' := RemoveAll(f, files, effects);
            && (files[i] in f'.manifests <==> files[i] in f.manifests && effects <= 2 * i)
            && (files[i] in f'.dumps <==> files[i] in f.dumps && effects <= 2 * i + 1)
    decreases |files|
  {
    var next := RemovePair(f, files[0], effects);
    if i == 0 {
      forall k | 0 <= k < |files[1..]| ensures files[1..][k] != files[0] { assert files[k + 1] != files[0]; }
      OthersRemain(next, files[1..], if effects >= 2 then effects - 2 else 0, files[0]);
    } else {
      assert files[i] != files[0];
      RemovedUpTo(next, files[1..], if effects >= 2 then effects - 2 else 0, i - 1);
    }
  }

  /** A new backup has its dump first and its manifest second; a failure takes both away again, the manifest
      first.  Nothing else in the directory is touched, and a name that is taken is left alone. */
  lemma PublishedUpTo(f: Files, m: Manifest, fails: Failure, effects: nat)
    ensures var f' := Next(f, CreateEvent(m, fails, effects));
            if m.file in f.dumps || m.file in f.manifests then f' == f
            else
              && f'.dumps - {m.file} == f.dumps && f'.manifests - {m.file} == f.manifests
              && (m.file in f'.manifests ==> f'.manifests[m.file] == m)
              && (m.file in f'.dumps <==> match fails
                                          case NoFailure => effects >= 1
                                          case BeforeDump => false
                                          case BeforeManifest => effects == 1
                                          case AtAudit => 1 <= effects <= 3)
              && (m.file in f'.manifests <==> match fails
                                              case NoFailure => effects >= 2
                                              case AtAudit => effects == 2
                                              case _ => false)
  {
    var f' := Next(f, CreateEvent(m, fails, effects));
    if m.file !in f.dumps && m.file !in f.manifests {
      assert f'.manifests - {m.file} == f.manifests;
    }
  }
}
