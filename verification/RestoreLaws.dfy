/** What the restore service promises about the contents under the live name. */
module RestoreLaws {
  import opened Common
  import opened RestoreSwap
  import opened RestoreSafety
  import opened NativeRestore
  import opened NativeSafety

  // ---- A staged copy that failed its checks ----

  /** A restore whose staged copy failed its checks is never answered as done and persists no swap.  Nothing
      changes but the staged name and one audit row of the live database. */
  lemma FailedCopiesStayOut(d: Disk, s: SwapState, dump: Contents, effects: nat, ending: Ending)
    requires IsValid(s)
    ensures var served := Execute(d, s, dump, false, effects, ending);
            && !served.reply.Done? && served.disk.store == d.store
            && served.disk.dbs.Keys - {s.stagedDatabase} == d.dbs.Keys - {s.stagedDatabase}
            && (forall name :: name in d.dbs && name != s.stagedDatabase ==>
                  served.disk.dbs[name] == if name == s.liveDatabase && d.store.None? && ending.CleansUp? && ending.logs
                                           then d.dbs[name].(audits := d.dbs[name].audits + [Audit("RESTORE_REJECTED", "")]) else d.dbs[name])
            && (d.store.None? && ending.CleansUp? && ending.drops ==> s.stagedDatabase !in served.disk.dbs)
  {
    NamesAreDistinct(s);
  }

  // ---- Where live contents come from ----

  /** The databases of a swap hold good contents only. */
  ghost predicate Vouched(dbs: map<string, Contents>, s: SwapState, good: set<nat>) {
    forall name :: name in {s.liveDatabase, s.stagedDatabase, s.previousDatabase} && name in dbs ==> dbs[name].origin in good
  }

  ghost predicate SameNames(s: SwapState, t: SwapState) { t == s.(phase := t.phase) }

  /** A swap under way under the live name, with good contents only; without one, live is good. */
  ghost predicate Sound(d: Disk, live: string, good: set<nat>) {
    if d.store.Some? then d.store.value.liveDatabase == live && Vouched(d.dbs, d.store.value, good)
    else live in d.dbs ==> d.dbs[live].origin in good
  }

  ghost predicate StillVouched(ran: Ran, s: SwapState, good: set<nat>) {
    ran.disk.store.Some? && SameNames(s, ran.disk.store.value) && Vouched(ran.disk.dbs, s, good)
  }

  lemma {:induction false} ForwardMovesOnly(d: Disk, s: SwapState, effects: nat, good: set<nat>)
    requires d.store.Some? && SameNames(s, d.store.value) && Vouched(d.dbs, s, good)
    ensures StillVouched(Forward(d, s, effects), s, good)
    decreases effects
  {
    var layout := LayoutOf(d.dbs, s);
    if s.phase !in {SWAPPED, COMPLETED} && layout == Ready && s.phase == REQUESTED {
      MovesOnly(d, s, s.liveDatabase, s.previousDatabase, LIVE_RENAMED, effects, good);
    } else if s.phase !in {SWAPPED, COMPLETED} && layout == Between && effects > 0 {
      var marked := s.(phase := LIVE_RENAMED);
      if s.phase == REQUESTED { MovesOnly(Written(d, marked), marked, s.stagedDatabase, s.liveDatabase, SWAPPED, effects - 1, good); }
      else { MovesOnly(d, s, s.stagedDatabase, s.liveDatabase, SWAPPED, effects, good); }
    }
  }

  lemma {:induction false} BackwardMovesOnly(d: Disk, s: SwapState, effects: nat, good: set<nat>)
    requires d.store.Some? && SameNames(s, d.store.value) && Vouched(d.dbs, s, good)
    ensures StillVouched(Backward(d, s, effects), s, good)
    decreases effects
  {
    var layout := LayoutOf(d.dbs, s);
    if s.phase !in {ROLLED_BACK, ROLLBACK_COMPLETED} && layout == Exchanged && s.phase in {SWAPPED, COMPLETED} {
      MovesOnly(d, s, s.liveDatabase, s.stagedDatabase, ROLLBACK_LIVE_RENAMED, effects, good);
    } else if s.phase !in {ROLLED_BACK, ROLLBACK_COMPLETED} && layout == Between && effects > 0 {
      var marked := s.(phase := ROLLBACK_LIVE_RENAMED);
      if s.phase in {SWAPPED, COMPLETED} { MovesOnly(Written(d, marked), marked, s.previousDatabase, s.liveDatabase, ROLLED_BACK, effects - 1, good); }
      else { MovesOnly(d, s, s.previousDatabase, s.liveDatabase, ROLLED_BACK, effects, good); }
    }
  }

  lemma {:induction false} MovesOnly(d: Disk, s: SwapState, source: string, target: string, phase: SwapPhase, effects: nat, good: set<nat>)
    requires d.store.Some? && SameNames(s, d.store.value) && Vouched(d.dbs, s, good)
    requires source in {s.liveDatabase, s.stagedDatabase, s.previousDatabase} && source in d.dbs && target !in d.dbs
    ensures StillVouched(RenameThen(d, s, source, target, phase, effects), s, good)
    decreases effects, 0
  {
    if effects > 1 {
      var renamed := d.(dbs := Renamed(d.dbs, source, target));
      var next := s.(phase := phase);
      if phase in {LIVE_RENAMED, SWAPPED} { ForwardMovesOnly(Written(renamed, next), next, effects - 2, good); }
      else { BackwardMovesOnly(Written(renamed, next), next, effects - 2, good); }
    }
  }

  lemma AuditsKeepSound(d: Disk, live: string, entry: Audit, effects: nat, good: set<nat>)
    requires Sound(d, live, good)
    ensures Sound(WriteAudit(d, live, entry, effects).disk, live, good)
    ensures Sound(WriteAuditOnce(d, live, entry, effects).disk, live, good)
  {
  }

  lemma FinalizingKeepsSound(d: Disk, effects: nat, live: string, good: set<nat>)
    requires Sound(d, live, good) && d.store.Some?
    ensures Sound(FinalizeForward(d, effects).disk, live, good) && Sound(FinalizeRollback(d, effects).disk, live, good)
  {
    AuditsKeepSound(d, live, Audit(RESTORED, d.store.value.swapId), effects, good);
    AuditsKeepSound(d, live, Audit(TAKEN_BACK, d.store.value.swapId), effects, good);
  }

  lemma SwapKeepsSound(d: Disk, effects: nat, live: string, good: set<nat>)
    requires Sound(d, live, good) && d.store.Some?
    ensures Sound(ThenFinalizeForward(Resume(d, effects)).disk, live, good)
    ensures Sound(ThenFinalizeRollback(Rollback(d, effects)).disk, live, good)
  {
    ForwardMovesOnly(d, d.store.value, effects, good);
    BackwardMovesOnly(d, d.store.value, effects, good);
    if Resume(d, effects).outcome.Finished? { FinalizingKeepsSound(Resume(d, effects).disk, Resume(d, effects).effects, live, good); }
    if Rollback(d, effects).outcome.Finished? { FinalizingKeepsSound(Rollback(d, effects).disk, Rollback(d, effects).effects, live, good); }
  }

  lemma AcceptKeepsSound(d: Disk, effects: nat, live: string, good: set<nat>)
    requires Sound(d, live, good)
    ensures Sound(AcceptCall(d, effects).disk, live, good)
  {
    if d.store.Some? && live in d.dbs && d.store.value.phase in {COMPLETED, ROLLBACK_COMPLETED} { AcceptSteps(d, effects); }
  }

  lemma PreparedIsVouched(d: Disk, live: string, s: SwapState, dump: Contents, effects: nat, good: set<nat>)
    requires Sound(d, live, good) && d.store.None? && Fresh(d, live, s, dump) && dump.origin in good
    ensures var prepared := Prepare(d, s, dump, true, effects);
            && prepared.disk.store.None? && Sound(prepared.disk, live, good)
            && (prepared.reply.Done? ==> Sound(Written(prepared.disk, s), live, good))
  {
    NamesAreDistinct(s);
  }

  lemma CleaningKeepsSound(d: Disk, live: string, s: SwapState, drops: bool, logs: bool, good: set<nat>)
    requires Sound(d, live, good) && IsValid(s) && s.liveDatabase == live
    ensures Sound(CleanUp(d, s, drops, logs), live, good)
  {
    NamesAreDistinct(s);
  }

  lemma CheckedKeepsSound(d: Disk, live: string, s: SwapState, dump: Contents, effects: nat, ending: Ending, good: set<nat>)
    requires Sound(d, live, good) && d.store.None? && Fresh(d, live, s, dump) && dump.origin in good
    ensures Sound(Execute(d, s, dump, true, effects, ending).disk, live, good)
  {
    PreparedIsVouched(d, live, s, dump, effects, good);
    var prepared := Prepare(d, s, dump, true, effects);
    if prepared.reply.Done? && prepared.effects > 0 { SwapKeepsSound(Written(prepared.disk, s), prepared.effects - 1, live, good); }
    var done := if !prepared.reply.Done? then prepared else ThenFinalizeForward(Begin(prepared.disk, s, prepared.effects));
    assert Sound(done.disk, live, good);
    if ending.CleansUp? { CleaningKeepsSound(done.disk, live, s, ending.drops, ending.logs, good); }
  }

  lemma ExecuteKeepsSound(d: Disk, live: string, s: SwapState, dump: Contents, sound: bool, effects: nat, ending: Ending, good: set<nat>)
    requires Sound(d, live, good) && d.store.None? && Fresh(d, live, s, dump) && (sound ==> dump.origin in good)
    ensures Sound(Execute(d, s, dump, sound, effects, ending).disk, live, good)
  {
    if sound {
      CheckedKeepsSound(d, live, s, dump, effects, ending, good);
    } else {
      NamesAreDistinct(s);
      FailedCopiesStayOut(d, s, dump, effects, ending);
    }
  }

  lemma NextKeepsSound(w: World, live: string, e: Event, good: set<nat>)
    requires Sound(w.disk, live, good) && (e.ExecuteEvent? && e.sound ==> e.dump.origin in good)
    ensures Sound(Next(w, live, e).disk, live, good)
  {
    match e
    case ExecuteEvent(s, dump, sound, effects, ending) =>
      if w.disk.store.None? && Fresh(w.disk, live, s, dump) { ExecuteKeepsSound(w.disk, live, s, dump, sound, effects, ending, good); }
    case RestartEvent(effects) => if w.disk.store.Some? { SwapKeepsSound(w.disk, effects, live, good); }
    case RollbackEvent(effects) => if w.disk.store.Some? { SwapKeepsSound(w.disk, effects, live, good); }
    case AcceptEvent(effects) => AcceptKeepsSound(w.disk, effects, live, good);
  }

  ghost predicate AllChecked(events: seq<Event>, good: set<nat>) {
    forall e :: e in events && e.ExecuteEvent? && e.sound ==> e.dump.origin in good
  }

  lemma {:induction false} RunKeepsSound(w: World, live: string, events: seq<Event>, good: set<nat>)
    requires Sound(w.disk, live, good) && AllChecked(events, good)
    ensures Sound(Run(w, live, events).disk, live, good)
    decreases |events|
  {
    if events != [] {
      assert events[0] in events;
      NextKeepsSound(w, live, events[0], good);
      RunKeepsSound(Next(w, live, events[0]), live, events[1..], good);
    }
  }

  /** In every run, cut off anywhere, what lies under the live name was there at the start or comes from a
      dump whose staged copy passed its checks. */
  lemma LiveContentsWereChecked(dbs: map<string, Contents>, live: string, events: seq<Event>)
    requires live in dbs
    ensures var after := Run(Start(dbs, live), live, events).disk.dbs;
            live in after ==> after[live].origin == dbs[live].origin
                              || exists e :: e in events && e.ExecuteEvent? && e.sound && e.dump.origin == after[live].origin
  {
    var good := {dbs[live].origin} + set e | e in events && e.ExecuteEvent? && e.sound :: e.dump.origin;
    RunKeepsSound(Start(dbs, live), live, events, good);
  }

  // ---- A restore that goes through ----

  /** A server on which a restore went through. */
  ghost function Restored(d: Disk, live: string, s: SwapState, dump: Contents): Disk
    requires live in d.dbs
  {
    Disk(Some(s.(phase := COMPLETED)),
         d.dbs[live := dump.(audits := dump.audits + [Audit("RESTORE_COMPLETED", s.swapId)])]
              [s.previousDatabase := d.dbs[live].(audits := d.dbs[live].audits + [Audit("RESTORE_SWITCH_STARTED", s.swapId)])])
  }

  /** Ten effects suffice for a checked copy: it is live, the old contents are the fallback, both with their
      audit rows, and nothing else on the server has changed. */
  lemma CheckedCopiesGoLive(d: Disk, live: string, s: SwapState, dump: Contents, effects: nat, ending: Ending)
    requires d.store.None? && Fresh(d, live, s, dump) && effects >= 10
    ensures Execute(d, s, dump, true, effects, ending)
            == Served(Restored(d, live, s, dump), Done, effects - 10)
  {
    NamesAreDistinct(s);
    PreparedInThree(d, live, s, dump, effects);
    SwappedInFive(d, live, s, dump, effects - 3);
    FinalizedInTwo(d, live, s, dump, effects - 8);
  }

  lemma PreparedInThree(d: Disk, live: string, s: SwapState, dump: Contents, effects: nat)
    requires Fresh(d, live, s, dump) && effects >= 3
    ensures Prepare(d, s, dump, true, effects) == Served(Disk(d.store, Laid(Ready, NewScene(d, live, s, dump))), Done, effects - 3)
  {
    NamesAreDistinct(s);
  }

  lemma SwappedInFive(d: Disk, live: string, s: SwapState, dump: Contents, effects: nat)
    requires Fresh(d, live, s, dump) && effects >= 5
    ensures var sc := NewScene(d, live, s, dump);
            Begin(Disk(None, Laid(Ready, sc)), s, effects) == Ran(At(SWAPPED, Exchanged, sc), Finished(s.(phase := SWAPPED)), effects - 5)
  {
    var sc := NewScene(d, live, s, dump);
    NewSceneIsUnaudited(d, live, s, dump);
    AtIsSafe(REQUESTED, Ready, sc);
    LaidHasLayout(Ready, sc);
    ResumeConverges(At(REQUESTED, Ready, sc), effects - 1, sc);
  }

  lemma FinalizedInTwo(d: Disk, live: string, s: SwapState, dump: Contents, effects: nat)
    requires Fresh(d, live, s, dump) && effects >= 2
    ensures FinalizeForward(At(SWAPPED, Exchanged, NewScene(d, live, s, dump)), effects)
            == Served(Restored(d, live, s, dump), Done, effects - 2)
  {
    NamesAreDistinct(s);
    var sc := NewScene(d, live, s, dump);
    NewSceneIsUnaudited(d, live, s, dump);
    LaidHasLayout(Exchanged, sc);
    var laid := Laid(Exchanged, sc);
    assert laid[live] == dump;
  }

  // ---- Taking it back, and deciding ----

  /** A server on which it was taken back again: but for two audit rows and the copy that was set aside, it is as it was. */
  ghost function TakenBack(d: Disk, live: string, s: SwapState, dump: Contents): Disk
    requires live in d.dbs
  {
    Disk(Some(s.(phase := ROLLBACK_COMPLETED)),
         d.dbs[live := d.dbs[live].(audits := d.dbs[live].audits + [Audit("RESTORE_SWITCH_STARTED", s.swapId), Audit("RESTORE_ROLLED_BACK", s.swapId)])]
              [s.stagedDatabase := dump.(audits := dump.audits + [Audit("RESTORE_COMPLETED", s.swapId)])])
  }

  ghost function SceneAfter(d: Disk, live: string, s: SwapState, dump: Contents): Scene
    requires live in d.dbs
  {
    NewScene(d, live, s, dump).(restored := dump.(audits := dump.audits + [Audit(RESTORED, s.swapId)]))
  }

  lemma RestoredIsExchanged(d: Disk, live: string, s: SwapState, dump: Contents)
    requires Fresh(d, live, s, dump)
    ensures Restored(d, live, s, dump) == At(COMPLETED, Exchanged, SceneAfter(d, live, s, dump))
    ensures Apart(SceneAfter(d, live, s, dump))
  {
    NamesAreDistinct(s);
  }

  lemma AuditedBack(d: Disk, live: string, s: SwapState, dump: Contents, effects: nat)
    requires Fresh(d, live, s, dump) && effects >= 2
    ensures FinalizeRollback(At(ROLLED_BACK, Ready, SceneAfter(d, live, s, dump)), effects) == Served(TakenBack(d, live, s, dump), Done, effects - 2)
  {
    NamesAreDistinct(s);
    var sc := SceneAfter(d, live, s, dump);
    var laid := Laid(Ready, sc);
    assert laid[live] == sc.before;
    var audits := d.dbs[live].audits;
    assert Audit(TAKEN_BACK, s.swapId) !in sc.before.audits;
    assert audits + [Audit(SWITCH_STARTED, s.swapId)] + [Audit(TAKEN_BACK, s.swapId)]
        == audits + [Audit(SWITCH_STARTED, s.swapId), Audit(TAKEN_BACK, s.swapId)];
    assert laid[live := sc.before.(audits := sc.before.audits + [Audit(TAKEN_BACK, s.swapId)])] == TakenBack(d, live, s, dump).dbs;
  }

  /** Six effects suffice to take a restore back. */
  lemma TakingBackUndoes(d: Disk, live: string, s: SwapState, dump: Contents, effects: nat)
    requires Fresh(d, live, s, dump) && effects >= 6
    ensures RollbackCall(Restored(d, live, s, dump), effects) == Served(TakenBack(d, live, s, dump), Done, effects - 6)
  {
    var sc := SceneAfter(d, live, s, dump);
    RestoredIsExchanged(d, live, s, dump);
    AtIsSafe(COMPLETED, Exchanged, sc);
    LaidHasLayout(Exchanged, sc);
    RollbackConverges(Restored(d, live, s, dump), effects, sc);
    AuditedBack(d, live, s, dump, effects - 4);
  }

  /** Accepting drops the other copy and forgets the swap: after a restore the dump stays alone, after a
      restore that was taken back the old contents do, and no database but live differs from the start. */
  lemma AcceptingDecides(d: Disk, live: string, s: SwapState, dump: Contents, effects: nat)
    requires Fresh(d, live, s, dump) && effects >= 3
    ensures AcceptCall(Restored(d, live, s, dump), effects)
            == Served(Disk(None, d.dbs[live := dump.(audits := dump.audits + [Audit("RESTORE_COMPLETED", s.swapId), Audit("RESTORE_ACCEPTED", s.swapId)])]),
                      Done, effects - 3)
    ensures AcceptCall(TakenBack(d, live, s, dump), effects)
            == Served(Disk(None, d.dbs[live := d.dbs[live].(audits := d.dbs[live].audits + [Audit("RESTORE_SWITCH_STARTED", s.swapId),
                                                                                            Audit("RESTORE_ROLLED_BACK", s.swapId), Audit("RESTORE_ACCEPTED", s.swapId)])]),
                      Done, effects - 3)
  {
    NamesAreDistinct(s);
    AcceptedAlone(Restored(d, live, s, dump), effects);
    AcceptedAlone(TakenBack(d, live, s, dump), effects);
    var audits := d.dbs[live].audits;
    var started, back, decided := Audit(SWITCH_STARTED, s.swapId), Audit(TAKEN_BACK, s.swapId), Audit(ACCEPTED, s.swapId);
    assert audits + [started, back] + [decided] == audits + [started, back, decided];
    assert dump.audits + [Audit(RESTORED, s.swapId)] + [decided] == dump.audits + [Audit(RESTORED, s.swapId), decided];
    assert Logged(Restored(d, live, s, dump).dbs, live, decided) - {s.previousDatabase}
        == d.dbs[live := dump.(audits := dump.audits + [Audit(RESTORED, s.swapId), decided])];
    assert Logged(TakenBack(d, live, s, dump).dbs, live, decided) - {s.stagedDatabase}
        == d.dbs[live := d.dbs[live].(audits := audits + [started, back, decided])];
  }

  lemma AcceptedAlone(d: Disk, effects: nat)
    requires d.store.Some? && d.store.value.phase in {COMPLETED, ROLLBACK_COMPLETED} && d.store.value.liveDatabase in d.dbs && effects >= 3
    ensures var s := d.store.value;
            AcceptCall(d, effects)
            == Served(Disk(None, Logged(d.dbs, s.liveDatabase, Audit(ACCEPTED, s.swapId))
                                 - {if s.phase == COMPLETED then s.previousDatabase else s.stagedDatabase}), Done, effects - 3)
  {
  }
}
