/** Whole runs of the restore service: restores, restarts, rollbacks and acceptances, each cut off anywhere. */
module NativeSafety {
  import opened Common
  import opened RestoreSwap
  import opened RestoreSafety
  import opened NativeRestore

  datatype Event =
    | ExecuteEvent(s: SwapState, dump: Contents, sound: bool, effects: nat, ending: Ending)
    | RestartEvent(effects: nat)
    | RollbackEvent(effects: nat)
    | AcceptEvent(effects: nat)

  /** A new swap bears names and an id that nothing on the server knows yet. */
  ghost predicate Fresh(d: Disk, live: string, s: SwapState, dump: Contents) {
    && IsValid(s) && s.phase == REQUESTED && s.liveDatabase == live && live in d.dbs
    && s.stagedDatabase !in d.dbs && s.previousDatabase !in d.dbs
    && forall action :: Audit(action, s.swapId) !in d.dbs[live].audits && Audit(action, s.swapId) !in dump.audits
  }

  /** `accepted` is the origin of the contents that people last decided to keep. */
  datatype World = World(disk: Disk, accepted: nat)

  ghost function Next(w: World, live: string, e: Event): World {
    match e
    case ExecuteEvent(s, dump, sound, effects, ending) =>
      if w.disk.store.None? && !Fresh(w.disk, live, s, dump) then w
      else w.(disk := Execute(w.disk, s, dump, sound, effects, ending).disk)
    case RestartEvent(effects) => w.(disk := Restart(w.disk, effects).disk)
    case RollbackEvent(effects) => w.(disk := RollbackCall(w.disk, effects).disk)
    case AcceptEvent(effects) => Accepting(w, AcceptCall(w.disk, effects).disk)
  }

  /** Contents are decided for when the fallback copy of a completed restore is dropped. */
  ghost function Accepting(w: World, d: Disk): World {
    if w.disk.store.Some? && w.disk.store.value.phase == COMPLETED
       && w.disk.store.value.liveDatabase in d.dbs && w.disk.store.value.previousDatabase !in d.dbs
    then World(d, d.dbs[w.disk.store.value.liveDatabase].origin)
    else World(d, w.accepted)
  }

  ghost function Run(w: World, live: string, events: seq<Event>): World
    decreases |events|
  {
    if events == [] then w else Run(Next(w, live, events[0]), live, events[1..])
  }

  // ---- Reading the scene off the disk ----

  ghost function SceneOf(d: Disk): Scene
    requires d.store.Some?
  {
    var s := d.store.value.(phase := REQUESTED);
    Scene(s,
          if s.previousDatabase in d.dbs then d.dbs[s.previousDatabase]
          else if s.liveDatabase in d.dbs then d.dbs[s.liveDatabase] else Contents(0, []),
          if s.stagedDatabase in d.dbs then d.dbs[s.stagedDatabase]
          else if s.liveDatabase in d.dbs then d.dbs[s.liveDatabase] else Contents(0, []),
          d.dbs - {s.liveDatabase, s.stagedDatabase, s.previousDatabase})
  }

  lemma SceneIsRead(d: Disk, sc: Scene)
    requires Safe(d, sc) && sc.names.phase == REQUESTED
    ensures SceneOf(d) == sc
  {
    assert d.dbs - {sc.names.liveDatabase, sc.names.stagedDatabase, sc.names.previousDatabase} == sc.others;
  }

  ghost function Times(c: Contents, action: string, id: string): nat {
    multiset(c.audits)[Audit(action, id)]
  }

  /** Completion is audited in the restored database only, the rollback in the old one only, and
      each at most once; the final phases say that the entry is there. */
  ghost predicate Audited(phase: SwapPhase, sc: Scene) {
    var id := sc.names.swapId;
    && Times(sc.before, RESTORED, id) == 0 && Times(sc.restored, TAKEN_BACK, id) == 0
    && Times(sc.restored, RESTORED, id) <= 1 && Times(sc.before, TAKEN_BACK, id) <= 1
    && (phase in {REQUESTED, LIVE_RENAMED} ==> Times(sc.restored, RESTORED, id) == 0)
    && (phase !in {REQUESTED, LIVE_RENAMED, SWAPPED} ==> Times(sc.restored, RESTORED, id) == 1)
    && (phase !in {ROLLED_BACK, ROLLBACK_COMPLETED} ==> Times(sc.before, TAKEN_BACK, id) == 0)
    && (phase == ROLLBACK_COMPLETED ==> Times(sc.before, TAKEN_BACK, id) == 1)
  }

  /** A swap under way, from its first persisted phase to the decision. */
  ghost predicate Pending(d: Disk, live: string, accepted: nat) {
    && d.store.Some? && IsValid(d.store.value) && d.store.value.liveDatabase == live
    && Safe(d, SceneOf(d)) && SceneOf(d).before.origin == accepted
    && Audited(d.store.value.phase, SceneOf(d))
    && (d.store.value.phase == SWAPPED ==> LayoutOf(d.dbs, d.store.value) == Exchanged)
  }

  /** Decided, but cut off before the swap was forgotten: only the live copy is left. */
  ghost predicate Decided(d: Disk, live: string, accepted: nat) {
    && d.store.Some? && IsValid(d.store.value) && d.store.value.liveDatabase == live
    && d.store.value.phase in {COMPLETED, ROLLBACK_COMPLETED}
    && LayoutOf(d.dbs, d.store.value) == Layout(true, false, false)
    && d.dbs[live].origin == accepted
    && Audit(ACCEPTED, d.store.value.swapId) in d.dbs[live].audits
    && OncePerSwap(d.dbs[live], d.store.value.swapId)
  }

  ghost predicate OncePerSwap(c: Contents, id: string) {
    Times(c, RESTORED, id) <= 1 && Times(c, TAKEN_BACK, id) <= 1
  }

  ghost predicate Idle(d: Disk, live: string, accepted: nat) {
    d.store.None? && live in d.dbs && d.dbs[live].origin == accepted
  }

  ghost predicate Inv(w: World, live: string) {
    Idle(w.disk, live, w.accepted) || Pending(w.disk, live, w.accepted) || Decided(w.disk, live, w.accepted)
  }

  // ---- The forward end ----

  /** Adding an audit row to live changes the scene in one of its two contents. */
  lemma LoggedScene(d: Disk, entry: Audit)
    requires d.store.Some? && Safe(d, SceneOf(d)) && d.store.value.liveDatabase in d.dbs
    ensures var s, sc := d.store.value, SceneOf(d);
            var d' := d.(dbs := Logged(d.dbs, s.liveDatabase, entry));
            var layout := LayoutOf(d.dbs, s);
            && Safe(d', SceneOf(d')) && LayoutOf(d'.dbs, s) == layout
            && SceneOf(d') == (if layout == Ready then sc.(before := sc.before.(audits := sc.before.audits + [entry]))
                               else sc.(restored := sc.restored.(audits := sc.restored.audits + [entry])))
  {
    var s, sc := d.store.value, SceneOf(d);
    var d' := d.(dbs := Logged(d.dbs, s.liveDatabase, entry));
    var layout := LayoutOf(d.dbs, s);
    LayoutIgnoresPhase(d.dbs, s, REQUESTED);
    LayoutIgnoresPhase(d'.dbs, s, REQUESTED);
    assert SceneOf(d').others == sc.others;
    assert layout in {Ready, Exchanged};
    assert d'.dbs == Laid(layout, SceneOf(d'));
  }

  lemma MarkIsSafe(d: Disk, phase: SwapPhase)
    requires d.store.Some? && Safe(d, SceneOf(d)) && PhaseFits(phase, LayoutOf(d.dbs, d.store.value))
    ensures var d' := Written(d, d.store.value.(phase := phase)); Safe(d', SceneOf(d')) && SceneOf(d') == SceneOf(d)
  {
    LayoutIgnoresPhase(d.dbs, d.store.value, phase);
    LayoutIgnoresPhase(d.dbs, d.store.value, REQUESTED);
  }

  lemma TimesGrow(c: Contents, entry: Audit, action: string, id: string)
    ensures Times(c.(audits := c.audits + [entry]), action, id) == Times(c, action, id) + if entry == Audit(action, id) then 1 else 0
    ensures Audit(action, id) in c.audits <==> Times(c, action, id) > 0
  {
  }

  lemma AuditForwardOnce(d: Disk, effects: nat, live: string, accepted: nat)
    requires Pending(d, live, accepted) && d.store.value.phase == SWAPPED
    ensures var audited := WriteAuditOnce(d, live, Audit(RESTORED, d.store.value.swapId), effects);
            && Pending(audited.disk, live, accepted) && !audited.reply.Rejected?
            && (effects >= 1 ==> audited.reply.Done? && audited.effects >= effects - 1)
            && audited.disk.store == d.store && audited.disk.dbs.Keys == d.dbs.Keys
            && (audited.reply.Done? ==> Times(SceneOf(audited.disk).restored, RESTORED, d.store.value.swapId) == 1)
            && SceneOf(audited.disk).restored.origin == SceneOf(d).restored.origin
  {
    var s := d.store.value;
    var entry := Audit(RESTORED, s.swapId);
    TimesGrow(SceneOf(d).restored, entry, RESTORED, s.swapId);
    TimesGrow(SceneOf(d).restored, entry, TAKEN_BACK, s.swapId);
    LoggedScene(d, entry);
  }

  lemma AuditRollbackOnce(d: Disk, effects: nat, live: string, accepted: nat)
    requires Pending(d, live, accepted) && d.store.value.phase in {ROLLED_BACK, ROLLBACK_COMPLETED}
    ensures var audited := WriteAuditOnce(d, live, Audit(TAKEN_BACK, d.store.value.swapId), effects);
            && Pending(audited.disk, live, accepted) && !audited.reply.Rejected?
            && (effects >= 1 ==> audited.reply.Done? && audited.effects >= effects - 1)
            && audited.disk.store == d.store && audited.disk.dbs.Keys == d.dbs.Keys
            && (audited.reply.Done? ==> Times(SceneOf(audited.disk).before, TAKEN_BACK, d.store.value.swapId) == 1)
  {
    var s := d.store.value;
    var entry := Audit(TAKEN_BACK, s.swapId);
    TimesGrow(SceneOf(d).before, entry, RESTORED, s.swapId);
    TimesGrow(SceneOf(d).before, entry, TAKEN_BACK, s.swapId);
    LoggedScene(d, entry);
  }

  lemma FinalizeForwardKeeps(d: Disk, effects: nat, live: string, accepted: nat)
    requires Pending(d, live, accepted) && d.store.value.phase == SWAPPED
    ensures var done := FinalizeForward(d, effects);
            && Pending(done.disk, live, accepted) && !done.reply.Rejected?
            && (effects >= 2 ==> done.reply.Done?)
            && (done.reply.Done? ==> done.disk.store.value.phase == COMPLETED && LayoutOf(done.disk.dbs, d.store.value) == Exchanged)
            && done.disk.dbs.Keys == d.dbs.Keys
            && SceneOf(done.disk).restored.origin == SceneOf(d).restored.origin
  {
    var s := d.store.value;
    AuditForwardOnce(d, effects, live, accepted);
    var audited := WriteAuditOnce(d, live, Audit(RESTORED, s.swapId), effects);
    if audited.reply.Done? {
      LayoutIgnoresPhase(audited.disk.dbs, s, COMPLETED);
      MarkIsSafe(audited.disk, COMPLETED);
    }
  }

  lemma MarkRollbackKeeps(d: Disk, live: string, accepted: nat)
    requires Pending(d, live, accepted) && d.store.value.phase == ROLLED_BACK
    requires Times(SceneOf(d).before, TAKEN_BACK, d.store.value.swapId) == 1
    ensures Pending(Written(d, d.store.value.(phase := ROLLBACK_COMPLETED)), live, accepted)
  {
    LayoutIgnoresPhase(d.dbs, d.store.value, ROLLBACK_COMPLETED);
    LayoutIgnoresPhase(d.dbs, d.store.value, REQUESTED);
    MarkIsSafe(d, ROLLBACK_COMPLETED);
  }

  /** The marking half of finalizing a rollback, after its audit. */
  lemma MarkingRollbackKeeps(d: Disk, effects: nat, live: string, accepted: nat)
    requires Pending(d, live, accepted) && d.store.value.phase in {ROLLED_BACK, ROLLBACK_COMPLETED}
    requires Times(SceneOf(d).before, TAKEN_BACK, d.store.value.swapId) == 1
    ensures var ran := Mark(d, ROLLED_BACK, ROLLBACK_COMPLETED, effects);
            && Pending(ran.disk, live, accepted) && !ran.outcome.Refused? && (effects >= 1 ==> ran.outcome.Finished?)
            && (ran.outcome.Finished? ==> ran.disk.store.value.phase == ROLLBACK_COMPLETED)
            && ran.disk.dbs == d.dbs
  {
    if d.store.value.phase == ROLLED_BACK { MarkRollbackKeeps(d, live, accepted); }
  }

  lemma FinalizeRollbackKeeps(d: Disk, effects: nat, live: string, accepted: nat)
    requires Pending(d, live, accepted) && d.store.value.phase in {ROLLED_BACK, ROLLBACK_COMPLETED}
    ensures var done := FinalizeRollback(d, effects);
            && Pending(done.disk, live, accepted) && !done.reply.Rejected?
            && (effects >= 2 ==> done.reply.Done?)
            && (done.reply.Done? ==> done.disk.store.value.phase == ROLLBACK_COMPLETED)
            && done.disk.dbs.Keys == d.dbs.Keys
  {
    AuditRollbackOnce(d, effects, live, accepted);
    var audited := WriteAuditOnce(d, live, Audit(TAKEN_BACK, d.store.value.swapId), effects);
    if audited.reply.Done? { MarkingRollbackKeeps(audited.disk, audited.effects, live, accepted); }
  }

  /** A pending swap that says ROLLBACK_COMPLETED has its old contents live again. */
  lemma RolledBackIsReady(d: Disk, live: string, accepted: nat)
    requires Pending(d, live, accepted) && d.store.value.phase == ROLLBACK_COMPLETED
    ensures LayoutOf(d.dbs, d.store.value) == Ready
  {
    LayoutIgnoresPhase(d.dbs, d.store.value, REQUESTED);
  }

  lemma SwapOnlyIsPending(d: Disk, sc: Scene, live: string, accepted: nat)
    requires Safe(d, sc) && sc.names.phase == REQUESTED && IsValid(sc.names) && sc.names.liveDatabase == live
    requires sc.before.origin == accepted && Audited(d.store.value.phase, sc)
    requires d.store.value.phase == SWAPPED ==> LayoutOf(d.dbs, sc.names) == Exchanged
    ensures Pending(d, live, accepted) && SceneOf(d) == sc
  {
    SceneIsRead(d, sc);
    LayoutIgnoresPhase(d.dbs, sc.names, d.store.value.phase);
  }

  /** Resuming a persisted swap forward and completing its audit. */
  lemma ForwardKeeps(d: Disk, effects: nat, live: string, accepted: nat)
    requires Pending(d, live, accepted) && d.store.value.phase in {REQUESTED, LIVE_RENAMED, SWAPPED}
    ensures var done := ThenFinalizeForward(Resume(d, effects));
            && Pending(done.disk, live, accepted) && !done.reply.Rejected?
            && (effects >= 6 ==> done.reply.Done?)
            && (done.reply.Done? ==> done.disk.store.value.phase == COMPLETED
                                     && LayoutOf(done.disk.dbs, done.disk.store.value) == Exchanged
                                     && SceneOf(done.disk).restored.origin == SceneOf(d).restored.origin)
  {
    var sc := SceneOf(d);
    LayoutIgnoresPhase(d.dbs, d.store.value, REQUESTED);
    ResumeConverges(d, effects, sc);
    var ran := Resume(d, effects);
    SwapOnlyIsPending(ran.disk, sc, live, accepted);
    if ran.outcome.Finished? {
      FinalizeForwardKeeps(ran.disk, ran.effects, live, accepted);
      LayoutIgnoresPhase(ThenFinalizeForward(ran).disk.dbs, ran.disk.store.value, COMPLETED);
    }
  }

  lemma BackwardKeeps(d: Disk, effects: nat, live: string, accepted: nat)
    requires Pending(d, live, accepted)
    requires d.store.value.phase in {COMPLETED, ROLLBACK_LIVE_RENAMED, ROLLED_BACK, ROLLBACK_COMPLETED}
    ensures var done := ThenFinalizeRollback(Rollback(d, effects));
            && Pending(done.disk, live, accepted) && !done.reply.Rejected?
            && (effects >= 6 ==> done.reply.Done?)
            && (done.reply.Done? ==> done.disk.store.value.phase == ROLLBACK_COMPLETED
                                     && LayoutOf(done.disk.dbs, done.disk.store.value) == Ready)
  {
    var sc := SceneOf(d);
    LayoutIgnoresPhase(d.dbs, d.store.value, REQUESTED);
    RollbackConverges(d, effects, sc);
    var ran := Rollback(d, effects);
    SwapOnlyIsPending(ran.disk, sc, live, accepted);
    if ran.outcome.Finished? {
      FinalizeRollbackKeeps(ran.disk, ran.effects, live, accepted);
      var done := ThenFinalizeRollback(ran);
      if done.reply.Done? { RolledBackIsReady(done.disk, live, accepted); }
    }
  }

  lemma AcceptedDisk(d: Disk, effects: nat, live: string)
    requires d.store.Some? && IsValid(d.store.value) && d.store.value.liveDatabase == live && live in d.dbs
    requires d.store.value.phase in {COMPLETED, ROLLBACK_COMPLETED}
    ensures var dbs := AcceptCall(d, effects).disk.dbs;
            && live in dbs && dbs[live].origin == d.dbs[live].origin
            && dbs - {live, Discarded(d.store.value)} == d.dbs - {live, Discarded(d.store.value)}
  {
    NamesAreDistinct(d.store.value);
    AcceptSteps(d, effects);
    var s := d.store.value;
    var logged := Logged(d.dbs, live, Audit(ACCEPTED, s.swapId));
    assert logged - {live, Discarded(s)} == d.dbs - {live, Discarded(s)};
    assert (logged - {Discarded(s)}) - {live, Discarded(s)} == d.dbs - {live, Discarded(s)};
  }

  /** Accepting drops exactly the copy that is not live, and nothing unless live is there. */
  lemma AcceptKeepsLive(d: Disk, effects: nat, live: string, accepted: nat)
    requires Pending(d, live, accepted) || Decided(d, live, accepted)
    ensures var done := AcceptCall(d, effects);
            && (done.reply.Rejected? ==> done.disk == d)
            && (live !in d.dbs ==> done.reply.Rejected?)
            && (live in d.dbs ==>
                  live in done.disk.dbs && done.disk.dbs[live].origin == d.dbs[live].origin
                  && done.disk.dbs - {live, Discarded(d.store.value)} == d.dbs - {live, Discarded(d.store.value)})
            && (done.reply.Done? ==>
                  done.disk.store.None? && Discarded(d.store.value) !in done.disk.dbs
                  && Audit(ACCEPTED, d.store.value.swapId) in done.disk.dbs[live].audits)
            && (d.store.value.phase in {COMPLETED, ROLLBACK_COMPLETED} && live in d.dbs && effects >= 3 ==> done.reply.Done?)
  {
    NamesAreDistinct(d.store.value);
    if live in d.dbs && d.store.value.phase in {COMPLETED, ROLLBACK_COMPLETED} { AcceptedDisk(d, effects, live); }
  }

  lemma DroppedIsDecided(d: Disk, live: string, accepted: nat)
    requires Pending(d, live, accepted) && live in d.dbs && d.store.value.phase in {COMPLETED, ROLLBACK_COMPLETED}
    requires Audit(ACCEPTED, d.store.value.swapId) in d.dbs[live].audits
    ensures Decided(d.(dbs := d.dbs - {Discarded(d.store.value)}), live, d.dbs[live].origin)
    ensures d.store.value.phase == ROLLBACK_COMPLETED ==> d.dbs[live].origin == accepted
  {
    LayoutIgnoresPhase(d.dbs, d.store.value, REQUESTED);
    NamesAreDistinct(d.store.value);
  }

  /** The three steps of an acceptance: audited, dropped, forgotten. */
  lemma AcceptSteps(d: Disk, effects: nat)
    requires d.store.Some? && d.store.value.phase in {COMPLETED, ROLLBACK_COMPLETED} && d.store.value.liveDatabase in d.dbs
    ensures var s := d.store.value;
            var audited := d.(dbs := Logged(d.dbs, s.liveDatabase, Audit(ACCEPTED, s.swapId)));
            var dropped := audited.(dbs := audited.dbs - {Discarded(s)});
            AcceptCall(d, effects).disk ==
              if effects == 0 then d else if effects == 1 then audited else if effects == 2 then dropped else dropped.(store := None)
  {
  }

  lemma AcceptPending(w: World, live: string, effects: nat)
    requires Pending(w.disk, live, w.accepted) && live in w.disk.dbs
    requires w.disk.store.value.phase in {COMPLETED, ROLLBACK_COMPLETED}
    ensures Inv(Next(w, live, AcceptEvent(effects)), live)
  {
    var d, s := w.disk, w.disk.store.value;
    var entry := Audit(ACCEPTED, s.swapId);
    var audited := d.(dbs := Logged(d.dbs, live, entry));
    AcceptSteps(d, effects);
    NamesAreDistinct(s);
    LayoutIgnoresPhase(d.dbs, s, REQUESTED);
    PendingAfterOtherAudit(d, entry, live, w.accepted);
    assert entry in audited.dbs[live].audits;
    DroppedIsDecided(audited, live, w.accepted);
  }

  lemma AcceptDecided(w: World, live: string, effects: nat)
    requires Decided(w.disk, live, w.accepted)
    ensures Inv(Next(w, live, AcceptEvent(effects)), live)
  {
    var d, s := w.disk, w.disk.store.value;
    var entry := Audit(ACCEPTED, s.swapId);
    var audited := d.(dbs := Logged(d.dbs, live, entry));
    AcceptSteps(d, effects);
    NamesAreDistinct(s);
    assert audited.dbs - {Discarded(s)} == audited.dbs;
    TimesGrow(d.dbs[live], entry, RESTORED, s.swapId);
    TimesGrow(d.dbs[live], entry, TAKEN_BACK, s.swapId);
    assert entry in audited.dbs[live].audits;
  }

  lemma AcceptKeeps(w: World, live: string, effects: nat)
    requires Inv(w, live)
    ensures Inv(Next(w, live, AcceptEvent(effects)), live)
  {
    if Decided(w.disk, live, w.accepted) { AcceptDecided(w, live, effects); }
    else if Pending(w.disk, live, w.accepted) && live in w.disk.dbs && w.disk.store.value.phase in {COMPLETED, ROLLBACK_COMPLETED} {
      AcceptPending(w, live, effects);
    }
  }

  lemma PendingAfterOtherAudit(d: Disk, entry: Audit, live: string, accepted: nat)
    requires Pending(d, live, accepted) && live in d.dbs
    requires entry.action !in {RESTORED, TAKEN_BACK}
    ensures Pending(d.(dbs := Logged(d.dbs, live, entry)), live, accepted)
  {
    LoggedScene(d, entry);
    var id := d.store.value.swapId;
    forall action | action in {RESTORED, TAKEN_BACK}
      ensures Times(SceneOf(d).before.(audits := SceneOf(d).before.audits + [entry]), action, id) == Times(SceneOf(d).before, action, id)
      ensures Times(SceneOf(d).restored.(audits := SceneOf(d).restored.audits + [entry]), action, id) == Times(SceneOf(d).restored, action, id)
    {
      TimesGrow(SceneOf(d).before, entry, action, id);
      TimesGrow(SceneOf(d).restored, entry, action, id);
    }
  }

  // ---- A new restore ----

  lemma PrepareKeepsIdle(d: Disk, live: string, s: SwapState, dump: Contents, sound: bool, effects: nat, accepted: nat)
    requires Idle(d, live, accepted) && Fresh(d, live, s, dump)
    ensures Idle(Prepare(d, s, dump, sound, effects).disk, live, accepted)
    ensures Prepare(d, s, dump, sound, effects).reply.Done? ==>
      Prepare(d, s, dump, sound, effects).disk == Prepared(NewScene(d, live, s, dump))
  {
    NamesAreDistinct(s);
    if Prepare(d, s, dump, sound, effects).reply.Done? {
      assert Prepare(d, s, dump, sound, effects).disk.dbs == Laid(Ready, NewScene(d, live, s, dump));
    }
  }

  ghost function NewScene(d: Disk, live: string, s: SwapState, dump: Contents): Scene
    requires live in d.dbs
  {
    Scene(s, d.dbs[live].(audits := d.dbs[live].audits + [Audit(SWITCH_STARTED, s.swapId)]), dump, d.dbs - {live})
  }

  lemma NewSceneIsUnaudited(d: Disk, live: string, s: SwapState, dump: Contents)
    requires Fresh(d, live, s, dump)
    ensures Apart(NewScene(d, live, s, dump))
    ensures Audited(REQUESTED, NewScene(d, live, s, dump))
  {
    NamesAreDistinct(s);
    var sc := NewScene(d, live, s, dump);
    forall action | action in {RESTORED, TAKEN_BACK}
      ensures Times(sc.before, action, s.swapId) == 0 && Times(sc.restored, action, s.swapId) == 0
    {
      TimesGrow(d.dbs[live], Audit(SWITCH_STARTED, s.swapId), action, s.swapId);
      TimesGrow(dump, Audit(SWITCH_STARTED, s.swapId), action, s.swapId);
    }
  }

  /** Once the phase is persisted, the restore is a pending swap of the dump for the old contents. */
  lemma BegunIsPending(d: Disk, live: string, s: SwapState, dump: Contents)
    requires Fresh(d, live, s, dump)
    ensures var sc := NewScene(d, live, s, dump);
            Pending(At(REQUESTED, Ready, sc), live, d.dbs[live].origin) && SceneOf(At(REQUESTED, Ready, sc)) == sc
  {
    var sc := NewScene(d, live, s, dump);
    NewSceneIsUnaudited(d, live, s, dump);
    LaidHasLayout(Ready, sc);
    SwapOnlyIsPending(At(REQUESTED, Ready, sc), sc, live, d.dbs[live].origin);
  }

  lemma CleanUpKeeps(d: Disk, live: string, s: SwapState, drops: bool, logs: bool, accepted: nat)
    requires Idle(d, live, accepted) || Pending(d, live, accepted)
    requires IsValid(s) && s.liveDatabase == live
    ensures Inv(World(CleanUp(d, s, drops, logs), accepted), live)
  {
    NamesAreDistinct(s);
    if Pending(d, live, accepted) && live in d.dbs { PendingAfterOtherAudit(d, Audit(REJECTED, ""), live, accepted); }
  }

  /** Whatever became of the swap after preparation, it left an idle or a pending disk. */
  lemma SwappingKeeps(d: Disk, live: string, s: SwapState, dump: Contents, prepared: Disk, effects: nat, accepted: nat)
    requires Fresh(d, live, s, dump) && d.dbs[live].origin == accepted && prepared == Prepared(NewScene(d, live, s, dump))
    ensures var done := ThenFinalizeForward(Begin(prepared, s, effects)).disk;
            Idle(done, live, accepted) || Pending(done, live, accepted)
  {
    var sc := NewScene(d, live, s, dump);
    BegunIsPending(d, live, s, dump);
    NewSceneIsUnaudited(d, live, s, dump);
    if effects > 0 {
      assert Written(prepared, s) == At(REQUESTED, Ready, sc);
      ForwardKeeps(At(REQUESTED, Ready, sc), effects - 1, live, accepted);
    }
  }

  lemma ExecuteKeeps(w: World, live: string, s: SwapState, dump: Contents, sound: bool, effects: nat, ending: Ending)
    requires Inv(w, live) && Fresh(w.disk, live, s, dump) && w.disk.store.None?
    ensures Inv(World(Execute(w.disk, s, dump, sound, effects, ending).disk, w.accepted), live)
  {
    PrepareKeepsIdle(w.disk, live, s, dump, sound, effects, w.accepted);
    var prepared := Prepare(w.disk, s, dump, sound, effects);
    if prepared.reply.Done? {
      SwappingKeeps(w.disk, live, s, dump, prepared.disk, prepared.effects, w.accepted);
      if ending.CleansUp? {
        CleanUpKeeps(ThenFinalizeForward(Begin(prepared.disk, s, prepared.effects)).disk, live, s, ending.drops, ending.logs, w.accepted);
      }
    } else if ending.CleansUp? {
      CleanUpKeeps(prepared.disk, live, s, ending.drops, ending.logs, w.accepted);
    }
  }

  lemma RestartKeeps(w: World, live: string, effects: nat)
    requires Inv(w, live)
    ensures Inv(w.(disk := Restart(w.disk, effects).disk), live)
  {
    if Pending(w.disk, live, w.accepted) {
      if w.disk.store.value.phase in {REQUESTED, LIVE_RENAMED, SWAPPED} { ForwardKeeps(w.disk, effects, live, w.accepted); }
      else { BackwardKeeps(w.disk, effects, live, w.accepted); }
    }
  }

  lemma RollbackKeeps(w: World, live: string, effects: nat)
    requires Inv(w, live)
    ensures Inv(w.(disk := RollbackCall(w.disk, effects).disk), live)
  {
    if Pending(w.disk, live, w.accepted) && w.disk.store.value.phase in {COMPLETED, ROLLBACK_LIVE_RENAMED, ROLLBACK_COMPLETED} {
      BackwardKeeps(w.disk, effects, live, w.accepted);
    }
  }

  lemma NextKeepsInv(w: World, live: string, e: Event)
    requires Inv(w, live)
    ensures Inv(Next(w, live, e), live)
  {
    match e
    case ExecuteEvent(s, dump, sound, effects, ending) =>
      if w.disk.store.None? && Fresh(w.disk, live, s, dump) { ExecuteKeeps(w, live, s, dump, sound, effects, ending); }
    case RestartEvent(effects) => RestartKeeps(w, live, effects);
    case RollbackEvent(effects) => RollbackKeeps(w, live, effects);
    case AcceptEvent(effects) => AcceptKeeps(w, live, effects);
  }

  lemma {:induction false} RunKeepsInv(w: World, live: string, events: seq<Event>)
    requires Inv(w, live)
    ensures Inv(Run(w, live, events), live)
    decreases |events|
  {
    if events != [] {
      NextKeepsInv(w, live, events[0]);
      RunKeepsInv(Next(w, live, events[0]), live, events[1..]);
    }
  }

  // ---- Main results ----

  ghost function Start(dbs: map<string, Contents>, live: string): World
    requires live in dbs
  {
    World(Disk(None, dbs), dbs[live].origin)
  }

  /** In every run, cut off anywhere: what people last decided to keep is under the live or the
      fallback name, and under the live name whenever no swap is pending. */
  lemma AcceptedContentsSurvive(dbs: map<string, Contents>, live: string, events: seq<Event>)
    requires live in dbs
    ensures var w := Run(Start(dbs, live), live, events);
            HeldUnder(w, live) || (w.disk.store.Some? && HeldUnder(w, w.disk.store.value.previousDatabase))
    ensures var w := Run(Start(dbs, live), live, events);
            w.disk.store.None? ==> HeldUnder(w, live)
  {
    RunKeepsInv(Start(dbs, live), live, events);
    var w := Run(Start(dbs, live), live, events);
    if Pending(w.disk, live, w.accepted) {
      LayoutIgnoresPhase(w.disk.dbs, w.disk.store.value, REQUESTED);
      NamesAreDistinct(w.disk.store.value);
    }
  }

  ghost predicate HeldUnder(w: World, name: string) {
    name in w.disk.dbs && w.disk.dbs[name].origin == w.accepted
  }

  /** In every run no database of a swap has its completion or its rollback audited twice, and the
      final phases mean that the live database has the entry. */
  lemma AuditedOnce(dbs: map<string, Contents>, live: string, events: seq<Event>)
    requires live in dbs
    ensures AuditsFit(Run(Start(dbs, live), live, events).disk, live)
  {
    RunKeepsInv(Start(dbs, live), live, events);
    var w := Run(Start(dbs, live), live, events);
    if Pending(w.disk, live, w.accepted) { PendingIsAuditedOnce(w.disk, live, w.accepted); }
    else if Decided(w.disk, live, w.accepted) { NamesAreDistinct(w.disk.store.value); }
  }

  ghost predicate AuditsFit(d: Disk, live: string) {
    d.store.Some? ==>
      var s := d.store.value;
      && (forall name :: name in {live, s.stagedDatabase, s.previousDatabase} && name in d.dbs ==> OncePerSwap(d.dbs[name], s.swapId))
      && (s.phase == COMPLETED && live in d.dbs && s.previousDatabase in d.dbs ==> Times(d.dbs[live], RESTORED, s.swapId) == 1)
      && (s.phase == ROLLBACK_COMPLETED && live in d.dbs && s.stagedDatabase in d.dbs ==> Times(d.dbs[live], TAKEN_BACK, s.swapId) == 1)
  }

  lemma PendingIsAuditedOnce(d: Disk, live: string, accepted: nat)
    requires Pending(d, live, accepted)
    ensures AuditsFit(d, live)
  {
    LayoutIgnoresPhase(d.dbs, d.store.value, REQUESTED);
    NamesAreDistinct(d.store.value);
    assert Apart(SceneOf(d));
  }

  /** Whether the swap is completed, but an attempt to take it back died after its first rename, before
      it wrote a phase. */
  predicate TakeBackUnwritten(d: Disk) {
    d.store.Some? && d.store.value.phase == COMPLETED && LayoutOf(d.dbs, d.store.value) == Between
  }

  /** A backend that starts and lives for six effects never reports an inconsistent layout and leaves
      every pending swap completed or taken back.  The live database is there afterwards, except
      exactly where a rollback died before it wrote its phase. */
  lemma RestartConverges(dbs: map<string, Contents>, live: string, events: seq<Event>, effects: nat)
    requires live in dbs && effects >= 6
    ensures var w := Run(Start(dbs, live), live, events);
            var done := Restart(w.disk, effects);
            && done.reply.Done?
            && (done.disk.store.Some? ==> done.disk.store.value.phase in {COMPLETED, ROLLBACK_COMPLETED})
            && (live in done.disk.dbs <==> !TakeBackUnwritten(w.disk))
  {
    RunKeepsInv(Start(dbs, live), live, events);
    var w := Run(Start(dbs, live), live, events);
    if Pending(w.disk, live, w.accepted) {
      LayoutIgnoresPhase(w.disk.dbs, w.disk.store.value, REQUESTED);
      if w.disk.store.value.phase in {REQUESTED, LIVE_RENAMED, SWAPPED} { ForwardKeeps(w.disk, effects, live, w.accepted); }
      else { BackwardKeeps(w.disk, effects, live, w.accepted); }
    }
  }

  /** Taking back succeeds exactly in the phases that offer it, while the other copy still exists: not
      when only the rollback's audit is missing, which must wait for a restart, and not after an
      acceptance that has dropped the other copy but was cut off before it forgot the swap. */
  lemma RollbackSucceedsExactly(dbs: map<string, Contents>, live: string, events: seq<Event>, effects: nat)
    requires live in dbs && effects >= 6
    ensures var w := Run(Start(dbs, live), live, events);
            var done := RollbackCall(w.disk, effects);
            && (done.reply.Done? <==>
                  w.disk.store.Some? && w.disk.store.value.phase in {COMPLETED, ROLLBACK_LIVE_RENAMED, ROLLBACK_COMPLETED}
                  && Discarded(w.disk.store.value) in w.disk.dbs)
            && (done.reply.Done? ==> live in done.disk.dbs && done.disk.dbs[live].origin == w.accepted)
            && (!done.reply.Done? ==> done.disk == w.disk)
  {
    RunKeepsInv(Start(dbs, live), live, events);
    var w := Run(Start(dbs, live), live, events);
    if Pending(w.disk, live, w.accepted) && w.disk.store.value.phase in {COMPLETED, ROLLBACK_LIVE_RENAMED, ROLLBACK_COMPLETED} {
      LayoutIgnoresPhase(w.disk.dbs, w.disk.store.value, REQUESTED);
      BackwardKeeps(w.disk, effects, live, w.accepted);
      var done := RollbackCall(w.disk, effects);
      LayoutIgnoresPhase(done.disk.dbs, done.disk.store.value, REQUESTED);
    }
  }

  lemma ExecuteCompletes(w: World, live: string, s: SwapState, dump: Contents)
    requires Idle(w.disk, live, w.accepted) && Fresh(w.disk, live, s, dump)
    ensures var d := Execute(w.disk, s, dump, true, 12, Dies).disk;
            && Pending(d, live, w.accepted) && d.store.value.phase == COMPLETED && d.store.value.liveDatabase == live
            && LayoutOf(d.dbs, d.store.value) == Exchanged
  {
    var sc := NewScene(w.disk, live, s, dump);
    PrepareKeepsIdle(w.disk, live, s, dump, true, 12, w.accepted);
    NamesAreDistinct(s);
    var prepared := Prepare(w.disk, s, dump, true, 12);
    assert prepared.reply.Done? && prepared.effects == 9;
    BegunIsPending(w.disk, live, s, dump);
    assert Written(prepared.disk, s) == At(REQUESTED, Ready, sc);
    ForwardKeeps(At(REQUESTED, Ready, sc), 8, live, w.accepted);
  }

  lemma CutTakeBack(d: Disk, live: string, accepted: nat)
    requires Pending(d, live, accepted) && d.store.value.phase == COMPLETED && LayoutOf(d.dbs, d.store.value) == Exchanged
    ensures TakeBackUnwritten(RollbackCall(d, 1).disk)
  {
    NamesAreDistinct(d.store.value);
  }

  /** Every completed restore can get there: an attempt to take it back that dies after one rename.
      No restart brings the live database back, however long it lives; asking again does. */
  lemma CutTakeBackNeedsAsking(dbs: map<string, Contents>, live: string, s: SwapState, dump: Contents, effects: nat)
    requires live in dbs && Fresh(Disk(None, dbs), live, s, dump)
    ensures var w := Run(Start(dbs, live), live, [ExecuteEvent(s, dump, true, 12, Dies), RollbackEvent(1)]);
            && TakeBackUnwritten(w.disk) && live !in w.disk.dbs
            && Restart(w.disk, effects) == Served(w.disk, Done, effects)
            && (effects >= 6 ==>
                  var done := RollbackCall(w.disk, effects);
                  done.reply.Done? && live in done.disk.dbs && done.disk.dbs[live].origin == dbs[live].origin)
  {
    var w, execute, back := Start(dbs, live), ExecuteEvent(s, dump, true, 12, Dies), RollbackEvent(1);
    ExecuteCompletes(w, live, s, dump);
    var completed := Next(w, live, execute);
    CutTakeBack(completed.disk, live, w.accepted);
    RunTwo(w, live, execute, back);
    var cut := Next(completed, live, back);
    BackwardKeeps(completed.disk, 1, live, w.accepted);
    assert live !in cut.disk.dbs;
    if effects >= 6 { RollbackSucceedsExactly(dbs, live, [execute, back], effects); }
  }

  lemma RunTwo(w: World, live: string, a: Event, b: Event)
    ensures Run(w, live, [a, b]) == Next(Next(w, live, a), live, b)
  {
    assert [a, b][1..] == [b] && [b][1..] == [];
    assert Run(w, live, [a, b]) == Run(Next(w, live, a), live, [b]);
    assert Run(Next(w, live, a), live, [b]) == Run(Next(Next(w, live, a), live, b), live, []);
  }
}
