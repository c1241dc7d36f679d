/**
 * The restore service around the database swap: preparing a staged copy, auditing, taking back,
 * accepting, and what a restarted backend does first.
 */
module NativeRestore {
  import opened Common
  import opened RestoreSwap

  const SWITCH_STARTED := "RESTORE_SWITCH_STARTED"
  const RESTORED := "RESTORE_COMPLETED"
  const TAKEN_BACK := "RESTORE_ROLLED_BACK"
  const ACCEPTED := "RESTORE_ACCEPTED"
  const REJECTED := "RESTORE_REJECTED"

  datatype Reply = Done | Rejected | Died

  datatype Served = Served(disk: Disk, reply: Reply, effects: nat)

  function ReplyOf(o: Outcome): Reply {
    match o
    case Finished(_) => Done
    case Refused(_) => Rejected
    case Crashed => Died
  }

  function Logged(dbs: map<string, Contents>, name: string, entry: Audit): map<string, Contents>
    requires name in dbs
  {
    dbs[name := dbs[name].(audits := dbs[name].audits + [entry])]
  }

  /** An audit row goes to the live database; without one the write fails. */
  function WriteAudit(d: Disk, live: string, entry: Audit, effects: nat): Served {
    if live !in d.dbs then Served(d, Rejected, effects)
    else if effects == 0 then Served(d, Died, 0)
    else Served(d.(dbs := Logged(d.dbs, live, entry)), Done, effects - 1)
  }

  function WriteAuditOnce(d: Disk, live: string, entry: Audit, effects: nat): Served {
    if live in d.dbs && entry in d.dbs[live].audits then Served(d, Done, effects)
    else WriteAudit(d, live, entry, effects)
  }

  function FinalizeForward(d: Disk, effects: nat): Served {
    if d.store.None? then Served(d, Rejected, effects)
    else
      var s := d.store.value;
      var audited := WriteAuditOnce(d, s.liveDatabase, Audit(RESTORED, s.swapId), effects);
      if !audited.reply.Done? then audited
      else
        var ran := Mark(audited.disk, SWAPPED, COMPLETED, audited.effects);
        Served(ran.disk, ReplyOf(ran.outcome), ran.effects)
  }

  function FinalizeRollback(d: Disk, effects: nat): Served {
    if d.store.None? then Served(d, Rejected, effects)
    else
      var s := d.store.value;
      var audited := WriteAuditOnce(d, s.liveDatabase, Audit(TAKEN_BACK, s.swapId), effects);
      if !audited.reply.Done? then audited
      else
        var ran := Mark(audited.disk, ROLLED_BACK, ROLLBACK_COMPLETED, audited.effects);
        Served(ran.disk, ReplyOf(ran.outcome), ran.effects)
  }

  function ThenFinalizeForward(ran: Ran): Served {
    if !ran.outcome.Finished? then Served(ran.disk, ReplyOf(ran.outcome), ran.effects)
    else FinalizeForward(ran.disk, ran.effects)
  }

  function ThenFinalizeRollback(ran: Ran): Served {
    if !ran.outcome.Finished? then Served(ran.disk, ReplyOf(ran.outcome), ran.effects)
    else FinalizeRollback(ran.disk, ran.effects)
  }

  /** What the backend does with a persisted swap when it starts. */
  function Restart(d: Disk, effects: nat): Served {
    if d.store.None? then Served(d, Done, effects)
    else if d.store.value.phase in {REQUESTED, LIVE_RENAMED, SWAPPED} then ThenFinalizeForward(Resume(d, effects))
    else if d.store.value.phase in {ROLLBACK_LIVE_RENAMED, ROLLED_BACK} then ThenFinalizeRollback(Rollback(d, effects))
    else Served(d, Done, effects)
  }

  /** An administrator takes the restore back.  ROLLED_BACK does not begin with "ROLLBACK", so a
      rollback that lacks only its audit is refused here and finished by a restart. */
  function RollbackCall(d: Disk, effects: nat): Served {
    if d.store.None? || d.store.value.phase !in {ROLLBACK_LIVE_RENAMED, ROLLBACK_COMPLETED, COMPLETED}
    then Served(d, Rejected, effects)
    else ThenFinalizeRollback(Rollback(d, effects))
  }

  function Discarded(s: SwapState): string {
    if s.phase == COMPLETED then s.previousDatabase else s.stagedDatabase
  }

  /** Audit, drop the other copy, forget the swap. */
  function AcceptCall(d: Disk, effects: nat): Served {
    if d.store.None? || d.store.value.phase !in {COMPLETED, ROLLBACK_COMPLETED} then Served(d, Rejected, effects)
    else
      var s := d.store.value;
      var audited := WriteAudit(d, s.liveDatabase, Audit(ACCEPTED, s.swapId), effects);
      if !audited.reply.Done? then audited
      else if audited.effects == 0 then Served(audited.disk, Died, 0)
      else
        var dropped := audited.disk.(dbs := audited.disk.dbs - {Discarded(s)});
        if audited.effects == 1 then Served(dropped, Died, 0)
        else Served(dropped.(store := None), Done, audited.effects - 2)
  }

  /** A staged copy is created, filled from the dump and checked, the start is audited, and the
      swap runs.  `sound` says whether the staged copy passed its checks. */
  function Prepare(d: Disk, s: SwapState, dump: Contents, sound: bool, effects: nat): Served {
    if s.stagedDatabase in d.dbs then Served(d, Rejected, effects)
    else if effects == 0 then Served(d, Died, 0)
    else
      var created := d.(dbs := d.dbs[s.stagedDatabase := Contents(0, [])]);
      if effects == 1 then Served(created, Died, 0)
      else
        var filled := d.(dbs := d.dbs[s.stagedDatabase := dump]);
        if !sound then Served(filled, Rejected, effects - 2)
        else WriteAudit(filled, s.liveDatabase, Audit(SWITCH_STARTED, s.swapId), effects - 2)
  }

  /** How a restore ends that does not succeed: the process dies, or it cleans up as far as it can. */
  datatype Ending = Dies | CleansUp(drops: bool, logs: bool)

  /** The error path: the staged copy goes only if no swap was persisted; either step may fail silently. */
  function CleanUp(d: Disk, s: SwapState, drops: bool, logs: bool): Disk {
    var dbs := if drops && d.store.None? then d.dbs - {s.stagedDatabase} else d.dbs;
    d.(dbs := if logs && s.liveDatabase in dbs then Logged(dbs, s.liveDatabase, Audit(REJECTED, "")) else dbs)
  }

  function Execute(d: Disk, s: SwapState, dump: Contents, sound: bool, effects: nat, ending: Ending): Served {
    if d.store.Some? then Served(d, Rejected, effects)
    else
      var prepared := Prepare(d, s, dump, sound, effects);
      var done := if !prepared.reply.Done? then prepared
                  else ThenFinalizeForward(Begin(prepared.disk, s, prepared.effects));
      if done.reply.Done? then done
      else
        match ending
        case Dies => Served(done.disk, Died, done.effects)
        case CleansUp(drops, logs) => Served(CleanUp(done.disk, s, drops, logs), Rejected, done.effects)
  }

  class NativeRestoreService {
    const swap: RestoreSwapCoordinator

    constructor (coordinator: RestoreSwapCoordinator)
      ensures swap == coordinator
    {
      swap := coordinator;
    }

    ghost function View(): Disk
      reads this, swap
    {
      swap.View()
    }

    method WriteAuditRow(live: string, entry: Audit) returns (reply: Reply)
      modifies swap
      ensures Served(View(), reply, swap.effects) == WriteAudit(old(View()), live, entry, old(swap.effects))
    {
      if live !in swap.dbs { return Rejected; }
      if swap.effects == 0 { return Died; }
      swap.dbs := swap.dbs[live := swap.dbs[live].(audits := swap.dbs[live].audits + [entry])];
      swap.effects := swap.effects - 1;
      return Done;
    }

    method WriteAuditRowOnce(live: string, entry: Audit) returns (reply: Reply)
      modifies swap
      ensures Served(View(), reply, swap.effects) == WriteAuditOnce(old(View()), live, entry, old(swap.effects))
    {
      if live in swap.dbs && entry in swap.dbs[live].audits { return Done; }
      reply := WriteAuditRow(live, entry);
    }

    method FinalizeForwardSwap() returns (reply: Reply)
      modifies swap
      ensures Served(View(), reply, swap.effects) == FinalizeForward(old(View()), old(swap.effects))
    {
      if swap.store.None? { return Rejected; }
      var state := swap.store.value;
      reply := WriteAuditRowOnce(state.liveDatabase, Audit(RESTORED, state.swapId));
      if !reply.Done? { return; }
      var outcome := swap.MarkCompleted();
      reply := ReplyOf(outcome);
    }

    method FinalizeRollbackSwap() returns (reply: Reply)
      modifies swap
      ensures Served(View(), reply, swap.effects) == FinalizeRollback(old(View()), old(swap.effects))
    {
      if swap.store.None? { return Rejected; }
      var state := swap.store.value;
      reply := WriteAuditRowOnce(state.liveDatabase, Audit(TAKEN_BACK, state.swapId));
      if !reply.Done? { return; }
      var outcome := swap.MarkRollbackCompleted();
      reply := ReplyOf(outcome);
    }

    method OnModuleInit() returns (reply: Reply)
      modifies swap
      ensures Served(View(), reply, swap.effects) == Restart(old(View()), old(swap.effects))
    {
      if swap.store.None? { return Done; }
      var phase := swap.store.value.phase;
      if phase == REQUESTED || phase == LIVE_RENAMED || phase == SWAPPED {
        var outcome := swap.ResumeSwap();
        if !outcome.Finished? { return ReplyOf(outcome); }
        reply := FinalizeForwardSwap();
        return;
      }
      if phase == ROLLBACK_LIVE_RENAMED || phase == ROLLED_BACK {
        var outcome := swap.RollbackSwap();
        if !outcome.Finished? { return ReplyOf(outcome); }
        reply := FinalizeRollbackSwap();
        return;
      }
      return Done;
    }

    method RollbackRestore() returns (reply: Reply)
      modifies swap
      ensures Served(View(), reply, swap.effects) == RollbackCall(old(View()), old(swap.effects))
    {
      if swap.store.None? || swap.store.value.phase !in {ROLLBACK_LIVE_RENAMED, ROLLBACK_COMPLETED, COMPLETED} {
        return Rejected;
      }
      var outcome := swap.RollbackSwap();
      if !outcome.Finished? { return ReplyOf(outcome); }
      reply := FinalizeRollbackSwap();
    }

    method AcceptRestore() returns (reply: Reply)
      modifies swap
      ensures Served(View(), reply, swap.effects) == AcceptCall(old(View()), old(swap.effects))
    {
      if swap.store.None? { return Rejected; }
      var state := swap.store.value;
      if state.phase != COMPLETED && state.phase != ROLLBACK_COMPLETED { return Rejected; }
      var discarded := if state.phase == COMPLETED then state.previousDatabase else state.stagedDatabase;
      reply := WriteAuditRow(state.liveDatabase, Audit(ACCEPTED, state.swapId));
      if !reply.Done? { return; }
      if swap.effects == 0 { return Died; }
      swap.dbs, swap.effects := swap.dbs - {discarded}, swap.effects - 1;
      if swap.effects == 0 { return Died; }
      swap.store, swap.effects := None, swap.effects - 1;
      return Done;
    }

    method PrepareRestore(s: SwapState, dump: Contents, sound: bool) returns (reply: Reply)
      modifies swap
      ensures Served(View(), reply, swap.effects) == Prepare(old(View()), s, dump, sound, old(swap.effects))
    {
      if s.stagedDatabase in swap.dbs { return Rejected; }
      if swap.effects == 0 { return Died; }
      swap.dbs, swap.effects := swap.dbs[s.stagedDatabase := Contents(0, [])], swap.effects - 1;
      if swap.effects == 0 { return Died; }
      swap.dbs, swap.effects := swap.dbs[s.stagedDatabase := dump], swap.effects - 1;
      assert swap.dbs == old(swap.dbs)[s.stagedDatabase := dump];
      if !sound { return Rejected; }
      reply := WriteAuditRow(s.liveDatabase, Audit(SWITCH_STARTED, s.swapId));
    }

    method ExecuteRestore(s: SwapState, dump: Contents, sound: bool, ending: Ending) returns (reply: Reply)
      modifies swap
      ensures Served(View(), reply, swap.effects) == Execute(old(View()), s, dump, sound, old(swap.effects), ending)
    {
      if swap.store.Some? { return Rejected; }
      reply := PrepareRestore(s, dump, sound);
      if reply.Done? {
        var outcome := swap.BeginSwap(s);
        if outcome.Finished? { reply := FinalizeForwardSwap(); } else { reply := ReplyOf(outcome); }
      }
      if reply.Done? { return; }
      if ending.Dies? { return Died; }
      if ending.drops && swap.store.None? { swap.dbs := swap.dbs - {s.stagedDatabase}; }
      if ending.logs && s.liveDatabase in swap.dbs {
        var row := swap.dbs[s.liveDatabase];
        swap.dbs := swap.dbs[s.liveDatabase := row.(audits := row.audits + [Audit(REJECTED, "")])];
      }
      reply := Rejected;
    }
  }
}
