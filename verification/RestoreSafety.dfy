/** What every crash schedule of the database swap keeps, and where it converges. */
module RestoreSafety {
  import opened Common
  import opened RestoreSwap

  /** A swap: its names, the contents it exchanges, and every other database of the server. */
  datatype Scene = Scene(names: SwapState, before: Contents, restored: Contents, others: map<string, Contents>)

  /** The databases in each of the three layouts; everything else on the server stays as it is. */
  function Laid(layout: Layout, sc: Scene): map<string, Contents> {
    sc.others
    + (if layout.live then map[sc.names.liveDatabase := if layout.staged then sc.before else sc.restored] else map[])
    + (if layout.staged then map[sc.names.stagedDatabase := sc.restored] else map[])
    + (if layout.previous then map[sc.names.previousDatabase := sc.before] else map[])
  }

  predicate PhaseFits(phase: SwapPhase, layout: Layout) {
    match phase
    case REQUESTED => layout in {Ready, Between}
    case LIVE_RENAMED => layout in {Between, Exchanged}
    case SWAPPED => layout in {Exchanged, Between}
    case COMPLETED => layout in {Exchanged, Between}
    case ROLLBACK_LIVE_RENAMED => layout in {Between, Ready}
    case ROLLED_BACK => layout == Ready
    case ROLLBACK_COMPLETED => layout == Ready
  }

  ghost predicate Apart(sc: Scene) {
    Distinct(sc.names) && sc.others.Keys !! {sc.names.liveDatabase, sc.names.stagedDatabase, sc.names.previousDatabase}
  }

  /** Phase, layout and contents fit together. */
  ghost predicate Safe(d: Disk, sc: Scene) {
    var layout := LayoutOf(d.dbs, sc.names);
    && Apart(sc)
    && d.store.Some? && d == At(d.store.value.phase, layout, sc)
    && PhaseFits(d.store.value.phase, layout)
  }

  function At(phase: SwapPhase, layout: Layout, sc: Scene): Disk {
    Disk(Some(sc.names.(phase := phase)), Laid(layout, sc))
  }

  lemma LaidHasLayout(layout: Layout, sc: Scene)
    requires Apart(sc)
    ensures LayoutOf(Laid(layout, sc), sc.names) == layout
  {
  }

  lemma LiveToPrevious(sc: Scene)
    requires Apart(sc)
    ensures Renamed(Laid(Ready, sc), sc.names.liveDatabase, sc.names.previousDatabase) == Laid(Between, sc)
  {
  }

  lemma StagedToLive(sc: Scene)
    requires Apart(sc)
    ensures Renamed(Laid(Between, sc), sc.names.stagedDatabase, sc.names.liveDatabase) == Laid(Exchanged, sc)
  {
  }

  lemma LiveToStaged(sc: Scene)
    requires Apart(sc)
    ensures Renamed(Laid(Exchanged, sc), sc.names.liveDatabase, sc.names.stagedDatabase) == Laid(Between, sc)
  {
  }

  lemma PreviousToLive(sc: Scene)
    requires Apart(sc)
    ensures Renamed(Laid(Between, sc), sc.names.previousDatabase, sc.names.liveDatabase) == Laid(Ready, sc)
  {
  }

  lemma AtIsSafe(phase: SwapPhase, layout: Layout, sc: Scene)
    requires Apart(sc) && PhaseFits(phase, layout)
    ensures Safe(At(phase, layout, sc), sc)
  {
    LaidHasLayout(layout, sc);
  }

  // ---- How many effects are left ----

  /** Measure of the forward swap: the effects it still performs. */
  function ForwardLeft(phase: SwapPhase, layout: Layout): nat {
    match phase
    case REQUESTED => if layout == Ready then 4 else 3
    case LIVE_RENAMED => if layout == Between then 2 else 1
    case _ => 0
  }

  /** Measure of the rollback. */
  function BackwardLeft(phase: SwapPhase, layout: Layout): nat {
    match phase
    case ROLLBACK_LIVE_RENAMED => if layout == Between then 2 else 1
    case ROLLED_BACK => 0
    case ROLLBACK_COMPLETED => 0
    case _ => if layout == Exchanged then 4 else 3
  }

  function ForwardEnd(phase: SwapPhase): SwapPhase { if phase == COMPLETED then COMPLETED else SWAPPED }

  function BackwardEnd(phase: SwapPhase): SwapPhase { if phase == ROLLBACK_COMPLETED then ROLLBACK_COMPLETED else ROLLED_BACK }

  /** Half-way back already, although the persisted phase does not say so yet. */
  predicate HalfRolledBack(phase: SwapPhase, layout: Layout) {
    phase in {SWAPPED, COMPLETED} && layout == Between
  }

  /** A run that ends properly ends at a given place with the remaining effects; a run that is cut
      short leaves something safe with less to do. */
  ghost predicate Converges(ran: Ran, left: nat, effects: nat, end: Disk, sc: Scene)
  {
    && (effects >= left ==> end.store.Some? && ran == Ran(end, Finished(end.store.value), effects - left))
    && (effects < left ==> ran.outcome == Crashed)
    && Safe(ran.disk, sc)
  }

  predicate IsRollbackPhase(phase: SwapPhase) {
    phase in {ROLLBACK_LIVE_RENAMED, ROLLED_BACK, ROLLBACK_COMPLETED}
  }

  /** A disk that no rollback has touched, on its way to the given phase. */
  ghost predicate Onward(d: Disk, end: SwapPhase, sc: Scene) {
    && Safe(d, sc) && !IsRollbackPhase(d.store.value.phase) && ForwardEnd(d.store.value.phase) == end
    && !HalfRolledBack(d.store.value.phase, LayoutOf(d.dbs, sc.names))
  }

  lemma ForwardFrom(phase: SwapPhase, layout: Layout, effects: nat, sc: Scene)
    requires Apart(sc) && PhaseFits(phase, layout)
    requires phase in {REQUESTED, LIVE_RENAMED, SWAPPED, COMPLETED} && !HalfRolledBack(phase, layout)
    ensures Converges(Forward(At(phase, layout, sc), sc.names.(phase := phase), effects),
                      ForwardLeft(phase, layout), effects,
                      At(ForwardEnd(phase), Exchanged, sc), sc)
    ensures Onward(Forward(At(phase, layout, sc), sc.names.(phase := phase), effects).disk, ForwardEnd(phase), sc)
    decreases ForwardLeft(phase, layout)
  {
    LaidHasLayout(layout, sc);
    LaidHasLayout(Between, sc);
    LaidHasLayout(Exchanged, sc);
    LiveToPrevious(sc);
    StagedToLive(sc);
    if phase == REQUESTED && layout == Ready && effects >= 2 {
      ForwardFrom(LIVE_RENAMED, Between, effects - 2, sc);
    } else if phase == REQUESTED && layout == Between && effects >= 1 {
      ForwardFrom(LIVE_RENAMED, Between, effects - 1, sc);
    } else if phase == LIVE_RENAMED && layout == Between && effects >= 2 {
      ForwardFrom(SWAPPED, Exchanged, effects - 2, sc);
    }
  }

  /** A rollback moves the phase towards ROLLED_BACK and leaves a finished one alone. */
  ghost predicate Backwards(phase: SwapPhase, d: Disk) {
    && d.store.Some? && d.store.value.phase in {phase, ROLLBACK_LIVE_RENAMED, ROLLED_BACK}
    && (phase in {ROLLED_BACK, ROLLBACK_COMPLETED} ==> d.store.value.phase == phase)
  }

  /** A rollback from this phase and layout ends Ready after its number of effects, and never leaves its way. */
  ghost predicate GoesBack(phase: SwapPhase, layout: Layout, effects: nat, sc: Scene) {
    && Converges(Backward(At(phase, layout, sc), sc.names.(phase := phase), effects),
                 BackwardLeft(phase, layout), effects, At(BackwardEnd(phase), Ready, sc), sc)
    && Backwards(phase, Backward(At(phase, layout, sc), sc.names.(phase := phase), effects).disk)
  }

  lemma BackwardFromReady(phase: SwapPhase, effects: nat, sc: Scene)
    requires Apart(sc) && PhaseFits(phase, Ready) && IsRollbackPhase(phase)
    ensures GoesBack(phase, Ready, effects, sc)
  {
    LaidHasLayout(Ready, sc);
  }

  lemma BetweenStep(effects: nat, sc: Scene)
    requires Apart(sc)
    ensures Backward(At(ROLLBACK_LIVE_RENAMED, Between, sc), sc.names.(phase := ROLLBACK_LIVE_RENAMED), effects)
         == if effects == 0 then Ran(At(ROLLBACK_LIVE_RENAMED, Between, sc), Crashed, 0)
            else if effects == 1 then Ran(At(ROLLBACK_LIVE_RENAMED, Ready, sc), Crashed, 0)
            else Backward(At(ROLLED_BACK, Ready, sc), sc.names.(phase := ROLLED_BACK), effects - 2)
  {
    LaidHasLayout(Ready, sc);
    LaidHasLayout(Between, sc);
    PreviousToLive(sc);
  }

  lemma BackwardFromBetween(effects: nat, sc: Scene)
    requires Apart(sc)
    ensures GoesBack(ROLLBACK_LIVE_RENAMED, Between, effects, sc)
  {
    BetweenStep(effects, sc);
    AtIsSafe(ROLLBACK_LIVE_RENAMED, Between, sc);
    AtIsSafe(ROLLBACK_LIVE_RENAMED, Ready, sc);
    if effects >= 2 { BackwardFromReady(ROLLED_BACK, effects - 2, sc); }
  }

  lemma UnwrittenStep(phase: SwapPhase, effects: nat, sc: Scene)
    requires Apart(sc) && phase in {SWAPPED, COMPLETED}
    ensures Backward(At(phase, Between, sc), sc.names.(phase := phase), effects)
         == if effects == 0 then Ran(At(phase, Between, sc), Crashed, 0)
            else Backward(At(ROLLBACK_LIVE_RENAMED, Between, sc), sc.names.(phase := ROLLBACK_LIVE_RENAMED), effects - 1)
  {
    LaidHasLayout(Between, sc);
  }

  lemma BackwardFromUnwritten(phase: SwapPhase, effects: nat, sc: Scene)
    requires Apart(sc) && phase in {SWAPPED, COMPLETED}
    ensures GoesBack(phase, Between, effects, sc)
  {
    UnwrittenStep(phase, effects, sc);
    AtIsSafe(phase, Between, sc);
    if effects >= 1 { BackwardFromBetween(effects - 1, sc); }
  }

  lemma ExchangedStep(phase: SwapPhase, effects: nat, sc: Scene)
    requires Apart(sc) && phase in {SWAPPED, COMPLETED}
    ensures Backward(At(phase, Exchanged, sc), sc.names.(phase := phase), effects)
         == if effects == 0 then Ran(At(phase, Exchanged, sc), Crashed, 0)
            else if effects == 1 then Ran(At(phase, Between, sc), Crashed, 0)
            else Backward(At(ROLLBACK_LIVE_RENAMED, Between, sc), sc.names.(phase := ROLLBACK_LIVE_RENAMED), effects - 2)
  {
    LaidHasLayout(Exchanged, sc);
    LaidHasLayout(Between, sc);
    LiveToStaged(sc);
  }

  lemma BackwardFromExchanged(phase: SwapPhase, effects: nat, sc: Scene)
    requires Apart(sc) && phase in {SWAPPED, COMPLETED}
    ensures GoesBack(phase, Exchanged, effects, sc)
  {
    ExchangedStep(phase, effects, sc);
    AtIsSafe(phase, Exchanged, sc);
    AtIsSafe(phase, Between, sc);
    if effects >= 2 { BackwardFromBetween(effects - 2, sc); }
  }

  lemma BackwardFrom(phase: SwapPhase, layout: Layout, effects: nat, sc: Scene)
    requires Apart(sc) && PhaseFits(phase, layout) && phase !in {REQUESTED, LIVE_RENAMED}
    ensures Converges(Backward(At(phase, layout, sc), sc.names.(phase := phase), effects),
                      BackwardLeft(phase, layout), effects,
                      At(BackwardEnd(phase), Ready, sc), sc)
    ensures Backwards(phase, Backward(At(phase, layout, sc), sc.names.(phase := phase), effects).disk)
  {
    if layout == Ready { BackwardFromReady(phase, effects, sc); }
    else if layout == Exchanged { BackwardFromExchanged(phase, effects, sc); }
    else if phase == ROLLBACK_LIVE_RENAMED { BackwardFromBetween(effects, sc); }
    else { BackwardFromUnwritten(phase, effects, sc); }
    assert GoesBack(phase, layout, effects, sc);
  }

  // ---- Resuming and taking back, from every safe state ----

  function ResumeLeft(d: Disk): nat
    requires d.store.Some?
  {
    var phase, layout := d.store.value.phase, LayoutOf(d.dbs, d.store.value);
    if IsRollbackPhase(phase) then BackwardLeft(phase, layout) else ForwardLeft(phase, layout)
  }

  function ResumeEnd(phase: SwapPhase, sc: Scene): Disk {
    if IsRollbackPhase(phase) then At(BackwardEnd(phase), Ready, sc) else At(ForwardEnd(phase), Exchanged, sc)
  }

  lemma LayoutIgnoresPhase(dbs: map<string, Contents>, s: SwapState, phase: SwapPhase)
    ensures LayoutOf(dbs, s.(phase := phase)) == LayoutOf(dbs, s)
  {
  }

  /** resume() finishes the swap, or the rollback, unless a rollback was interrupted before its
      phase was persisted. */
  lemma ResumeConverges(d: Disk, effects: nat, sc: Scene)
    requires Safe(d, sc) && !HalfRolledBack(d.store.value.phase, LayoutOf(d.dbs, sc.names))
    ensures Converges(Resume(d, effects), ResumeLeft(d), effects, ResumeEnd(d.store.value.phase, sc), sc)
    ensures !IsRollbackPhase(d.store.value.phase) ==> Onward(Resume(d, effects).disk, ForwardEnd(d.store.value.phase), sc)
  {
    var phase, layout := d.store.value.phase, LayoutOf(d.dbs, sc.names);
    LayoutIgnoresPhase(d.dbs, sc.names, phase);
    if IsRollbackPhase(phase) { BackwardFrom(phase, layout, effects, sc); } else { ForwardFrom(phase, layout, effects, sc); }
  }

  /** That one exception is an error report that changes nothing. */
  lemma ResumeFailsExactlyHalfRolledBack(d: Disk, effects: nat, sc: Scene)
    requires Safe(d, sc)
    ensures Resume(d, effects).outcome.Refused? <==> HalfRolledBack(d.store.value.phase, LayoutOf(d.dbs, sc.names))
    ensures Resume(d, effects).outcome.Refused? ==>
              Resume(d, effects) == Ran(d, Refused(INCONSISTENT_DATABASE_LAYOUT), effects)
  {
    LayoutIgnoresPhase(d.dbs, sc.names, d.store.value.phase);
    if !HalfRolledBack(d.store.value.phase, LayoutOf(d.dbs, sc.names)) { ResumeConverges(d, effects, sc); }
  }

  /** rollback() is refused before the exchange is complete, and converges from everywhere else. */
  lemma RollbackConverges(d: Disk, effects: nat, sc: Scene)
    requires Safe(d, sc)
    ensures var phase, layout := d.store.value.phase, LayoutOf(d.dbs, sc.names);
            if phase in {REQUESTED, LIVE_RENAMED} then Rollback(d, effects) == Ran(d, Refused(INVALID_STATE), effects)
            else Converges(Rollback(d, effects), BackwardLeft(phase, layout), effects, At(BackwardEnd(phase), Ready, sc), sc)
                 && Backwards(phase, Rollback(d, effects).disk)
  {
    var phase, layout := d.store.value.phase, LayoutOf(d.dbs, sc.names);
    if phase !in {REQUESTED, LIVE_RENAMED} { BackwardFrom(phase, layout, effects, sc); }
  }

  // ---- Whole runs of the coordinator ----

  /** Each operation with the number of effects the process lives to perform. */
  datatype Op =
    | BeginOp(effects: nat)
    | ResumeOp(effects: nat)
    | RollbackOp(effects: nat)
    | MarkCompletedOp(effects: nat)
    | MarkRollbackCompletedOp(effects: nat)

  function Perform(d: Disk, op: Op, sc: Scene): Ran {
    match op
    case BeginOp(n) => Begin(d, sc.names, n)
    case ResumeOp(n) => Resume(d, n)
    case RollbackOp(n) => Rollback(d, n)
    case MarkCompletedOp(n) => Mark(d, SWAPPED, COMPLETED, n)
    case MarkRollbackCompletedOp(n) => Mark(d, ROLLED_BACK, ROLLBACK_COMPLETED, n)
  }

  function RunOps(d: Disk, ops: seq<Op>, sc: Scene): Disk
    decreases |ops|
  {
    if ops == [] then d else RunOps(Perform(d, ops[0], sc).disk, ops[1..], sc)
  }

  /** Both databases stand ready and nothing is persisted yet. */
  function Prepared(sc: Scene): Disk { Disk(None, Laid(Ready, sc)) }

  ghost predicate Reachable(d: Disk, sc: Scene) { d == Prepared(sc) || Safe(d, sc) }

  lemma BeginKeepsReachable(d: Disk, effects: nat, sc: Scene)
    requires Apart(sc) && Reachable(d, sc) && sc.names.phase == REQUESTED
    ensures Reachable(Begin(d, sc.names, effects).disk, sc)
    ensures d == Prepared(sc) && IsValid(sc.names) && effects >= 5 ==>
      Begin(d, sc.names, effects).disk == At(SWAPPED, Exchanged, sc)
    ensures d == Prepared(sc) && IsValid(sc.names) && effects >= 1 ==> Safe(Begin(d, sc.names, effects).disk, sc)
    ensures Forwards(d, sc) ==> Forwards(Begin(d, sc.names, effects).disk, sc)
  {
    if d == Prepared(sc) && IsValid(sc.names) && effects > 0 {
      LaidHasLayout(Ready, sc);
      ForwardFrom(REQUESTED, Ready, effects - 1, sc);
    }
  }

  lemma MarkKeepsReachable(d: Disk, effects: nat, sc: Scene)
    requires Reachable(d, sc)
    ensures Reachable(Mark(d, SWAPPED, COMPLETED, effects).disk, sc)
    ensures Reachable(Mark(d, ROLLED_BACK, ROLLBACK_COMPLETED, effects).disk, sc)
  {
  }

  lemma PerformKeepsReachable(d: Disk, op: Op, sc: Scene)
    requires Apart(sc) && Reachable(d, sc) && sc.names.phase == REQUESTED
    ensures Reachable(Perform(d, op, sc).disk, sc)
  {
    match op
    case BeginOp(n) => BeginKeepsReachable(d, n, sc);
    case ResumeOp(n) =>
      if d.store.Some? {
        if HalfRolledBack(d.store.value.phase, LayoutOf(d.dbs, sc.names)) { ResumeFailsExactlyHalfRolledBack(d, n, sc); }
        else { ResumeConverges(d, n, sc); }
      }
    case RollbackOp(n) => if d.store.Some? { RollbackConverges(d, n, sc); }
    case MarkCompletedOp(n) => MarkKeepsReachable(d, n, sc);
    case MarkRollbackCompletedOp(n) => MarkKeepsReachable(d, n, sc);
  }

  lemma {:induction false} RunKeepsReachable(d: Disk, ops: seq<Op>, sc: Scene)
    requires Apart(sc) && Reachable(d, sc) && sc.names.phase == REQUESTED
    ensures Reachable(RunOps(d, ops, sc), sc)
    decreases |ops|
  {
    if ops != [] {
      PerformKeepsReachable(d, ops[0], sc);
      RunKeepsReachable(Perform(d, ops[0], sc).disk, ops[1..], sc);
    }
  }

  ghost predicate ExactlyOne(dbs: map<string, Contents>, a: string, b: string, c: Contents) {
    (a in dbs && dbs[a] == c && (b !in dbs || dbs[b] != c)) || (b in dbs && dbs[b] == c && (a !in dbs || dbs[a] != c))
  }

  /** After any operations, each cut off anywhere: the old contents are under exactly one of the live
      and the fallback name, the restored contents under exactly one of the live and the staged name,
      and every other database is as it was. */
  lemma NothingIsLost(ops: seq<Op>, sc: Scene)
    requires Apart(sc) && sc.names.phase == REQUESTED && sc.before != sc.restored
    ensures var dbs := RunOps(Prepared(sc), ops, sc).dbs;
            && ExactlyOne(dbs, sc.names.liveDatabase, sc.names.previousDatabase, sc.before)
            && ExactlyOne(dbs, sc.names.liveDatabase, sc.names.stagedDatabase, sc.restored)
            && dbs - {sc.names.liveDatabase, sc.names.stagedDatabase, sc.names.previousDatabase} == sc.others
  {
    RunKeepsReachable(Prepared(sc), ops, sc);
    var d := RunOps(Prepared(sc), ops, sc);
    LaidHasLayout(Ready, sc);
  }

  // ---- Forward only ----

  ghost predicate Forwards(d: Disk, sc: Scene) {
    d == Prepared(sc) || Onward(d, SWAPPED, sc) || Onward(d, COMPLETED, sc)
  }

  ghost predicate ForwardOp(op: Op) { op.BeginOp? || op.ResumeOp? || op.MarkCompletedOp? }

  lemma {:induction false} ForwardRunsStayForward(d: Disk, ops: seq<Op>, sc: Scene)
    requires Apart(sc) && Forwards(d, sc) && sc.names.phase == REQUESTED
    requires forall i :: 0 <= i < |ops| ==> ForwardOp(ops[i])
    ensures Forwards(RunOps(d, ops, sc), sc)
    decreases |ops|
  {
    if ops != [] {
      match ops[0] {
        case BeginOp(n) => BeginKeepsReachable(d, n, sc);
        case ResumeOp(n) => if d.store.Some? { ResumeConverges(d, n, sc); }
        case _ =>
      }
      ForwardRunsStayForward(Perform(d, ops[0], sc).disk, ops[1..], sc);
    }
  }

  /** However often a forward swap was cut off, one resume() that lives for four effects ends as
      the run without any crash does. */
  lemma ForwardSwapConverges(ops: seq<Op>, effects: nat, sc: Scene)
    requires Apart(sc) && IsValid(sc.names) && sc.names.phase == REQUESTED && effects >= 4
    requires forall i :: 0 <= i < |ops| ==> ForwardOp(ops[i])
    ensures var d := RunOps(Prepared(sc), ops, sc);
            d.store.Some? ==>
              var ran := Resume(d, effects);
              && ran.outcome.Finished?
              && ran.disk.(store := Some(sc.names)) == Begin(Prepared(sc), sc.names, 5).disk.(store := Some(sc.names))
              && ran.disk == At(ForwardEnd(d.store.value.phase), Exchanged, sc)
  {
    var d := RunOps(Prepared(sc), ops, sc);
    ForwardRunsStayForward(Prepared(sc), ops, sc);
    if d.store.Some? {
      ResumeConverges(d, effects, sc);
      BeginKeepsReachable(Prepared(sc), 5, sc);
    }
  }

  /** A crash leaves no trace: resuming after it ends where the uncut operation would have ended. */
  lemma CrashLeavesNoTrace(d: Disk, cut: nat, effects: nat, sc: Scene)
    requires Forwards(d, sc) && d.store.Some? && effects >= 4
    ensures Resume(Resume(d, cut).disk, effects).disk == Resume(d, effects).disk
  {
    ResumeConverges(d, effects, sc);
    ResumeConverges(d, cut, sc);
    ResumeConverges(Resume(d, cut).disk, effects, sc);
  }

  /** A rollback cut off after its first rename: resume() reports an inconsistent layout, and only
      calling rollback() again recovers, with the old contents live. */
  lemma InterruptedRollbackNeedsRollback(sc: Scene, effects: nat)
    requires Apart(sc) && IsValid(sc.names) && sc.names.phase == REQUESTED && effects >= 3
    ensures var d := RunOps(Prepared(sc), [BeginOp(5), RollbackOp(1)], sc);
            && Resume(d, effects).outcome == Refused(INCONSISTENT_DATABASE_LAYOUT)
            && Rollback(d, effects).disk == At(ROLLED_BACK, Ready, sc)
  {
    BeginKeepsReachable(Prepared(sc), 5, sc);
    var swapped := At(SWAPPED, Exchanged, sc);
    LaidHasLayout(Exchanged, sc);
    LaidHasLayout(Between, sc);
    LiveToStaged(sc);
    var d := Rollback(swapped, 1).disk;
    assert d == At(SWAPPED, Between, sc);
    assert RunOps(swapped, [RollbackOp(1)], sc) == RunOps(d, [], sc);
    assert RunOps(Prepared(sc), [BeginOp(5), RollbackOp(1)], sc) == RunOps(swapped, [RollbackOp(1)], sc);
    RollbackConverges(d, effects, sc);
  }
}
