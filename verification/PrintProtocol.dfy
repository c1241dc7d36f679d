/**
 * The whole print system: the backend, any number of workers that crash, stall or come back
 * from the dead, the reaper, and people deciding about unclear jobs.  A worker that crashes or
 * never hears an answer is one whose next event does not happen.
 */
module PrintProtocol {
  import opened Common
  import opened PrintJobs

  /** A delivery attempt, one per lease. */
  datatype Attempt = Attempt(
    job: JobId,
    printer: PrinterId,        // handed out with the claim
    confirmed: bool,           // CLAIMED -> DELIVERING was acknowledged
    verdict: Option<Outcome>,  // what the worker decided to report
    code: Option<string>,
    paper: bool)               // paper has come out under this lease
  {
    /** Paper may still come out, or may have: only a NOT_PRINTED verdict rules it out. */
    predicate Suspect() { confirmed && verdict != Some(OutcomeNotPrinted) }
  }

  datatype System = System(
    backend: Backend,
    attempts: map<LeaseId, Attempt>,
    readings: set<Snapshot>,    // rows read for a NOT_PRINTED report, not yet acted upon
    reprints: map<JobId, nat>)  // REPRINTED decisions, for every job ever created

  const Init := System(Backend(map[], map[], []), map[], {}, map[])

  datatype Event =
    | Create(id: JobId, printer: PrinterId, now: int)
    | Delete(id: JobId)
    | EditPrinters(printers: map<PrinterId, Printer>)
    | ClaimJob(id: JobId, lease: LeaseId, now: int)
    | ConfirmDelivering(lease: LeaseId, now: int)
    | ConfirmSpooled(lease: LeaseId, now: int)
    | HeartbeatOf(lease: LeaseId, now: int)
    | PaperOut(lease: LeaseId)
    | Decide(lease: LeaseId, outcome: Outcome, code: Option<string>)
    | Report(lease: LeaseId, now: int)
    | ReadRow(lease: LeaseId)
    | WriteRow(snapshot: Snapshot, now: int)
    | ReapClaimed(id: JobId)
    | ReapActive(id: JobId, phase: Phase)
    | ResolveUnclear(id: JobId, resolution: Resolution, target: Option<PrinterId>)
    | RetryFailed

  function WithJob(s: System, id: JobId, row: Option<Job>): System
    requires id in s.backend.jobs
  {
    if row.None? then s else s.(backend := s.backend.(jobs := s.backend.jobs[id := row.value]))
  }

  function WithAttempt(s: System, l: LeaseId, a: Attempt): System {
    s.(attempts := s.attempts[l := a])
  }

  /** What one event does; an event that cannot happen now changes nothing. */
  function Next(s: System, e: Event): System {
    var jobs := s.backend.jobs;
    match e
    case Create(id, printer, now) =>
      if id in s.reprints then s
      else s.(backend := s.backend.(jobs := jobs[id := NewJob(printer, now)]),
              reprints := s.reprints[id := 0])
    case Delete(id) => s.(backend := s.backend.(jobs := jobs - {id}))
    case EditPrinters(printers) => s.(backend := s.backend.(printers := printers))
    case ClaimJob(id, l, now) =>
      if l in s.attempts || id !in jobs || jobs[id].status != PENDING then s else ClaimStep(s, id, l, now)
    case ConfirmDelivering(l, now) => ConfirmStep(s, l, now)
    case ConfirmSpooled(l, now) =>
      if l !in s.attempts || !s.attempts[l].confirmed || s.attempts[l].job !in jobs then s
      else WithJob(s, s.attempts[l].job, ToPhase(jobs[s.attempts[l].job], l, SPOOLED, now))
    case HeartbeatOf(l, now) =>
      if l !in s.attempts || s.attempts[l].job !in jobs then s
      else WithJob(s, s.attempts[l].job, Beat(jobs[s.attempts[l].job], l, now))
    case PaperOut(l) =>
      if l !in s.attempts || !s.attempts[l].Suspect() then s
      else WithAttempt(s, l, s.attempts[l].(paper := true))
    case Decide(l, outcome, code) =>
      // A configuration error is reported before any confirmation; an adapter says NOT_PRINTED
      // only when no paper came out.
      if l !in s.attempts || s.attempts[l].verdict.Some? then s
      else if outcome == OutcomeNotPrinted && s.attempts[l].paper then s
      else if outcome != OutcomeNotPrinted && !s.attempts[l].confirmed then s
      else WithAttempt(s, l, s.attempts[l].(verdict := Some(outcome), code := code))
    case Report(l, now) =>
      if l !in s.attempts then s
      else if s.attempts[l].verdict == Some(OutcomePrinted) then PrintedStep(s, l, now)
      else if s.attempts[l].verdict == Some(OutcomeUnclear) then UnclearStep(s, l)
      else s
    case ReadRow(l) =>
      if l !in s.attempts || s.attempts[l].verdict != Some(OutcomeNotPrinted) || s.attempts[l].job !in jobs then s
      else
        var a := s.attempts[l];
        s.(readings := s.readings + {ReadForReport(a.job, jobs[a.job], l, s.backend.printers, a.code)})
    case WriteRow(snap, now) =>
      if snap !in s.readings || snap.lease !in s.attempts then s else WriteStep(s, snap, now)
    case ReapClaimed(id) => if id in jobs then WithJob(s, id, Requeue(jobs[id])) else s
    case ReapActive(id, phase) => if id in jobs && phase != CLAIMED then WithJob(s, id, GiveUp(jobs[id], phase)) else s
    case ResolveUnclear(id, r, target) =>
      if id !in jobs || id !in s.reprints then s else ResolveStep(s, id, r, target)
    case RetryFailed => s.(backend := s.backend.(jobs := RetryAll(jobs)))
  }

  function ClaimStep(s: System, id: JobId, l: LeaseId, now: int): System
    requires id in s.backend.jobs
  {
    var j := s.backend.jobs[id];
    WithAttempt(WithJob(s, id, Some(Claim(j, l, now))), l, Attempt(id, j.AttemptPrinter(), false, None, None, false))
  }

  function ConfirmStep(s: System, l: LeaseId, now: int): System {
    if l !in s.attempts || s.attempts[l].verdict.Some? || s.attempts[l].job !in s.backend.jobs then s
    else
      var a := s.attempts[l];
      var row := ToPhase(s.backend.jobs[a.job], l, DELIVERING, now);
      if row.None? then s else WithAttempt(WithJob(s, a.job, row), l, a.(confirmed := true))
  }

  function PrintedStep(s: System, l: LeaseId, now: int): System
    requires l in s.attempts
  {
    s.(backend := ReportPrinted(s.backend, s.attempts[l].job, l, s.attempts[l].code, now))
  }

  function UnclearStep(s: System, l: LeaseId): System
    requires l in s.attempts
  {
    s.(backend := ReportUnclear(s.backend, s.attempts[l].job, l, s.attempts[l].code))
  }

  function WriteStep(s: System, snap: Snapshot, now: int): System
    requires snap.lease in s.attempts
  {
    s.(backend := ReportNotPrinted(s.backend, snap, s.attempts[snap.lease].code, now))
  }

  function ResolveStep(s: System, id: JobId, r: Resolution, target: Option<PrinterId>): System
    requires id in s.backend.jobs && id in s.reprints
  {
    var s' := WithJob(s, id, Resolve(s.backend.jobs[id], r, target));
    if s.backend.jobs[id].status == UNRESOLVED && r == REPRINTED
    then s'.(reprints := s.reprints[id := s.reprints[id] + 1])
    else s'
  }

  function Run(s: System, events: seq<Event>): System
    decreases |events|
  {
    if events == [] then s else Run(Next(s, events[0]), events[1..])
  }

  // ---- Counting the leases that may have put paper out ----

  ghost function Suspects(attempts: map<LeaseId, Attempt>, id: JobId): set<LeaseId> {
    set l | l in attempts && attempts[l].job == id && attempts[l].Suspect()
  }

  ghost function Papers(attempts: map<LeaseId, Attempt>, id: JobId): set<LeaseId> {
    set l | l in attempts && attempts[l].job == id && attempts[l].paper
  }

  /** The lease a PROCESSING job is held under, as a set. */
  function Holder(j: Job): set<LeaseId> {
    if j.status == PROCESSING && j.lease.Some? then {j.lease.value} else {}
  }

  /** 1 exactly when the job can no longer be printed without a new human decision. */
  function Spent(j: Job): nat {
    if j.status in {PRINTED, UNRESOLVED, CANCELLED} then 1 else 0
  }

  // ---- The invariant ----

  ghost predicate RowOk(s: System, id: JobId)
    requires id in s.backend.jobs
  {
    var j := s.backend.jobs[id];
    && id in s.reprints
    && (j.status == PROCESSING <==> j.phase.Some?)
    && (j.lease.Some? ==> j.lease.value in s.attempts && s.attempts[j.lease.value].job == id)
    && (j.status == PROCESSING ==>
          j.lease.Some? && j.leaseExpiresAt.Some?
          && s.attempts[j.lease.value].printer == j.AttemptPrinter()
          && (j.phase == Some(CLAIMED) ==> !s.attempts[j.lease.value].confirmed))
  }

  ghost predicate Budget(s: System, id: JobId)
    requires id in s.backend.jobs && id in s.reprints
  {
    var j := s.backend.jobs[id];
    |Suspects(s.attempts, id) - Holder(j)| <= s.reprints[id] + Spent(j)
  }

  /** Deleted jobs, too, have only paper that was accounted for. */
  ghost predicate AttemptsOk(s: System) {
    && (forall l :: l in s.attempts ==> s.attempts[l].job in s.reprints
                                        && (s.attempts[l].paper ==> s.attempts[l].Suspect()))
    && (forall id :: id in s.reprints && id !in s.backend.jobs ==> |Suspects(s.attempts, id)| <= s.reprints[id] + 1)
  }

  /** A reading belongs to a lease that reports NOT_PRINTED, and while that lease holds the job
      the printer read is still the one the job is on. */
  ghost predicate ReadingsOk(s: System) {
    forall r :: r in s.readings ==> ReadingOk(s, r)
  }

  ghost predicate RowsOk(s: System) {
    forall id :: id in s.backend.jobs ==> RowOk(s, id) && Budget(s, id)
  }

  ghost predicate Inv(s: System) {
    AttemptsOk(s) && ReadingsOk(s) && RowsOk(s)
  }

  lemma RemoveOne<T>(s: set<T>, x: T)
    ensures |s| <= |s - {x}| + 1
  {
    if x in s { assert s == (s - {x}) + {x}; } else { assert s == s - {x}; }
  }

  /** s' differs from s in one row, and in that row's own budget. */
  ghost predicate OneRow(s: System, s': System, id: JobId, row: Job) {
    && id in s.backend.jobs && s'.backend.jobs == s.backend.jobs[id := row]
    && s'.attempts == s.attempts && s'.readings == s.readings
    && s'.reprints.Keys == s.reprints.Keys
    && (forall k :: k in s.reprints && k != id ==> s'.reprints[k] == s.reprints[k])
  }

  lemma OneRowRows(s: System, s': System, id: JobId, row: Job)
    requires RowsOk(s) && OneRow(s, s', id, row)
    requires RowOk(s', id)
    requires |Suspects(s.attempts, id) - Holder(row)| <= s'.reprints[id] + Spent(row)
    ensures RowsOk(s')
  {
    forall k | k in s'.backend.jobs
      ensures RowOk(s', k) && Budget(s', k)
    {
      if k != id { assert RowOk(s, k) && Budget(s, k); }
    }
  }

  // ---- Events that change rows only ----

  /** A row that leaves its holder's hands uses up at most the one lease that held it. */
  lemma LeavingKeepsRows(s: System, s': System, id: JobId, row: Job)
    requires RowsOk(s) && OneRow(s, s', id, row) && s'.reprints == s.reprints
    requires s.backend.jobs[id].status == PROCESSING
    requires row.status != PROCESSING && row.phase.None? && row.lease in {None, s.backend.jobs[id].lease}
    requires Spent(row) == 1
             || (s.backend.jobs[id].lease.Some? && s.backend.jobs[id].lease.value !in Suspects(s.attempts, id))
    ensures RowsOk(s')
  {
    assert RowOk(s, id) && Budget(s, id);
    LeavingKeepsBudget(Suspects(s.attempts, id), s.backend.jobs[id].lease.value, s.reprints[id], Spent(row));
    assert Holder(s.backend.jobs[id]) == {s.backend.jobs[id].lease.value};
    OneRowRows(s, s', id, row);
  }

  /** One more suspect is affordable when the job is spent; none is needed when the holder was no suspect. */
  lemma LeavingKeepsBudget(all: set<LeaseId>, l: LeaseId, reprints: nat, spent: nat)
    requires |all - {l}| <= reprints && (spent == 1 || l !in all)
    ensures |all - {}| <= reprints + spent
  {
    assert all - {} == all;
    if l in all { RemoveOne(all, l); } else { assert all - {l} == all; }
  }

  lemma RequeueKeepsRows(s: System, id: JobId)
    requires RowsOk(s) && id in s.backend.jobs
    ensures RowsOk(WithJob(s, id, Requeue(s.backend.jobs[id])))
  {
    var requeued := Requeue(s.backend.jobs[id]);
    if requeued.Some? {
      assert RowOk(s, id);
      LeavingKeepsRows(s, WithJob(s, id, requeued), id, requeued.value);
    }
  }

  lemma GiveUpKeepsRows(s: System, id: JobId, phase: Phase)
    requires RowsOk(s) && id in s.backend.jobs
    ensures RowsOk(WithJob(s, id, GiveUp(s.backend.jobs[id], phase)))
  {
    var given := GiveUp(s.backend.jobs[id], phase);
    if given.Some? { LeavingKeepsRows(s, WithJob(s, id, given), id, given.value); }
  }

  lemma LeaseRow(s: System, id: JobId, row: Job)
    requires id in s.backend.jobs && RowOk(s, id) && Budget(s, id)
    requires row == s.backend.jobs[id].(phase := row.phase, leaseExpiresAt := row.leaseExpiresAt)
    requires row.status == PROCESSING && row.phase.Some? && row.leaseExpiresAt.Some?
    requires row.phase == s.backend.jobs[id].phase || row.phase != Some(CLAIMED)
    ensures RowOk(WithJob(s, id, Some(row)), id) && |Suspects(s.attempts, id) - Holder(row)| <= s.reprints[id] + Spent(row)
  {
    assert Holder(row) == Holder(s.backend.jobs[id]);
  }

  lemma SpoolingKeepsRows(s: System, id: JobId, l: LeaseId, now: int)
    requires RowsOk(s) && id in s.backend.jobs
    ensures RowsOk(WithJob(s, id, ToPhase(s.backend.jobs[id], l, SPOOLED, now)))
  {
    var row := ToPhase(s.backend.jobs[id], l, SPOOLED, now);
    assert RowOk(s, id) && Budget(s, id);
    if row.Some? {
      LeaseRow(s, id, row.value);
      OneRowRows(s, WithJob(s, id, row), id, row.value);
    }
  }

  lemma BeatsKeepRows(s: System, id: JobId, l: LeaseId, now: int)
    requires RowsOk(s) && id in s.backend.jobs
    ensures RowsOk(WithJob(s, id, Beat(s.backend.jobs[id], l, now)))
  {
    var row := Beat(s.backend.jobs[id], l, now);
    assert RowOk(s, id) && Budget(s, id);
    if row.Some? {
      LeaseRow(s, id, row.value);
      OneRowRows(s, WithJob(s, id, row), id, row.value);
    }
  }

  lemma PrintedKeepsRows(s: System, l: LeaseId, now: int)
    requires RowsOk(s) && l in s.attempts
    ensures RowsOk(PrintedStep(s, l, now))
  {
    var id := s.attempts[l].job;
    if id in s.backend.jobs && s.backend.jobs[id].HeldBy(l) {
      var row := FinishPrinted(s.backend.jobs[id], l, s.attempts[l].code).value;
      LeavingKeepsRows(s, PrintedStep(s, l, now), id, row);
    }
  }

  lemma UnclearRow(s: System, l: LeaseId)
    requires l in s.attempts && s.attempts[l].job in s.backend.jobs && s.backend.jobs[s.attempts[l].job].HeldBy(l)
    ensures var id := s.attempts[l].job;
            var row := FinishUnclear(s.backend.jobs[id], l, s.attempts[l].code);
            row.Some? && OneRow(s, UnclearStep(s, l), id, row.value) && UnclearStep(s, l).reprints == s.reprints
            && row.value.status == UNRESOLVED && row.value.phase.None? && row.value.lease == s.backend.jobs[id].lease
  {
  }

  lemma UnclearKeepsRows(s: System, l: LeaseId)
    requires RowsOk(s) && l in s.attempts
    ensures RowsOk(UnclearStep(s, l))
  {
    var id := s.attempts[l].job;
    if id in s.backend.jobs && s.backend.jobs[id].HeldBy(l) {
      UnclearRow(s, l);
      LeavingKeepsRows(s, UnclearStep(s, l), id, FinishUnclear(s.backend.jobs[id], l, s.attempts[l].code).value);
    }
  }

  /** A lease that says NOT_PRINTED is not a suspect, so its job may be printed again. */
  lemma WriteKeepsRows(s: System, snap: Snapshot, now: int)
    requires RowsOk(s) && ReadingsOk(s) && snap in s.readings
    ensures snap.lease in s.attempts && RowsOk(WriteStep(s, snap, now))
  {
    var id, l := snap.job, snap.lease;
    if id in s.backend.jobs && s.backend.jobs[id].HeldBy(l) {
      var j, code := s.backend.jobs[id], s.attempts[l].code;
      if snap.fallback.None? {
        var row := FinishFailed(j, l, code).value;
        LeavingKeepsRows(s, WriteStep(s, snap, now), id, row);
      } else if j.failoverCount == 0 {
        var row := Failover(j, l, snap.printer, snap.fallback.value, code).value;
        LeavingKeepsRows(s, WriteStep(s, snap, now), id, row);
      }
    }
  }

  lemma ResolvedRow(s: System, id: JobId, r: Resolution, target: Option<PrinterId>)
    requires id in s.backend.jobs && id in s.reprints && RowOk(s, id) && Budget(s, id) && s.backend.jobs[id].status == UNRESOLVED
    ensures var s', row := ResolveStep(s, id, r, target), Resolve(s.backend.jobs[id], r, target).value;
            OneRow(s, s', id, row) && RowOk(s', id) && |Suspects(s.attempts, id) - Holder(row)| <= s'.reprints[id] + Spent(row)
  {
    var row := Resolve(s.backend.jobs[id], r, target).value;
    assert Holder(row) == Holder(s.backend.jobs[id]) == {};
  }

  /** REPRINTED pays for the next print with one more allowed lease. */
  lemma ResolveKeepsRows(s: System, id: JobId, r: Resolution, target: Option<PrinterId>)
    requires RowsOk(s) && id in s.backend.jobs && id in s.reprints
    ensures RowsOk(ResolveStep(s, id, r, target))
  {
    var j := s.backend.jobs[id];
    if j.status == UNRESOLVED {
      ResolvedRow(s, id, r, target);
      OneRowRows(s, ResolveStep(s, id, r, target), id, Resolve(j, r, target).value);
    }
  }

  lemma RetryKeepsRows(s: System)
    requires RowsOk(s)
    ensures RowsOk(s.(backend := s.backend.(jobs := RetryAll(s.backend.jobs))))
  {
    var s' := s.(backend := s.backend.(jobs := RetryAll(s.backend.jobs)));
    forall k | k in s'.backend.jobs
      ensures RowOk(s', k) && Budget(s', k)
    {
      assert RowOk(s, k) && Budget(s, k);
    }
  }

  // ---- Events that change attempts ----

  /** Suspects appear only through l becoming one. */
  lemma SuspectsOf(before: map<LeaseId, Attempt>, l: LeaseId, a: Attempt, id: JobId)
    requires l in before ==> a.job == before[l].job
    ensures Suspects(before[l := a], id) <= Suspects(before, id) + {l}
    ensures a.job != id ==> Suspects(before[l := a], id) <= Suspects(before, id)
    ensures (a.Suspect() ==> l in before && before[l].Suspect()) ==> Suspects(before[l := a], id) <= Suspects(before, id)
  {
  }

  /** The budget of a job only needs its suspects outside the holder not to grow. */
  lemma BudgetKept(s: System, s': System, k: JobId)
    requires k in s.backend.jobs && k in s.reprints && Budget(s, k)
    requires k in s'.backend.jobs && s'.reprints == s.reprints && Spent(s'.backend.jobs[k]) >= Spent(s.backend.jobs[k])
    requires Suspects(s'.attempts, k) - Holder(s'.backend.jobs[k]) <= Suspects(s.attempts, k) - Holder(s.backend.jobs[k])
    ensures Budget(s', k)
  {
    SubsetSize(Suspects(s'.attempts, k) - Holder(s'.backend.jobs[k]), Suspects(s.attempts, k) - Holder(s.backend.jobs[k]));
  }

  lemma ClaimRow(s: System, id: JobId, l: LeaseId, now: int, k: JobId)
    requires id in s.backend.jobs && s.backend.jobs[id].status == PENDING && l !in s.attempts
    requires k in s.backend.jobs && RowOk(s, k) && Budget(s, k)
    ensures RowOk(ClaimStep(s, id, l, now), k) && Budget(ClaimStep(s, id, l, now), k)
  {
    ClaimedRowOk(s, id, l, now, k);
    SuspectsOf(s.attempts, l, ClaimStep(s, id, l, now).attempts[l], k);
    BudgetKept(s, ClaimStep(s, id, l, now), k);
  }

  lemma ClaimedRowOk(s: System, id: JobId, l: LeaseId, now: int, k: JobId)
    requires id in s.backend.jobs && s.backend.jobs[id].status == PENDING && l !in s.attempts
    requires k in s.backend.jobs && RowOk(s, k)
    ensures RowOk(ClaimStep(s, id, l, now), k)
  {
  }

  lemma ClaimKeepsRows(s: System, id: JobId, l: LeaseId, now: int)
    requires RowsOk(s) && id in s.backend.jobs && s.backend.jobs[id].status == PENDING && l !in s.attempts
    ensures RowsOk(ClaimStep(s, id, l, now))
  {
    var s' := ClaimStep(s, id, l, now);
    forall k | k in s'.backend.jobs
      ensures RowOk(s', k) && Budget(s', k)
    {
      ClaimRow(s, id, l, now, k);
    }
  }

  ghost predicate ConfirmedStep(s: System, s': System, l: LeaseId) {
    && l in s.attempts && s.attempts[l].job in s.backend.jobs && s.backend.jobs[s.attempts[l].job].HeldBy(l)
    && s'.backend.jobs == s.backend.jobs[s.attempts[l].job := s.backend.jobs[s.attempts[l].job].(phase := Some(DELIVERING))]
    && s'.attempts == s.attempts[l := s.attempts[l].(confirmed := true)] && s'.reprints == s.reprints
  }

  /** The lease that becomes a suspect is the holder, and the holder is free. */
  lemma ConfirmedRow(s: System, s': System, l: LeaseId)
    requires ConfirmedStep(s, s', l) && RowOk(s, s.attempts[l].job) && Budget(s, s.attempts[l].job)
    ensures RowOk(s', s.attempts[l].job) && Budget(s', s.attempts[l].job)
  {
    var k := s.attempts[l].job;
    SuspectsOf(s.attempts, l, s'.attempts[l], k);
    assert Holder(s'.backend.jobs[k]) == Holder(s.backend.jobs[k]) == {l};
    BudgetKept(s, s', k);
  }

  lemma OtherRow(s: System, s': System, l: LeaseId, k: JobId)
    requires ConfirmedStep(s, s', l) && k != s.attempts[l].job && k in s.backend.jobs && RowOk(s, k) && Budget(s, k)
    ensures RowOk(s', k) && Budget(s', k)
  {
    SuspectsOf(s.attempts, l, s'.attempts[l], k);
    BudgetKept(s, s', k);
  }

  lemma ConfirmKeepsRows(s: System, l: LeaseId, now: int)
    requires RowsOk(s)
    ensures RowsOk(ConfirmStep(s, l, now))
  {
    var s' := ConfirmStep(s, l, now);
    if l in s.attempts && s.attempts[l].verdict.None? && s.attempts[l].job in s.backend.jobs {
      var row := ToPhase(s.backend.jobs[s.attempts[l].job], l, DELIVERING, now);
      if row.Some? {
        forall k | k in s'.backend.jobs
          ensures RowOk(s', k) && Budget(s', k)
        {
          if k == s.attempts[l].job { ConfirmedRow(s, s', l); } else { OtherRow(s, s', l, k); }
        }
      }
    }
  }

  lemma WorkerRow(s: System, l: LeaseId, a: Attempt, k: JobId)
    requires k in s.backend.jobs && RowOk(s, k) && Budget(s, k) && l in s.attempts
    requires a.job == s.attempts[l].job && a.printer == s.attempts[l].printer && a.confirmed == s.attempts[l].confirmed
    requires a.Suspect() ==> s.attempts[l].Suspect()
    ensures RowOk(WithAttempt(s, l, a), k) && Budget(WithAttempt(s, l, a), k)
  {
    SuspectsOf(s.attempts, l, a, k);
    BudgetKept(s, WithAttempt(s, l, a), k);
  }

  /** What a worker does on its own never makes it more of a suspect. */
  lemma WorkerKeepsRows(s: System, l: LeaseId, a: Attempt)
    requires RowsOk(s) && l in s.attempts
    requires a.job == s.attempts[l].job && a.printer == s.attempts[l].printer && a.confirmed == s.attempts[l].confirmed
    requires a.Suspect() ==> s.attempts[l].Suspect()
    ensures RowsOk(WithAttempt(s, l, a))
  {
    forall k | k in WithAttempt(s, l, a).backend.jobs
      ensures RowOk(WithAttempt(s, l, a), k) && Budget(WithAttempt(s, l, a), k)
    {
      WorkerRow(s, l, a, k);
    }
  }

  lemma CreatingKeepsRows(s: System, id: JobId, printer: PrinterId, now: int)
    requires RowsOk(s) && AttemptsOk(s)
    ensures RowsOk(Next(s, Create(id, printer, now)))
  {
    var s' := Next(s, Create(id, printer, now));
    forall k | k in s'.backend.jobs ensures RowOk(s', k) && Budget(s', k) {
      if k in s.backend.jobs { assert RowOk(s, k) && Budget(s, k); } else { assert Suspects(s.attempts, k) == {}; }
    }
  }

  lemma DeletingKeepsRows(s: System, id: JobId)
    requires RowsOk(s)
    ensures RowsOk(Next(s, Delete(id)))
  {
    var s' := Next(s, Delete(id));
    forall k | k in s'.backend.jobs ensures RowOk(s', k) && Budget(s', k) {
      assert RowOk(s, k) && Budget(s, k);
    }
  }

  lemma RowsKeptByPeople(s: System, e: Event)
    requires Inv(s) && (e.Create? || e.Delete? || e.EditPrinters? || e.ResolveUnclear? || e.RetryFailed?)
    ensures RowsOk(Next(s, e))
  {
    match e
    case Create(id, printer, now) => CreatingKeepsRows(s, id, printer, now);
    case Delete(id) => DeletingKeepsRows(s, id);
    case EditPrinters(printers) => SameRows(s, Next(s, e));
    case ResolveUnclear(id, r, target) =>
      if id in s.backend.jobs && id in s.reprints { ResolveKeepsRows(s, id, r, target); }
    case RetryFailed => RetryKeepsRows(s);
  }

  lemma ClaimingKeepsRows(s: System, id: JobId, l: LeaseId, now: int)
    requires RowsOk(s)
    ensures RowsOk(Next(s, ClaimJob(id, l, now)))
  {
    if id in s.backend.jobs && s.backend.jobs[id].status == PENDING && l !in s.attempts { ClaimKeepsRows(s, id, l, now); }
  }

  lemma PaperKeepsRows(s: System, l: LeaseId)
    requires RowsOk(s)
    ensures RowsOk(Next(s, PaperOut(l)))
  {
    if l in s.attempts { WorkerKeepsRows(s, l, s.attempts[l].(paper := true)); }
  }

  lemma VerdictKeepsRows(s: System, l: LeaseId, outcome: Outcome, code: Option<string>)
    requires RowsOk(s)
    ensures RowsOk(Next(s, Decide(l, outcome, code)))
  {
    if l in s.attempts && s.attempts[l].verdict.None? {
      WorkerKeepsRows(s, l, s.attempts[l].(verdict := Some(outcome), code := code));
    }
  }

  lemma SpooledStep(s: System, l: LeaseId, now: int)
    ensures var s' := Next(s, ConfirmSpooled(l, now));
            s' == s || (l in s.attempts && s.attempts[l].job in s.backend.jobs
                        && s' == WithJob(s, s.attempts[l].job, ToPhase(s.backend.jobs[s.attempts[l].job], l, SPOOLED, now)))
  {
  }

  lemma SpooledKeepsRows(s: System, l: LeaseId, now: int)
    requires RowsOk(s)
    ensures RowsOk(Next(s, ConfirmSpooled(l, now)))
  {
    SpooledStep(s, l, now);
    if Next(s, ConfirmSpooled(l, now)) != s { SpoolingKeepsRows(s, s.attempts[l].job, l, now); }
  }

  lemma BeatKeepsRows(s: System, l: LeaseId, now: int)
    requires RowsOk(s)
    ensures RowsOk(Next(s, HeartbeatOf(l, now)))
  {
    if l in s.attempts && s.attempts[l].job in s.backend.jobs { BeatsKeepRows(s, s.attempts[l].job, l, now); }
  }

  lemma RowsKeptByReaper(s: System, e: Event)
    requires RowsOk(s) && (e.ReapClaimed? || e.ReapActive?)
    ensures RowsOk(Next(s, e))
  {
    match e
    case ReapClaimed(id) => if id in s.backend.jobs { RequeueKeepsRows(s, id); }
    case ReapActive(id, phase) => if id in s.backend.jobs { GiveUpKeepsRows(s, id, phase); }
  }

  lemma ReportKeepsRows(s: System, l: LeaseId, now: int)
    requires RowsOk(s)
    ensures RowsOk(Next(s, Report(l, now)))
  {
    if l in s.attempts {
      if s.attempts[l].verdict == Some(OutcomePrinted) { PrintedKeepsRows(s, l, now); }
      else if s.attempts[l].verdict == Some(OutcomeUnclear) { UnclearKeepsRows(s, l); }
    }
  }

  lemma RowsKeptByReports(s: System, e: Event)
    requires RowsOk(s) && ReadingsOk(s) && (e.ReadRow? || e.WriteRow?)
    ensures RowsOk(Next(s, e))
  {
    match e
    case ReadRow(l) => SameRows(s, Next(s, e));
    case WriteRow(snap, now) => if snap in s.readings { WriteKeepsRows(s, snap, now); }
  }

  lemma RowsKept(s: System, e: Event)
    requires Inv(s)
    ensures RowsOk(Next(s, e))
  {
    if e.Create? || e.Delete? || e.EditPrinters? || e.ResolveUnclear? || e.RetryFailed? { RowsKeptByPeople(s, e); }
    else if e.ClaimJob? { ClaimingKeepsRows(s, e.id, e.lease, e.now); }
    else if e.ConfirmDelivering? { ConfirmKeepsRows(s, e.lease, e.now); }
    else if e.PaperOut? { PaperKeepsRows(s, e.lease); }
    else if e.Decide? { VerdictKeepsRows(s, e.lease, e.outcome, e.code); }
    else if e.Report? { ReportKeepsRows(s, e.lease, e.now); }
    else if e.ReadRow? || e.WriteRow? { RowsKeptByReports(s, e); }
    else if e.ReapClaimed? || e.ReapActive? { RowsKeptByReaper(s, e); }
    else if e.ConfirmSpooled? { SpooledKeepsRows(s, e.lease, e.now); }
    else { BeatKeepsRows(s, e.lease, e.now); }
  }

  lemma SameRows(s: System, s': System)
    requires RowsOk(s) && s'.backend.jobs == s.backend.jobs && s'.attempts == s.attempts && s'.reprints == s.reprints
    ensures RowsOk(s')
  {
    forall k | k in s'.backend.jobs
      ensures RowOk(s', k) && Budget(s', k)
    {
      assert RowOk(s, k) && Budget(s, k);
    }
  }

  // ---- Attempts and readings ----

  lemma DeletedBudget(s: System, s': System, id: JobId)
    requires AttemptsOk(s) && id in s.reprints && id !in s.backend.jobs && id in s'.reprints && s'.reprints[id] >= s.reprints[id]
    requires Suspects(s'.attempts, id) <= Suspects(s.attempts, id)
    ensures |Suspects(s'.attempts, id)| <= s'.reprints[id] + 1
  {
    SubsetSize(Suspects(s'.attempts, id), Suspects(s.attempts, id));
  }

  lemma AttemptKept(s: System, s': System, l: LeaseId, a: Attempt)
    requires AttemptsOk(s) && s'.attempts == s.attempts[l := a] && s'.reprints == s.reprints
    requires s'.backend.jobs.Keys == s.backend.jobs.Keys
    requires l in s.attempts ==> a.job == s.attempts[l].job
    requires a.job in s.reprints && (a.paper ==> a.Suspect())
    requires (a.Suspect() ==> l in s.attempts && s.attempts[l].Suspect()) || a.job in s.backend.jobs
    ensures AttemptsOk(s')
  {
    forall id | id in s'.reprints && id !in s'.backend.jobs
      ensures |Suspects(s'.attempts, id)| <= s'.reprints[id] + 1
    {
      SuspectsOf(s.attempts, l, a, id);
      DeletedBudget(s, s', id);
    }
  }

  lemma DeleteKeepsAttempts(s: System, id: JobId)
    requires Inv(s)
    ensures AttemptsOk(Next(s, Delete(id)))
  {
    var s' := Next(s, Delete(id));
    forall k | k in s'.reprints && k !in s'.backend.jobs
      ensures |Suspects(s'.attempts, k)| <= s'.reprints[k] + 1
    {
      if k in s.backend.jobs {
        assert RowOk(s, k) && Budget(s, k);
        var all := Suspects(s.attempts, k);
        if Holder(s.backend.jobs[k]) == {} { assert all - {} == all; }
        else { RemoveOne(all, s.backend.jobs[k].lease.value); }
      }
    }
  }

  lemma SameAttempts(s: System, s': System)
    requires AttemptsOk(s) && s'.attempts == s.attempts
    requires s.backend.jobs.Keys <= s'.backend.jobs.Keys && s.reprints.Keys <= s'.reprints.Keys
    requires forall id :: id in s.reprints ==> s.reprints[id] <= s'.reprints[id]
    requires s'.reprints.Keys - s.reprints.Keys <= s'.backend.jobs.Keys
    ensures AttemptsOk(s')
  {
  }

  lemma ClaimKeepsAttempts(s: System, id: JobId, l: LeaseId, now: int)
    requires AttemptsOk(s) && (id in s.backend.jobs ==> id in s.reprints)
    ensures AttemptsOk(Next(s, ClaimJob(id, l, now)))
  {
    if id in s.backend.jobs && s.backend.jobs[id].status == PENDING && l !in s.attempts {
      var s' := ClaimStep(s, id, l, now);
      AttemptKept(s, s', l, s'.attempts[l]);
    }
  }

  lemma ConfirmKeepsAttempts(s: System, l: LeaseId, now: int)
    requires AttemptsOk(s)
    ensures AttemptsOk(ConfirmStep(s, l, now))
  {
    if l in s.attempts && s.attempts[l].job in s.backend.jobs && s.attempts[l].verdict.None?
       && ToPhase(s.backend.jobs[s.attempts[l].job], l, DELIVERING, now).Some? {
      AttemptKept(s, ConfirmStep(s, l, now), l, s.attempts[l].(confirmed := true));
    }
  }

  lemma WorkerKeepsAttempts(s: System, l: LeaseId, a: Attempt)
    requires AttemptsOk(s) && l in s.attempts && a.job == s.attempts[l].job
    requires (a.paper ==> a.Suspect()) && (a.Suspect() ==> s.attempts[l].Suspect())
    ensures AttemptsOk(WithAttempt(s, l, a))
  {
    AttemptKept(s, WithAttempt(s, l, a), l, a);
  }

  predicate ChangesAttempts(e: Event) { e.ClaimJob? || e.ConfirmDelivering? || e.PaperOut? || e.Decide? }

  lemma WorkersKeepAttempts(s: System, e: Event)
    requires AttemptsOk(s) && (e.PaperOut? || e.Decide?)
    ensures AttemptsOk(Next(s, e))
  {
    match e
    case PaperOut(l) =>
      if l in s.attempts && s.attempts[l].Suspect() { WorkerKeepsAttempts(s, l, s.attempts[l].(paper := true)); }
    case Decide(l, outcome, code) =>
      if l in s.attempts && s.attempts[l].verdict.None? && !(outcome == OutcomeNotPrinted && s.attempts[l].paper) {
        WorkerKeepsAttempts(s, l, s.attempts[l].(verdict := Some(outcome), code := code));
      }
  }

  lemma AttemptsKept(s: System, e: Event)
    requires Inv(s)
    ensures AttemptsOk(Next(s, e))
  {
    if e.Delete? {
      DeleteKeepsAttempts(s, e.id);
    } else if e.ClaimJob? {
      assert e.id in s.backend.jobs ==> RowOk(s, e.id);
      ClaimKeepsAttempts(s, e.id, e.lease, e.now);
    } else if e.ConfirmDelivering? {
      ConfirmKeepsAttempts(s, e.lease, e.now);
    } else if e.PaperOut? || e.Decide? {
      WorkersKeepAttempts(s, e);
    } else {
      OthersLeaveAttempts(s, e);
      SameAttempts(s, Next(s, e));
    }
  }

  lemma OthersLeaveAttempts(s: System, e: Event)
    requires !e.Delete? && !ChangesAttempts(e)
    ensures Next(s, e).attempts == s.attempts
    ensures s.backend.jobs.Keys <= Next(s, e).backend.jobs.Keys && s.reprints.Keys <= Next(s, e).reprints.Keys
    ensures forall id :: id in s.reprints ==> s.reprints[id] <= Next(s, e).reprints[id]
    ensures Next(s, e).reprints.Keys - s.reprints.Keys <= Next(s, e).backend.jobs.Keys
  {
  }

  // ---- What one event can do to a lease ----

  /** A verdict, once reached, stands; the job and the printer of a lease never change. */
  lemma VerdictStands(s: System, e: Event, l: LeaseId)
    requires l in s.attempts
    ensures l in Next(s, e).attempts
    ensures var a, a' := s.attempts[l], Next(s, e).attempts[l];
            a'.job == a.job && a'.printer == a.printer && (a.verdict.Some? ==> a'.verdict == a.verdict && a'.code == a.code)
  {
  }

  /** No event hands a job back to a lease that was known before: a lost lease stays lost. */
  lemma LostStaysLost(s: System, e: Event, id: JobId, l: LeaseId)
    requires l in s.attempts && id in Next(s, e).backend.jobs && Next(s, e).backend.jobs[id].HeldBy(l)
    ensures id in s.backend.jobs && s.backend.jobs[id].HeldBy(l)
    ensures Next(s, e).backend.jobs[id].AttemptPrinter() == s.backend.jobs[id].AttemptPrinter()
    ensures Next(s, e).backend.jobs[id].failoverCount == s.backend.jobs[id].failoverCount
  {
  }

  ghost predicate ReadingOk(s: System, r: Snapshot) {
    && r.lease in s.attempts && s.attempts[r.lease].job == r.job
    && s.attempts[r.lease].verdict == Some(OutcomeNotPrinted)
    && (r.job in s.backend.jobs && s.backend.jobs[r.job].HeldBy(r.lease) ==>
          r.printer == s.backend.jobs[r.job].AttemptPrinter())
  }

  lemma OldReadingStays(s: System, e: Event, r: Snapshot)
    requires ReadingOk(s, r)
    ensures ReadingOk(Next(s, e), r)
  {
    VerdictStands(s, e, r.lease);
    if r.job in Next(s, e).backend.jobs && Next(s, e).backend.jobs[r.job].HeldBy(r.lease) { LostStaysLost(s, e, r.job, r.lease); }
  }

  lemma NewReading(s: System, e: Event, r: Snapshot)
    requires r in Next(s, e).readings && r !in s.readings
    ensures ReadingOk(Next(s, e), r)
  {
    assert e.ReadRow?;
  }

  lemma ReadingsKept(s: System, e: Event)
    requires Inv(s)
    ensures ReadingsOk(Next(s, e))
  {
    forall r | r in Next(s, e).readings ensures ReadingOk(Next(s, e), r) {
      if r in s.readings { OldReadingStays(s, e, r); } else { NewReading(s, e, r); }
    }
  }

  lemma NextKeepsInv(s: System, e: Event)
    requires Inv(s)
    ensures Inv(Next(s, e))
  {
    RowsKept(s, e);
    AttemptsKept(s, e);
    ReadingsKept(s, e);
  }

  lemma {:induction false} RunKeepsInv(s: System, events: seq<Event>)
    requires Inv(s)
    ensures Inv(Run(s, events))
    decreases |events|
  {
    if events != [] {
      NextKeepsInv(s, events[0]);
      RunKeepsInv(Next(s, events[0]), events[1..]);
    }
  }

  /** In every run, the leases of a job that put paper out number at most one more than the
      REPRINTED decisions about that job. */
  lemma PaperIsAccountedFor(events: seq<Event>, id: JobId)
    ensures var s := Run(Init, events);
            id in s.reprints ==> |Papers(s.attempts, id)| <= 1 + s.reprints[id]
    ensures var s := Run(Init, events);
            id !in s.reprints ==> Papers(s.attempts, id) == {}
  {
    RunKeepsInv(Init, events);
    PapersWithinBudget(Run(Init, events), id);
  }

  lemma SuspectsWithinBudget(s: System, id: JobId)
    requires id in s.backend.jobs && RowOk(s, id) && Budget(s, id)
    ensures |Suspects(s.attempts, id)| <= 1 + s.reprints[id]
  {
    var all, j := Suspects(s.attempts, id), s.backend.jobs[id];
    if Holder(j) == {} { assert all - {} == all; } else { RemoveOne(all, j.lease.value); }
  }

  lemma PapersWithinBudget(s: System, id: JobId)
    requires AttemptsOk(s) && RowsOk(s)
    ensures id in s.reprints ==> |Papers(s.attempts, id)| <= 1 + s.reprints[id]
    ensures id !in s.reprints ==> Papers(s.attempts, id) == {}
  {
    SubsetSize(Papers(s.attempts, id), Suspects(s.attempts, id));
    if id in s.backend.jobs { SuspectsWithinBudget(s, id); }
  }

  // ---- Outcomes, blame and the single failover ----

  /** A reported outcome was reported by a lease that held the job, and ends that lease. */
  ghost predicate EntryOk(s: System, entry: LogEntry) {
    && entry.lease in s.attempts && s.attempts[entry.lease].job == entry.job
    && s.attempts[entry.lease].verdict == Some(entry.outcome)
    && (entry.outcome != OutcomeUnclear ==> entry.booked == Some(s.attempts[entry.lease].printer))
    && (entry.outcome == OutcomeUnclear ==> entry.booked == None)
    && (entry.job in s.backend.jobs ==>
          !s.backend.jobs[entry.job].HeldBy(entry.lease)
          && (entry.switched ==> s.backend.jobs[entry.job].failoverCount == 1))
  }

  ghost predicate LogOk(s: System) {
    && (forall i :: 0 <= i < |s.backend.log| ==> EntryOk(s, s.backend.log[i]))
    && (forall i, k :: 0 <= i < k < |s.backend.log| ==> s.backend.log[i].lease != s.backend.log[k].lease)
    && (forall i, k :: 0 <= i < k < |s.backend.log| && s.backend.log[i].switched && s.backend.log[k].switched ==>
          s.backend.log[i].job != s.backend.log[k].job)
    && (forall id :: id in s.backend.jobs ==> s.backend.jobs[id].failoverCount <= 1)
  }

  /** x is the entry by which s' extends the log of s: its lease held the job, and no longer does. */
  ghost predicate Added(s: System, s': System, x: LogEntry) {
    && s'.backend.log == s.backend.log + [x]
    && x.lease in s.attempts && s.attempts[x.lease].job == x.job
    && x.job in s.backend.jobs && s.backend.jobs[x.job].HeldBy(x.lease)
    && (x.switched ==> s.backend.jobs[x.job].failoverCount == 0)
    && EntryOk(s', x)
  }

  lemma PrintedAdds(s: System, l: LeaseId, now: int)
    requires l in s.attempts && (s.attempts[l].job in s.backend.jobs ==> RowOk(s, s.attempts[l].job)) && s.attempts[l].verdict == Some(OutcomePrinted)
    ensures PrintedStep(s, l, now).backend.log == s.backend.log
            || Added(s, PrintedStep(s, l, now), LogEntry(l, s.attempts[l].job, Some(s.attempts[l].printer), OutcomePrinted, false))
  {
  }

  lemma UnclearAdds(s: System, l: LeaseId)
    requires RowsOk(s) && l in s.attempts && s.attempts[l].verdict == Some(OutcomeUnclear)
    ensures UnclearStep(s, l).backend.log == s.backend.log
            || Added(s, UnclearStep(s, l), LogEntry(l, s.attempts[l].job, None, OutcomeUnclear, false))
  {
  }

  /** The printer read outside the transaction is the one handed out with the claim. */
  lemma WriteAdds(s: System, snap: Snapshot, now: int)
    requires RowsOk(s) && ReadingsOk(s) && snap in s.readings
    ensures snap.lease in s.attempts
    ensures var x := LogEntry(snap.lease, snap.job, Some(s.attempts[snap.lease].printer), OutcomeNotPrinted, snap.fallback.Some?);
            WriteStep(s, snap, now).backend.log == s.backend.log || Added(s, WriteStep(s, snap, now), x)
  {
    if snap.job in s.backend.jobs { assert RowOk(s, snap.job); }
  }

  lemma OthersLeaveLog(s: System, e: Event)
    requires !e.Report? && !e.WriteRow?
    ensures Next(s, e).backend.log == s.backend.log
  {
  }

  lemma ReportAdds(s: System, l: LeaseId, now: int) returns (x: Option<LogEntry>)
    requires RowsOk(s)
    ensures x.None? ==> Next(s, Report(l, now)).backend.log == s.backend.log
    ensures x.Some? ==> Added(s, Next(s, Report(l, now)), x.value)
  {
    x := None;
    if l in s.attempts && s.attempts[l].verdict == Some(OutcomePrinted) {
      PrintedAdds(s, l, now);
      if PrintedStep(s, l, now).backend.log != s.backend.log {
        x := Some(LogEntry(l, s.attempts[l].job, Some(s.attempts[l].printer), OutcomePrinted, false));
      }
    } else if l in s.attempts && s.attempts[l].verdict == Some(OutcomeUnclear) {
      UnclearAdds(s, l);
      if UnclearStep(s, l).backend.log != s.backend.log {
        x := Some(LogEntry(l, s.attempts[l].job, None, OutcomeUnclear, false));
      }
    }
  }

  /** An event adds no entry, or one about a lease that holds its job at that moment. */
  lemma OneEntry(s: System, e: Event) returns (x: Option<LogEntry>)
    requires RowsOk(s) && ReadingsOk(s)
    ensures x.None? ==> Next(s, e).backend.log == s.backend.log
    ensures x.Some? ==> Added(s, Next(s, e), x.value)
  {
    x := None;
    match e
    case Report(l, now) => x := ReportAdds(s, l, now);
    case WriteRow(snap, now) =>
      if snap in s.readings {
        WriteAdds(s, snap, now);
        if WriteStep(s, snap, now).backend.log != s.backend.log {
          x := Some(LogEntry(snap.lease, snap.job, Some(s.attempts[snap.lease].printer), OutcomeNotPrinted, snap.fallback.Some?));
        }
      }
    case _ => OthersLeaveLog(s, e);
  }

  /** Entries stay true: a lost lease stays lost, and a job that was switched is never switched back. */
  lemma EntryStays(s: System, e: Event, x: LogEntry)
    requires Inv(s) && EntryOk(s, x)
    ensures EntryOk(Next(s, e), x)
  {
    VerdictStands(s, e, x.lease);
    if x.job in Next(s, e).backend.jobs {
      if Next(s, e).backend.jobs[x.job].HeldBy(x.lease) { LostStaysLost(s, e, x.job, x.lease); }
      CountStays(s, e, x.job);
    }
  }

  lemma CountStays(s: System, e: Event, id: JobId)
    requires id in Next(s, e).backend.jobs
    requires id in s.backend.jobs ==> id in s.reprints
    ensures id in s.backend.jobs ==>
      Next(s, e).backend.jobs[id].failoverCount in {s.backend.jobs[id].failoverCount, 1}
    ensures id !in s.backend.jobs ==> id !in s.reprints && Next(s, e).backend.jobs[id].failoverCount == 0
  {
  }

  lemma AddedIsFresh(s: System, s': System, x: LogEntry)
    requires LogOk(s) && Added(s, s', x)
    ensures forall i :: 0 <= i < |s.backend.log| ==> s.backend.log[i].lease != x.lease
    ensures forall i :: 0 <= i < |s.backend.log| && s.backend.log[i].switched && x.switched ==> s.backend.log[i].job != x.job
  {
    forall i | 0 <= i < |s.backend.log|
      ensures s.backend.log[i].lease != x.lease
      ensures s.backend.log[i].switched && x.switched ==> s.backend.log[i].job != x.job
    {
      assert EntryOk(s, s.backend.log[i]);
    }
  }

  lemma CountsStay(s: System, e: Event)
    requires RowsOk(s) && LogOk(s)
    ensures forall id :: id in Next(s, e).backend.jobs ==> Next(s, e).backend.jobs[id].failoverCount <= 1
  {
    forall id | id in Next(s, e).backend.jobs
      ensures Next(s, e).backend.jobs[id].failoverCount <= 1
    {
      if id in s.backend.jobs { assert RowOk(s, id); }
      CountStays(s, e, id);
    }
  }

  lemma EntriesStay(s: System, e: Event)
    requires Inv(s) && LogOk(s)
    ensures forall i :: 0 <= i < |s.backend.log| ==> EntryOk(Next(s, e), s.backend.log[i])
  {
    forall i | 0 <= i < |s.backend.log|
      ensures EntryOk(Next(s, e), s.backend.log[i])
    {
      EntryStays(s, e, s.backend.log[i]);
    }
  }

  lemma NextKeepsLog(s: System, e: Event)
    requires Inv(s) && LogOk(s)
    ensures LogOk(Next(s, e))
  {
    CountsStay(s, e);
    EntriesStay(s, e);
    var x := OneEntry(s, e);
    if x.Some? { AddedIsFresh(s, Next(s, e), x.value); }
    ExtendedLog(s, Next(s, e), x);
  }

  lemma ExtendedLog(s: System, s': System, x: Option<LogEntry>)
    requires LogOk(s)
    requires forall i :: 0 <= i < |s.backend.log| ==> EntryOk(s', s.backend.log[i])
    requires forall id :: id in s'.backend.jobs ==> s'.backend.jobs[id].failoverCount <= 1
    requires x.None? ==> s'.backend.log == s.backend.log
    requires x.Some? ==> s'.backend.log == s.backend.log + [x.value] && EntryOk(s', x.value)
    requires x.Some? ==> forall i :: 0 <= i < |s.backend.log| ==>
               s.backend.log[i].lease != x.value.lease
               && (s.backend.log[i].switched && x.value.switched ==> s.backend.log[i].job != x.value.job)
    ensures LogOk(s')
  {
  }

  lemma {:induction false} RunKeepsLog(s: System, events: seq<Event>)
    requires Inv(s) && LogOk(s)
    ensures LogOk(Run(s, events))
    decreases |events|
  {
    if events != [] {
      NextKeepsInv(s, events[0]);
      NextKeepsLog(s, events[0]);
      RunKeepsLog(Next(s, events[0]), events[1..]);
    }
  }

  /** In every run: a lease changes its job's outcome at most once, the printer blamed or credited
      is the one handed out with the claim, a job fails over at most once, failoverCount is 0 or 1. */
  lemma OutcomesAreBookedOnce(events: seq<Event>)
    ensures var s := Run(Init, events);
            var log := s.backend.log;
            && (forall i :: 0 <= i < |log| ==>
                  log[i].lease in s.attempts
                  && (log[i].booked == if log[i].outcome == OutcomeUnclear then None else Some(s.attempts[log[i].lease].printer)))
            && (forall i, k :: 0 <= i < k < |log| ==> log[i].lease != log[k].lease)
            && (forall i, k :: 0 <= i < k < |log| && log[i].switched && log[k].switched ==> log[i].job != log[k].job)
            && (forall id :: id in s.backend.jobs ==> s.backend.jobs[id].failoverCount in {0, 1})
  {
    RunKeepsLog(Init, events);
    var s := Run(Init, events);
    forall i | 0 <= i < |s.backend.log|
      ensures EntryOk(s, s.backend.log[i])
    {
    }
  }

  /** A job moves to another printer only by its single failover or by an administrator's choice. */
  lemma PrinterChanges(s: System, e: Event, id: JobId)
    requires id in s.reprints && id in s.backend.jobs && id in Next(s, e).backend.jobs
    requires Next(s, e).backend.jobs[id].AttemptPrinter() != s.backend.jobs[id].AttemptPrinter()
    ensures (e.ResolveUnclear? && e.id == id && e.resolution == REPRINTED && e.target.Some?)
            || (e.WriteRow? && e.snapshot.job == id && e.snapshot.fallback.Some? && s.backend.jobs[id].failoverCount == 0)
  {
    assert s.backend.jobs[id] != Next(s, e).backend.jobs[id];
  }
}
