/**
 * The rows of the print queue and the conditional statements the backend runs on them.
 *
 * Every statement is a function from the row it finds to the row it leaves, or None where
 * its WHERE clause matches nothing.  The class below performs the same statements on a table.
 */
module PrintJobs {
  import opened Common

  type JobId = nat
  type PrinterId = nat
  type LeaseId = nat

  const LEASE_DURATION_MS := 60_000

  datatype Status = PENDING | PROCESSING | PRINTED | FAILED | UNRESOLVED | CANCELLED
  datatype Phase = CLAIMED | DELIVERING | SPOOLED
  datatype Outcome = OutcomePrinted | OutcomeNotPrinted | OutcomeUnclear
  datatype Resolution = REPRINTED | CONFIRMED_PRINTED | DISCARDED

  datatype Job = Job(
    createdAt: int,
    status: Status,
    phase: Option<Phase>,
    lease: Option<LeaseId>,
    leaseExpiresAt: Option<int>,
    attemptCount: nat,
    printerId: PrinterId,
    activePrinterId: Option<PrinterId>,
    failoverCount: nat,
    failoverFrom: Option<PrinterId>,
    outcomeClass: Option<Outcome>,
    errorCode: Option<string>)
  {
    /** COALESCE(activePrinterId, printerId): the printer an attempt is made on. */
    function AttemptPrinter(): PrinterId {
      if activePrinterId.Some? then activePrinterId.value else printerId
    }

    predicate HeldBy(l: LeaseId) {
      status == PROCESSING && lease == Some(l)
    }
  }

  datatype Printer = Printer(
    console: bool,
    isActive: bool,
    fallback: Option<PrinterId>,
    lastOkAt: Option<int>,
    lastErrorAt: Option<int>,
    lastErrorCode: Option<string>)

  const NO_FAILOVER_ERROR_CODES: set<string> :=
    {"PRINTER_CONFIGURATION", "CUPS_QUEUE_NOT_FOUND", "OUTPUT_FAILED"}

  function NewJob(printer: PrinterId, now: int): Job {
    Job(now, PENDING, None, None, None, 0, printer, None, 0, None, None, None)
  }

  // ---- One conditional statement each ----

  function Claim(j: Job, l: LeaseId, now: int): Job {
    j.(status := PROCESSING, phase := Some(CLAIMED), lease := Some(l),
       leaseExpiresAt := Some(now + LEASE_DURATION_MS), attemptCount := j.attemptCount + 1)
  }

  function ToPhase(j: Job, l: LeaseId, target: Phase, now: int): Option<Job>
    requires target != CLAIMED
  {
    var from := if target == DELIVERING then CLAIMED else DELIVERING;
    if j.HeldBy(l) && j.phase == Some(from) && j.leaseExpiresAt.Some? && j.leaseExpiresAt.value > now
    then Some(j.(phase := Some(target)))
    else None
  }

  function Beat(j: Job, l: LeaseId, now: int): Option<Job> {
    if j.HeldBy(l) then Some(j.(leaseExpiresAt := Some(now + LEASE_DURATION_MS))) else None
  }

  function FinishPrinted(j: Job, l: LeaseId, code: Option<string>): Option<Job> {
    if j.HeldBy(l)
    then Some(j.(status := PRINTED, phase := None, outcomeClass := Some(OutcomePrinted), errorCode := code))
    else None
  }

  function FinishUnclear(j: Job, l: LeaseId, code: Option<string>): Option<Job> {
    if j.HeldBy(l)
    then Some(j.(status := UNRESOLVED, phase := None, outcomeClass := Some(OutcomeUnclear), errorCode := code))
    else None
  }

  function FinishFailed(j: Job, l: LeaseId, code: Option<string>): Option<Job> {
    if j.HeldBy(l)
    then Some(j.(status := FAILED, phase := None, outcomeClass := Some(OutcomeNotPrinted), errorCode := code))
    else None
  }

  function Failover(j: Job, l: LeaseId, from: PrinterId, to: PrinterId, code: Option<string>): Option<Job> {
    if j.HeldBy(l) && j.failoverCount == 0
    then Some(j.(status := PENDING, activePrinterId := Some(to), failoverCount := 1, failoverFrom := Some(from),
                 lease := None, leaseExpiresAt := None, phase := None,
                 outcomeClass := Some(OutcomeNotPrinted), errorCode := code))
    else None
  }

  /** Requeueing looks at the phase only: neither the lease nor its expiry is checked again. */
  function Requeue(j: Job): Option<Job> {
    if j.status == PROCESSING && j.phase == Some(CLAIMED)
    then Some(j.(status := PENDING, phase := None, lease := None, leaseExpiresAt := None))
    else None
  }

  function GiveUp(j: Job, expected: Phase): Option<Job> {
    if j.status == PROCESSING && j.phase == Some(expected)
    then Some(j.(status := UNRESOLVED, phase := None, outcomeClass := Some(OutcomeUnclear)))
    else None
  }

  function Resolve(j: Job, r: Resolution, target: Option<PrinterId>): Option<Job> {
    if j.status != UNRESOLVED then None
    else match r
      case REPRINTED =>
        Some(j.(status := PENDING, attemptCount := j.attemptCount + 1,
                activePrinterId := if target.Some? then target else j.activePrinterId))
      case CONFIRMED_PRINTED => Some(j.(status := PRINTED))
      case DISCARDED => Some(j.(status := CANCELLED))
  }

  /** Who decides about an unresolved job. */
  datatype Decider = Decider(signedIn: bool, administrator: bool)

  /** Discarding is for administrators, with a reason; only a reprint may name a printer, an active one. */
  predicate MayResolve(printers: map<PrinterId, Printer>, r: Resolution, target: Option<PrinterId>, who: Decider, comment: string) {
    && who.signedIn
    && (r == DISCARDED ==> who.administrator && Trim(comment) != "")
    && (target.Some? ==> r == REPRINTED && target.value in printers && printers[target.value].isActive)
  }

  function Retry(j: Job): Job {
    if j.status == FAILED then j.(status := PENDING) else j
  }

  // ---- What finalizeNotPrinted reads before it writes ----

  datatype Snapshot = Snapshot(job: JobId, lease: LeaseId, printer: PrinterId, fallback: Option<PrinterId>)

  function FallbackFor(j: Job, printers: map<PrinterId, Printer>, code: Option<string>): Option<PrinterId> {
    var p := j.AttemptPrinter();
    if j.failoverCount == 0 && p in printers && !printers[p].console
       && !(code.Some? && code.value in NO_FAILOVER_ERROR_CODES)
       && printers[p].fallback.Some? && printers[p].fallback.value in printers
       && printers[printers[p].fallback.value].isActive
    then printers[p].fallback
    else None
  }

  function ReadForReport(id: JobId, j: Job, l: LeaseId, printers: map<PrinterId, Printer>, code: Option<string>): Snapshot {
    Snapshot(id, l, j.AttemptPrinter(), FallbackFor(j, printers, code))
  }

  // ---- The reaper's two passes ----

  predicate Expired(j: Job, now: int) {
    j.status == PROCESSING && j.leaseExpiresAt.Some? && j.leaseExpiresAt.value < now
  }

  function SweepRow(j: Job, now: int): Job {
    if !Expired(j, now) || j.phase.None? then j
    else if j.phase.value == CLAIMED then Requeue(j).value
    else GiveUp(j, j.phase.value).value
  }

  function Sweep(jobs: map<JobId, Job>, now: int): map<JobId, Job> {
    map id | id in jobs :: SweepRow(jobs[id], now)
  }

  // ---- The backend as one value ----

  /** One outcome that changed a job: which lease reported it and which printer it was booked on. */
  datatype LogEntry = LogEntry(lease: LeaseId, job: JobId, booked: Option<PrinterId>, outcome: Outcome, switched: bool)

  datatype Backend = Backend(jobs: map<JobId, Job>, printers: map<PrinterId, Printer>, log: seq<LogEntry>)

  datatype Reject = NotFound | Conflict | BadRequest | Forbidden

  /** lastOkAt on success, lastErrorAt and lastErrorCode on failure, of the printer that tried. */
  function BookOutcome(printers: map<PrinterId, Printer>, p: PrinterId, ok: bool, code: Option<string>, now: int): map<PrinterId, Printer> {
    if p !in printers then printers
    else if ok then printers[p := printers[p].(lastOkAt := Some(now))]
    else printers[p := printers[p].(lastErrorAt := Some(now), lastErrorCode := code)]
  }

  /** Where the fenced statement matched no row: the same report again is no error, all else is. */
  function Replayed(b: Backend, id: JobId, l: LeaseId, accepted: Status): Result<Job, Reject> {
    if id !in b.jobs then Err(NotFound)
    else if b.jobs[id].lease == Some(l) && b.jobs[id].status == accepted then Ok(b.jobs[id])
    else Err(Conflict)
  }

  function ReportPrinted(b: Backend, id: JobId, l: LeaseId, code: Option<string>, now: int): Backend {
    if id !in b.jobs || FinishPrinted(b.jobs[id], l, code).None? then b
    else
      var p := b.jobs[id].AttemptPrinter();
      Backend(b.jobs[id := FinishPrinted(b.jobs[id], l, code).value],
              BookOutcome(b.printers, p, true, code, now),
              b.log + [LogEntry(l, id, Some(p), OutcomePrinted, false)])
  }

  function ReportUnclear(b: Backend, id: JobId, l: LeaseId, code: Option<string>): Backend {
    if id !in b.jobs || FinishUnclear(b.jobs[id], l, code).None? then b
    else
      Backend(b.jobs[id := FinishUnclear(b.jobs[id], l, code).value], b.printers,
              b.log + [LogEntry(l, id, None, OutcomeUnclear, false)])
  }

  /** The writing half of a NOT_PRINTED report; s was read before, outside the transaction. */
  function ReportNotPrinted(b: Backend, s: Snapshot, code: Option<string>, now: int): Backend {
    if s.job !in b.jobs then b
    else if s.fallback.Some? then
      var done := Failover(b.jobs[s.job], s.lease, s.printer, s.fallback.value, code);
      if done.None? then b
      else
        Backend(b.jobs[s.job := done.value], BookOutcome(b.printers, s.printer, false, code, now),
                b.log + [LogEntry(s.lease, s.job, Some(s.printer), OutcomeNotPrinted, true)])
    else
      var done := FinishFailed(b.jobs[s.job], s.lease, code);
      if done.None? then b
      else
        var p := b.jobs[s.job].AttemptPrinter();
        Backend(b.jobs[s.job := done.value], BookOutcome(b.printers, p, false, code, now),
                b.log + [LogEntry(s.lease, s.job, Some(p), OutcomeNotPrinted, false)])
  }

  function RetryAll(jobs: map<JobId, Job>): map<JobId, Job> {
    map id | id in jobs :: Retry(jobs[id])
  }

  ghost predicate OldestPending(jobs: map<JobId, Job>, id: JobId) {
    id in jobs && jobs[id].status == PENDING
    && forall k :: k in jobs && jobs[k].status == PENDING ==> jobs[id].createdAt <= jobs[k].createdAt
  }

  // ---- The service and the reaper ----

  class PrintJobsService {
    var jobs: map<JobId, Job>
    var printers: map<PrinterId, Printer>
    var log: seq<LogEntry>

    ghost function View(): Backend
      reads this
    {
      Backend(jobs, printers, log)
    }

    /** Reserves the oldest waiting job under a new lease and names the printer to use. */
    method ClaimNextJob(l: LeaseId, now: int) returns (claimed: Option<(JobId, PrinterId)>)
      modifies this`jobs
      ensures claimed.None? ==> jobs == old(jobs) && forall k :: k in jobs ==> jobs[k].status != PENDING
      ensures claimed.Some? ==>
        var id := claimed.value.0;
        OldestPending(old(jobs), id) && claimed.value.1 == old(jobs)[id].AttemptPrinter()
        && jobs == old(jobs)[id := Claim(old(jobs)[id], l, now)]
    {
      var pending := set k | k in jobs && jobs[k].status == PENDING;
      if pending == {} {
        assert forall k :: k in jobs && jobs[k].status == PENDING ==> k in pending;
        return None;
      }
      var best :| best in pending;
      var rest := pending - {best};
      while rest != {}
        invariant rest <= pending && best in pending - rest
        invariant forall k :: k in pending - rest ==> jobs[best].createdAt <= jobs[k].createdAt
        decreases rest
      {
        var k :| k in rest;
        if jobs[k].createdAt < jobs[best].createdAt { best := k; }
        rest := rest - {k};
      }
      var printer := jobs[best].AttemptPrinter();
      jobs := jobs[best := Claim(jobs[best], l, now)];
      return Some((best, printer));
    }

    method TransitionPhase(id: JobId, l: LeaseId, target: Phase, now: int) returns (r: Result<Job, Reject>)
      requires target != CLAIMED
      modifies this`jobs
      ensures r.Ok? <==> id in old(jobs) && ToPhase(old(jobs)[id], l, target, now).Some?
      ensures r.Ok? ==> jobs == old(jobs)[id := r.value] && Some(r.value) == ToPhase(old(jobs)[id], l, target, now)
      ensures r.Err? ==> jobs == old(jobs) && r.error == Conflict
    {
      if id !in jobs { return Err(Conflict); }
      var row := ToPhase(jobs[id], l, target, now);
      if row.None? { return Err(Conflict); }
      jobs := jobs[id := row.value];
      return Ok(row.value);
    }

    method Heartbeat(id: JobId, l: LeaseId, now: int) returns (r: Result<int, Reject>)
      modifies this`jobs
      ensures r.Ok? <==> id in old(jobs) && old(jobs)[id].HeldBy(l)
      ensures r.Ok? ==> r.value == now + LEASE_DURATION_MS
                        && jobs == old(jobs)[id := old(jobs)[id].(leaseExpiresAt := Some(r.value))]
      ensures r.Err? ==> jobs == old(jobs)
    {
      if id !in jobs { return Err(Conflict); }
      var row := Beat(jobs[id], l, now);
      if row.None? { return Err(Conflict); }
      jobs := jobs[id := row.value];
      return Ok(now + LEASE_DURATION_MS);
    }

    method FinalizeAsPrinted(id: JobId, l: LeaseId, code: Option<string>, now: int) returns (r: Result<Job, Reject>)
      modifies this
      ensures View() == ReportPrinted(old(View()), id, l, code, now)
      ensures View() == old(View()) ==> r == Replayed(View(), id, l, PRINTED)
      ensures View() != old(View()) ==> r == Ok(jobs[id])
    {
      if id !in jobs { return Err(NotFound); }
      var row := FinishPrinted(jobs[id], l, code);
      if row.None? { return Replayed(Backend(jobs, printers, log), id, l, PRINTED); }
      var attemptPrinter := jobs[id].AttemptPrinter();
      jobs := jobs[id := row.value];
      RecordPrinterOutcome(attemptPrinter, true, code, now);
      log := log + [LogEntry(l, id, Some(attemptPrinter), OutcomePrinted, false)];
      return Ok(jobs[id]);
    }

    method FinalizeAsUnresolved(id: JobId, l: LeaseId, code: Option<string>) returns (r: Result<Job, Reject>)
      modifies this
      ensures View() == ReportUnclear(old(View()), id, l, code)
      ensures View() == old(View()) ==> r == Replayed(View(), id, l, UNRESOLVED)
      ensures View() != old(View()) ==> r == Ok(jobs[id])
    {
      if id !in jobs { return Err(NotFound); }
      var row := FinishUnclear(jobs[id], l, code);
      if row.None? { return Replayed(Backend(jobs, printers, log), id, l, UNRESOLVED); }
      jobs := jobs[id := row.value];
      log := log + [LogEntry(l, id, None, OutcomeUnclear, false)];
      return Ok(jobs[id]);
    }

    /** Reads now, writes later: between the two calls anything may happen to the table. */
    method ReadNotPrinted(id: JobId, l: LeaseId, code: Option<string>) returns (r: Result<Snapshot, Reject>)
      ensures r.Err? <==> id !in jobs
      ensures r.Ok? ==> r.value == ReadForReport(id, jobs[id], l, printers, code)
    {
      if id !in jobs { return Err(NotFound); }
      return Ok(ReadForReport(id, jobs[id], l, printers, code));
    }

    method WriteNotPrinted(s: Snapshot, code: Option<string>, now: int) returns (r: Result<Job, Reject>)
      modifies this
      ensures View() == ReportNotPrinted(old(View()), s, code, now)
      ensures View() == old(View()) ==> r == Replayed(View(), s.job, s.lease, FAILED)
      ensures View() != old(View()) ==> r == Ok(jobs[s.job])
    {
      if s.job !in jobs { return Err(NotFound); }
      if s.fallback.Some? {
        var row := Failover(jobs[s.job], s.lease, s.printer, s.fallback.value, code);
        if row.Some? {
          jobs := jobs[s.job := row.value];
          RecordPrinterOutcome(s.printer, false, code, now);
          log := log + [LogEntry(s.lease, s.job, Some(s.printer), OutcomeNotPrinted, true)];
          return Ok(jobs[s.job]);
        }
        return Replayed(Backend(jobs, printers, log), s.job, s.lease, FAILED);
      }
      var row := FinishFailed(jobs[s.job], s.lease, code);
      if row.None? { return Replayed(Backend(jobs, printers, log), s.job, s.lease, FAILED); }
      var attemptPrinter := jobs[s.job].AttemptPrinter();
      jobs := jobs[s.job := row.value];
      RecordPrinterOutcome(attemptPrinter, false, code, now);
      log := log + [LogEntry(s.lease, s.job, Some(attemptPrinter), OutcomeNotPrinted, false)];
      return Ok(jobs[s.job]);
    }

    method RecordPrinterOutcome(p: PrinterId, ok: bool, code: Option<string>, now: int)
      modifies this`printers
      ensures printers == BookOutcome(old(printers), p, ok, code, now)
    {
      if p in printers {
        var row := printers[p];
        printers := printers[p := if ok then row.(lastOkAt := Some(now))
                                  else row.(lastErrorAt := Some(now), lastErrorCode := code)];
      }
    }

    method ResolveJob(id: JobId, resolution: Resolution, target: Option<PrinterId>, who: Decider, comment: string) returns (r: Result<Job, Reject>)
      modifies this`jobs
      ensures r.Ok? <==> MayResolve(printers, resolution, target, who, comment) && id in old(jobs) && old(jobs)[id].status == UNRESOLVED
      ensures r.Ok? ==> jobs == old(jobs)[id := r.value] && Some(r.value) == Resolve(old(jobs)[id], resolution, target)
      ensures r.Err? ==> jobs == old(jobs)
      ensures r.Err? && MayResolve(printers, resolution, target, who, comment) ==> r.error == if id in jobs then Conflict else NotFound
    {
      if !who.signedIn { return Err(BadRequest); }
      if resolution == DISCARDED && !who.administrator { return Err(Forbidden); }
      if resolution == DISCARDED && Trim(comment) == "" { return Err(BadRequest); }
      if target.Some? && resolution != REPRINTED { return Err(BadRequest); }
      if target.Some? && target.value !in printers { return Err(NotFound); }
      if target.Some? && !printers[target.value].isActive { return Err(BadRequest); }
      if id !in jobs { return Err(NotFound); }
      var row := Resolve(jobs[id], resolution, target);
      if row.None? { return Err(Conflict); }
      jobs := jobs[id := row.value];
      return Ok(row.value);
    }

    method RetryFailedPrintJobs() returns (retried: nat)
      modifies this`jobs
      ensures jobs == RetryAll(old(jobs))
      ensures retried == |set id | id in old(jobs) && old(jobs)[id].status == FAILED|
    {
      retried := |set id | id in jobs && jobs[id].status == FAILED|;
      jobs := map id | id in jobs :: if jobs[id].status == FAILED then jobs[id].(status := PENDING) else jobs[id];
    }

    /** Both passes of one reaper run: expired CLAIMED rows first, then DELIVERING and SPOOLED. */
    method SweepExpiredLeases(locked: bool, now: int)
      modifies this`jobs
      ensures jobs == if locked then old(jobs) else Sweep(old(jobs), now)
    {
      if locked { return; }
      RequeueClaimedExpired(now);
      UnresolveActiveExpired(now);
    }

    method RequeueClaimedExpired(now: int)
      modifies this`jobs
      ensures jobs == map id | id in old(jobs) ::
        if Expired(old(jobs)[id], now) && old(jobs)[id].phase == Some(CLAIMED) then Requeue(old(jobs)[id]).value else old(jobs)[id]
    {
      var candidates := set id | id in jobs && Expired(jobs[id], now) && jobs[id].phase == Some(CLAIMED);
      ghost var before := jobs;
      var todo := candidates;
      while todo != {}
        invariant todo <= candidates && jobs.Keys == before.Keys
        invariant forall id :: id in before ==>
          jobs[id] == if id in candidates - todo then Requeue(before[id]).value else before[id]
        decreases todo
      {
        var id :| id in todo;
        var row := Requeue(jobs[id]);
        if row.Some? { jobs := jobs[id := row.value]; }
        todo := todo - {id};
      }
    }

    method UnresolveActiveExpired(now: int)
      modifies this`jobs
      ensures jobs == map id | id in old(jobs) ::
        if Expired(old(jobs)[id], now) && old(jobs)[id].phase in {Some(DELIVERING), Some(SPOOLED)}
        then GiveUp(old(jobs)[id], old(jobs)[id].phase.value).value else old(jobs)[id]
    {
      var candidates := set id | id in jobs && Expired(jobs[id], now) && jobs[id].phase in {Some(DELIVERING), Some(SPOOLED)};
      ghost var before := jobs;
      var todo := candidates;
      while todo != {}
        invariant todo <= candidates && jobs.Keys == before.Keys
        invariant forall id :: id in before ==>
          jobs[id] == if id in candidates - todo then GiveUp(before[id], before[id].phase.value).value else before[id]
        decreases todo
      {
        var id :| id in todo;
        var row := GiveUp(jobs[id], jobs[id].phase.value);
        if row.Some? { jobs := jobs[id := row.value]; }
        todo := todo - {id};
      }
    }
  }
}
