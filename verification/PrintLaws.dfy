/** What the print queue promises to workers and to people, told as the life of one job. */
module PrintLaws {
  import opened Common
  import opened PrintJobs
  import opened PrintProtocol

  /** Everything but one job's row, and that row is this one. */
  ghost predicate RowBecomes(s: System, s': System, id: JobId, row: Job) {
    && id in s.backend.jobs && s'.backend.jobs == s.backend.jobs[id := row]
    && s'.readings == s.readings && s'.reprints == s.reprints
  }

  ghost predicate Holds(s: System, l: LeaseId) {
    && l in s.attempts && s.attempts[l].job in s.backend.jobs
    && s.backend.jobs[s.attempts[l].job].status == PROCESSING && s.backend.jobs[s.attempts[l].job].lease == Some(l)
  }

  ghost function RowOf(s: System, l: LeaseId): Job
    requires l in s.attempts && s.attempts[l].job in s.backend.jobs
  {
    s.backend.jobs[s.attempts[l].job]
  }

  // ---- Claiming, and how long a lease lasts ----

  /** A new job waits on its printer, without a past. */
  lemma CreatedWaits(s: System, id: JobId, printer: PrinterId, now: int)
    requires id !in s.reprints
    ensures var s' := Next(s, Create(id, printer, now));
            && id in s'.backend.jobs
            && RowBecomes(s.(backend := s'.backend, reprints := s'.reprints), s', id, s'.backend.jobs[id])
            && s'.reprints == s.reprints[id := 0] && s'.attempts == s.attempts
            && var j := s'.backend.jobs[id];
               j.status == PENDING && j.phase.None? && j.lease.None? && j.leaseExpiresAt.None? && j.attemptCount == 0
               && j.AttemptPrinter() == j.printerId == printer && j.failoverCount == 0 && j.createdAt == now
  {
  }

  /** Claiming a waiting job hands its printer out, counts the attempt and gives 60 seconds. */
  lemma ClaimingHandsOut(s: System, id: JobId, l: LeaseId, now: int)
    requires id in s.backend.jobs && s.backend.jobs[id].status == PENDING && l !in s.attempts
    ensures var s' := Next(s, ClaimJob(id, l, now));
            && Holds(s', l) && s'.attempts[l].job == id
            && var j, j' := s.backend.jobs[id], s'.backend.jobs[id];
               && s'.attempts[l].printer == (match j.activePrinterId case Some(p) => p case None => j.printerId)
               && !s'.attempts[l].confirmed && s'.attempts[l].verdict.None? && !s'.attempts[l].paper
               && j'.phase == Some(CLAIMED) && j'.leaseExpiresAt == Some(now + 60_000) && j'.attemptCount == j.attemptCount + 1
               && RowBecomes(s, s', id, j.(status := PROCESSING, phase := j'.phase, lease := Some(l),
                                           leaseExpiresAt := j'.leaseExpiresAt, attemptCount := j'.attemptCount))
  {
  }

  /** The waiting jobs that are no younger than this one, itself among them. */
  ghost function NoYounger(jobs: map<JobId, Job>, id: JobId): set<JobId>
    requires id in jobs
  {
    set k | k in jobs && jobs[k].status == PENDING && jobs[k].createdAt <= jobs[id].createdAt
  }

  /** One claim after the other, each of a job that is the oldest to wait. */
  ghost predicate ClaimsInOrder(jobs: map<JobId, Job>, claims: seq<(JobId, LeaseId, int)>)
    decreases |claims|
  {
    claims == []
    || (OldestPending(jobs, claims[0].0) && ClaimsInOrder(jobs[claims[0].0 := Claim(jobs[claims[0].0], claims[0].1, claims[0].2)], claims[1..]))
  }

  /** Nobody waits longer than for the jobs that came before: as many claims as there are jobs no younger include this one. */
  lemma {:induction false} QueueIsFair(jobs: map<JobId, Job>, id: JobId, claims: seq<(JobId, LeaseId, int)>)
    requires id in jobs && jobs[id].status == PENDING
    requires ClaimsInOrder(jobs, claims) && |claims| >= |NoYounger(jobs, id)|
    ensures exists i :: 0 <= i < |claims| && claims[i].0 == id
    decreases |claims|
  {
    assert id in NoYounger(jobs, id);
    var q := claims[0].0;
    if q != id {
      var after := jobs[q := Claim(jobs[q], claims[0].1, claims[0].2)];
      assert q in NoYounger(jobs, id);
      assert NoYounger(after, id) == NoYounger(jobs, id) - {q};
      QueueIsFair(after, id, claims[1..]);
      var i :| 0 <= i < |claims[1..]| && claims[1..][i].0 == id;
      assert claims[i + 1].0 == id;
    }
  }

  /** From the claim, or the last heartbeat, delivery can be confirmed for 60 seconds and no longer. */
  lemma LeaseLastsAMinute(s: System, l: LeaseId, beat: int, now: int)
    requires Holds(s, l) && RowOf(s, l).phase == Some(CLAIMED) && s.attempts[l].verdict.None?
    ensures var kept := Next(s, HeartbeatOf(l, beat));
            var s' := Next(kept, ConfirmDelivering(l, now));
            && RowBecomes(s, kept, s.attempts[l].job, RowOf(s, l).(leaseExpiresAt := Some(beat + 60_000)))
            && (s' != kept <==> now < beat + 60_000)
            && (s' != kept ==>
                  RowBecomes(kept, s', s.attempts[l].job, RowOf(kept, l).(phase := Some(DELIVERING)))
                  && s'.attempts == s.attempts[l := s.attempts[l].(confirmed := true)])
  {
    var kept := Next(s, HeartbeatOf(l, beat));
    var s' := Next(kept, ConfirmDelivering(l, now));
    if now < beat + 60_000 { assert s'.backend.jobs[s.attempts[l].job].phase == Some(DELIVERING); }
  }

  /** SPOOLED follows DELIVERING, under the same deadline. */
  lemma SpoolingFollowsDelivery(s: System, l: LeaseId, now: int)
    requires Holds(s, l) && s.attempts[l].confirmed && RowOf(s, l).leaseExpiresAt.Some?
    ensures var s' := Next(s, ConfirmSpooled(l, now));
            && (s' != s <==> RowOf(s, l).phase == Some(DELIVERING) && now < RowOf(s, l).leaseExpiresAt.value)
            && (s' != s ==> RowBecomes(s, s', s.attempts[l].job, RowOf(s, l).(phase := Some(SPOOLED))))
  {
    var s' := Next(s, ConfirmSpooled(l, now));
    if RowOf(s, l).phase == Some(DELIVERING) && now < RowOf(s, l).leaseExpiresAt.value {
      assert s'.backend.jobs[s.attempts[l].job].phase == Some(SPOOLED);
    }
  }

  /** Whoever does not hold the job confirms nothing, beats nothing and books nothing. */
  lemma OthersAreFenced(s: System, l: LeaseId, now: int)
    requires !Holds(s, l)
    ensures Next(s, HeartbeatOf(l, now)) == Next(s, ConfirmDelivering(l, now)) == Next(s, ConfirmSpooled(l, now)) == Next(s, Report(l, now)) == s
  {
  }

  // ---- Reports ----

  ghost predicate BookedOn(s: System, s': System, p: PrinterId, row: Printer) {
    s'.backend.printers == if p in s.backend.printers then s.backend.printers[p := row] else s.backend.printers
  }

  /** Whoever holds a job tries it on the printer that was handed out at the claim. */
  lemma HeldOnItsPrinter(s: System, l: LeaseId)
    requires RowsOk(s) && Holds(s, l)
    ensures RowOf(s, l).AttemptPrinter() == s.attempts[l].printer
  {
    assert RowOk(s, s.attempts[l].job);
  }

  lemma PrintedByHolder(s: System, l: LeaseId, now: int)
    requires Holds(s, l) && s.attempts[l].verdict == Some(OutcomePrinted) && RowOf(s, l).AttemptPrinter() == s.attempts[l].printer
    ensures var s', a := Next(s, Report(l, now)), s.attempts[l];
            && RowBecomes(s, s', a.job, RowOf(s, l).(status := PRINTED, phase := None, outcomeClass := Some(OutcomePrinted), errorCode := a.code))
            && s'.attempts == s.attempts
    ensures var s', a := Next(s, Report(l, now)), s.attempts[l];
            && (a.printer in s.backend.printers ==> BookedOn(s, s', a.printer, s.backend.printers[a.printer].(lastOkAt := Some(now))))
            && s'.backend.log == s.backend.log + [LogEntry(l, a.job, Some(a.printer), OutcomePrinted, false)]
  {
  }

  /** A holder's PRINTED: the job is printed, and the printer handed out at the claim worked at that time. */
  lemma PrintedIsBooked(s: System, l: LeaseId, now: int)
    requires RowsOk(s) && Holds(s, l) && s.attempts[l].verdict == Some(OutcomePrinted)
    ensures var s', a := Next(s, Report(l, now)), s.attempts[l];
            && RowBecomes(s, s', a.job, RowOf(s, l).(status := PRINTED, phase := None, outcomeClass := Some(OutcomePrinted), errorCode := a.code))
            && s'.attempts == s.attempts
            && (a.printer in s.backend.printers ==> BookedOn(s, s', a.printer, s.backend.printers[a.printer].(lastOkAt := Some(now))))
            && s'.backend.log == s.backend.log + [LogEntry(l, a.job, Some(a.printer), OutcomePrinted, false)]
  {
    HeldOnItsPrinter(s, l);
    PrintedByHolder(s, l, now);
  }

  /** A holder's UNCLEAR: people have to decide, and no printer is blamed or praised. */
  lemma UnclearIsBooked(s: System, l: LeaseId, now: int)
    requires Holds(s, l) && s.attempts[l].verdict == Some(OutcomeUnclear)
    ensures var s', a := Next(s, Report(l, now)), s.attempts[l];
            && RowBecomes(s, s', a.job, RowOf(s, l).(status := UNRESOLVED, phase := None, outcomeClass := Some(OutcomeUnclear), errorCode := a.code))
            && s'.attempts == s.attempts && s'.backend.printers == s.backend.printers
  {
  }

  /** Another printer may take over from p: p has an active substitute and is no console, the job has not
      moved yet, and the error is not one that would follow it. */
  ghost predicate TakesOver(s: System, j: Job, p: PrinterId, code: Option<string>, q: PrinterId) {
    && j.failoverCount == 0 && p in s.backend.printers && !s.backend.printers[p].console
    && s.backend.printers[p].fallback == Some(q) && q in s.backend.printers && s.backend.printers[q].isActive
    && code != Some("PRINTER_CONFIGURATION") && code != Some("CUPS_QUEUE_NOT_FOUND") && code != Some("OUTPUT_FAILED")
  }

  /** The row that a NOT_PRINTED report leaves of j, tried on p. */
  ghost predicate Decided(s: System, j: Job, p: PrinterId, code: Option<string>, j': Job) {
    && (forall q :: TakesOver(s, j, p, code, q) ==>
          j' == j.(status := PENDING, activePrinterId := Some(q), failoverCount := 1, failoverFrom := Some(p), lease := None,
                   leaseExpiresAt := None, phase := None, outcomeClass := Some(OutcomeNotPrinted), errorCode := code))
    && ((forall q :: !TakesOver(s, j, p, code, q)) ==>
          j' == j.(status := FAILED, phase := None, outcomeClass := Some(OutcomeNotPrinted), errorCode := code))
  }

  lemma RowIsDecided(s: System, l: LeaseId, now: int)
    requires Holds(s, l) && s.attempts[l].printer == RowOf(s, l).AttemptPrinter()
    ensures var a, j := s.attempts[l], RowOf(s, l);
            var b' := ReportNotPrinted(s.backend, ReadForReport(a.job, j, l, s.backend.printers, a.code), a.code, now);
            && a.job in b'.jobs && b'.jobs == s.backend.jobs[a.job := b'.jobs[a.job]] && Decided(s, j, a.printer, a.code, b'.jobs[a.job])
            && (a.printer in s.backend.printers ==>
                  b'.printers == s.backend.printers[a.printer := s.backend.printers[a.printer].(lastErrorAt := Some(now), lastErrorCode := a.code)])
  {
    var a, j := s.attempts[l], RowOf(s, l);
    var snap := ReadForReport(a.job, j, l, s.backend.printers, a.code);
    if snap.fallback.Some? { assert TakesOver(s, j, a.printer, a.code, snap.fallback.value); }
  }

  lemma ReadThenWritten(s: System, l: LeaseId, snap: Snapshot, now: int)
    requires Holds(s, l) && s.attempts[l].verdict == Some(OutcomeNotPrinted)
    requires snap == ReadForReport(s.attempts[l].job, RowOf(s, l), l, s.backend.printers, s.attempts[l].code)
    ensures Next(s, ReadRow(l)) == s.(readings := s.readings + {snap})
    ensures Next(Next(s, ReadRow(l)), WriteRow(snap, now))
         == s.(readings := s.readings + {snap}, backend := ReportNotPrinted(s.backend, snap, s.attempts[l].code, now))
  {
  }

  /** A holder's NOT_PRINTED, read and written with nothing in between: the job waits on the substitute
      exactly if that may take over, and has failed on its printer otherwise; either way the failure is the
      printer's that was handed out at the claim. */
  lemma NotPrintedIsDecided(s: System, l: LeaseId, now: int) returns (snap: Snapshot)
    requires RowsOk(s) && Holds(s, l) && s.attempts[l].verdict == Some(OutcomeNotPrinted)
    ensures Next(s, ReadRow(l)) == s.(readings := s.readings + {snap})
    ensures var read, a, j := Next(s, ReadRow(l)), s.attempts[l], RowOf(s, l);
            var s' := Next(read, WriteRow(snap, now));
            && a.job in s'.backend.jobs && RowBecomes(read, s', a.job, s'.backend.jobs[a.job]) && s'.attempts == s.attempts
            && Decided(s, j, a.printer, a.code, s'.backend.jobs[a.job])
            && (a.printer in s.backend.printers ==>
                  BookedOn(s, s', a.printer, s.backend.printers[a.printer].(lastErrorAt := Some(now), lastErrorCode := a.code)))
  {
    HeldOnItsPrinter(s, l);
    snap := ReadForReport(s.attempts[l].job, RowOf(s, l), l, s.backend.printers, s.attempts[l].code);
    ReadThenWritten(s, l, snap, now);
    RowIsDecided(s, l, now);
  }

  /** What answers a report that comes too late: the row, to the lease that left it so; a conflict, to everyone else. */
  ghost predicate Answers(b: Backend, id: JobId, l: LeaseId, status: Status) {
    && id in b.jobs && Replayed(b, id, l, status) == Ok(b.jobs[id])
    && (forall other :: other != l ==> Replayed(b, id, other, status) == Err(Conflict))
    && (forall s :: s != status ==> Replayed(b, id, l, s) == Err(Conflict))
  }

  /** A report is booked once: the same again changes nothing and is answered with the row; after a failover the
      lease is gone, and its report is a conflict. */
  lemma ReportsAreIdempotent(s: System, l: LeaseId, code: Option<string>, snap: Snapshot, now: int, later: int)
    requires Holds(s, l) && snap == ReadForReport(s.attempts[l].job, RowOf(s, l), l, s.backend.printers, code)
    ensures var id, b := s.attempts[l].job, s.backend;
            var printed, unclear, failed := ReportPrinted(b, id, l, code, now), ReportUnclear(b, id, l, code), ReportNotPrinted(b, snap, code, now);
            && ReportPrinted(printed, id, l, code, later) == printed && Answers(printed, id, l, PRINTED)
            && ReportUnclear(unclear, id, l, code) == unclear && Answers(unclear, id, l, UNRESOLVED)
            && ReportNotPrinted(failed, snap, code, later) == failed
            && (if snap.fallback.None? then Answers(failed, id, l, FAILED)
                else forall status :: Replayed(failed, id, l, status) == Err(Conflict))
    ensures forall id :: id !in s.backend.jobs ==> Replayed(s.backend, id, l, PRINTED) == Err(NotFound)
  {
  }

  // ---- The reaper ----

  /** A claim that ran out goes back to the queue, and its lease is worth nothing any more. */
  lemma ExpiredClaimsReturn(s: System, l: LeaseId, beat: int, now: int)
    requires Holds(s, l) && RowOf(s, l).phase == Some(CLAIMED) && RowOf(s, l).leaseExpiresAt == Some(beat + 60_000)
    ensures var id, j := s.attempts[l].job, RowOf(s, l);
            Sweep(s.backend.jobs, now)[id]
            == if now > beat + 60_000 then j.(status := PENDING, phase := None, lease := None, leaseExpiresAt := None) else j
    ensures var s' := Next(s, ReapClaimed(s.attempts[l].job));
            && RowBecomes(s, s', s.attempts[l].job, RowOf(s, l).(status := PENDING, phase := None, lease := None, leaseExpiresAt := None))
            && s'.attempts == s.attempts && !Holds(s', l)
  {
  }

  /** A delivery that ran out may have put paper out: people have to decide. */
  lemma ExpiredDeliveriesAreUnclear(s: System, l: LeaseId, beat: int, now: int)
    requires Holds(s, l) && RowOf(s, l).phase in {Some(DELIVERING), Some(SPOOLED)} && RowOf(s, l).leaseExpiresAt == Some(beat + 60_000)
    ensures var id, j := s.attempts[l].job, RowOf(s, l);
            Sweep(s.backend.jobs, now)[id]
            == if now > beat + 60_000 then j.(status := UNRESOLVED, phase := None, outcomeClass := Some(OutcomeUnclear)) else j
    ensures var s' := Next(s, ReapActive(s.attempts[l].job, RowOf(s, l).phase.value));
            RowBecomes(s, s', s.attempts[l].job, RowOf(s, l).(status := UNRESOLVED, phase := None, outcomeClass := Some(OutcomeUnclear)))
  {
  }

  /** A row that has moved on since the reaper read it is left alone. */
  lemma ReaperMissesMovedRows(s: System, id: JobId, read: Phase)
    requires id in s.backend.jobs && s.backend.jobs[id].phase != Some(read)
    ensures (if read == CLAIMED then Next(s, ReapClaimed(id)) else Next(s, ReapActive(id, read))) == s
  {
  }

  /** Rows that nobody holds are left alone. */
  lemma SweepLeavesOthers(jobs: map<JobId, Job>, id: JobId, now: int)
    requires id in jobs && (jobs[id].status != PROCESSING || jobs[id].phase.None? || jobs[id].leaseExpiresAt.None?)
    ensures Sweep(jobs, now)[id] == jobs[id]
  {
  }

  // ---- Decisions ----

  /** The three decisions about an unclear job end in three different places, and only a reprint moves it. */
  lemma DecisionsDiffer(s: System, id: JobId, target: Option<PrinterId>)
    requires id in s.backend.jobs && id in s.reprints && s.backend.jobs[id].status == UNRESOLVED
    ensures var j := s.backend.jobs[id];
            var reprinted, confirmed, discarded :=
              Next(s, ResolveUnclear(id, REPRINTED, target)), Next(s, ResolveUnclear(id, CONFIRMED_PRINTED, target)), Next(s, ResolveUnclear(id, DISCARDED, target));
            && RowBecomes(s, confirmed, id, j.(status := PRINTED)) && RowBecomes(s, discarded, id, j.(status := CANCELLED))
            && reprinted.reprints == s.reprints[id := s.reprints[id] + 1]
            && var j' := reprinted.backend.jobs[id];
               && j' == j.(status := PENDING, activePrinterId := j'.activePrinterId, attemptCount := j.attemptCount + 1)
               && j'.AttemptPrinter() == (if target.Some? then target.value else j.AttemptPrinter())
               && (target.None? ==> j'.activePrinterId == j.activePrinterId)
  {
  }

  /** Any other job takes no decision. */
  lemma DecisionsNeedDoubt(s: System, id: JobId, r: Resolution, target: Option<PrinterId>)
    requires id in s.backend.jobs && s.backend.jobs[id].status != UNRESOLVED
    ensures Next(s, ResolveUnclear(id, r, target)) == s
  {
  }

  /** Who may decide what: nobody without signing in; discarding is for administrators with a reason; a
      printer can be named for a reprint only, and must be a known, active one. */
  lemma DecisionsArePermitted(printers: map<PrinterId, Printer>, target: PrinterId, who: Decider, comment: string)
    ensures MayResolve(printers, CONFIRMED_PRINTED, None, who, comment) <==> who.signedIn
    ensures MayResolve(printers, REPRINTED, None, who, comment) <==> who.signedIn
    ensures MayResolve(printers, DISCARDED, None, who, comment) <==> who.signedIn && who.administrator && Trim(comment) != ""
    ensures MayResolve(printers, REPRINTED, Some(target), who, comment) <==> who.signedIn && target in printers && printers[target].isActive
    ensures !MayResolve(printers, CONFIRMED_PRINTED, Some(target), who, comment) && !MayResolve(printers, DISCARDED, Some(target), who, comment)
  {
  }

  /** Retrying queues failed jobs again, as they are, and no others. */
  lemma RetryingQueuesFailures(s: System, id: JobId)
    requires id in s.backend.jobs
    ensures var j, j' := s.backend.jobs[id], Next(s, RetryFailed).backend.jobs[id];
            if j.status == FAILED then j' == j.(status := PENDING) else j' == j
  {
  }
}
