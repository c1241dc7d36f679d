# Verified model of the festival ordering system

This project models the multi-step protocols of the VereinOrder backend and its print worker in Dafny and
proves what every run of them keeps. Tables are maps or sequences inside classes, a row-locked or
serializable transaction is one atomic step, a thrown exception is a full rollback, and a crash is a cut
between two effects. Each operation is a function of the state it finds; the class methods beside the
functions perform the same operation step by step, and their contracts equate the new state with the
function of the old one. The lemmas then speak about whole runs, that is, about every sequence of events. The
files named Laws say, of every operation, when it goes through and what it leaves, over rows and sums of their own
and without the function that performs it.

`dafny verify dfyconfig.toml` checks everything.

| file | about |
|---|---|
| `Common.dfy`, `Sorting.dfy`, `Rows.dfy` | vocabulary: options, sorting and rearrangements, the rows of one account |
| `PrintJobs.dfy`, `PrintProtocol.dfy`, `PrintLaws.dfy`, `PrintWorker.dfy`, `PrinterFallbacks.dfy` | leases, fencing, failover, the reaper, the worker, substitute printers |
| `Maintenance.dfy` | draining the print queue and locking the site |
| `RestoreSwap.dfy`, `RestoreSafety.dfy`, `NameLaws.dfy` | exchanging the live database for a restored one, cut off anywhere |
| `NativeRestore.dfy`, `NativeSafety.dfy`, `RestoreLaws.dfy` | the restore service around it: auditing, taking back, accepting, restarting |
| `Inventory.dfy`, `InventoryBooks.dfy`, `InventoryLaws.dfy`, `LedgerCheck.dfy`, `LedgerLaws.dfy`, `InventoryReports.dfy` | the stock ledger, the backup checker that replays it, the report and the sum check |
| `Payments.dfy`, `PaymentLaws.dfy`, `PaymentStatus.dfy`, `Vouchers.dfy`, `VoucherBooks.dfy`, `VoucherLaws.dfy` | orders and their payments, the checker's rule on their status, value vouchers, their ledger and its checker |
| `Pricing.dfy`, `PricingLaws.dfy`, `Replay.dfy`, `ReplayLaws.dfy`, `SignatureText.dfy`, `SavedProducts.dfy`, `AnswerableProducts.dfy` | item prices from option groups, recognising a repeated request, the compared texts, what saved groups guarantee for sales |
| `EventModes.dfy`, `EventLaws.dfy` | event status, test and live data, cashier sessions, pickup numbers |
| `OptionGroups.dfy`, `OptionLaws.dfy` | checking and saving option groups under per-statement unique indexes |
| `Retention.dfy`, `RetentionLaws.dfy` | which backups rotation keeps, and in which order files come and go |
| `ConfigTransfer.dfy`, `ConfigLaws.dfy` | exporting and importing an event's configuration |

Assumptions. An adapter reports NOT_PRINTED only when no paper came out. Fresh ids (leases, rows, swap ids) are
new. The reaper runs at least every 15 s and the drain check at least every 2 s, and a request takes effect at
most `delay` after it was admitted. Restores are driven one at a time and are not interrupted by ending
maintenance. State files are written atomically. Queries without an order clause list rows in any order, except
that the export of a configuration, which has none either, is taken to list areas, stations and categories in the
order in which they were created, and to list the same rows alike each time. The backup checkers sort by the English
collation of time and id joined to one text; times are of one length, and ids are assumed to be collated as a total
order, so that rows compare by time first and by id second, as numbers do here.

Where a natural statement is false of the code, the code is kept, a lemma shows an input, and the exact
condition is proved:

- The reaper's lock-free drain check can lock a busy queue when maintenance is ended and started again between
  its count and its write (`RestartDuringCheckIsUnsafe`), and the wait must be longer than the slowest request
  (`WaitMustOutlastRequests`).
- `resume()` fails exactly on a rollback that was cut off before its phase was written
  (`ResumeFailsExactlyHalfRolledBack`, `InterruptedRollbackNeedsRollback`).
- Taking a restore back through the service is refused in phase ROLLED_BACK, whose name does not begin with
  "ROLLBACK", and once the other copy is dropped (`RollbackSucceedsExactly`).
- A restart leaves the live database there in every reachable state but one: a completed restore whose taking back
  died after its first rename stays without a live database however often the backend restarts
  (`RestartConverges`, `CutTakeBackNeedsAsking`); asking again recovers it.
- The ledger checker accepts a reachable stock ledger exactly when every stock is tracked, provided its rows sort by
  time and id as they were written (`ReachableLedgersAreAccepted`). Where they do not, as in a sale whose rows share a
  clock tick and have random ids, it rejects a correct backup: `TiesAreAcceptedExactly`, with `TiesCanBeRejected` as
  an input. The voucher ledger is accepted exactly when the rows of each voucher ascend so
  (`ReachableBanksAreAccepted`).
- A sale recognises its own repetition exactly when no line answers two price-setting groups
  (`OwnLinesRecognised`, `OwnOrderRecognised`). Checked option groups guarantee that (`SavedCatalogsReplay`); the
  unique index keeps the failing product out of the table (`TwoPricesAreNotRecognised`).
- For an order settled by split payments, PAID means that payments equal the total exactly without a refund and
  without free items, or when nothing was owed (`PaidMeansSettledExactly`). Splits do not look at what was paid
  otherwise: `SplitsOverpayExactly` says from which orders they can overpay, and every general payment that leaves an
  order unpaid opens the way (`EveryAddOpensOverpaying`, `AddThenSplitOverpays` as an input).
- An event can still go live exactly when no value voucher was issued in a TEST session that it still has
  (`TestVoucherBlocksLive`): cleaning does not delete vouchers, and their foreign key keeps the session.
  `TestVouchersHappen` is a run that gets there.
- The imported availability is read from a field that the check does not return, so the exported document comes back
  unchanged exactly when every product is available (`ConfigRoundTrip`). The document carries no deposits, no switched-off
  categories, no printers of stations, no floor plans and nothing of the event's status and confirmations, so the event
  itself comes back, up to new ids and the times of its rows, exactly when there are none, every product is available
  and all references are its own (`EventRoundTrip`). Even an event that was just created names version 1.0 of the
  disclaimer, which an imported one does not (`LostOnTheWay`).
- The backup checker derives the payment status of an order from its payments. Cancelling an item does not update it, and
  a split looks at the units only: `StatusFitsExactly` says which operations leave a status that the checker rejects.
  Only an order that is paid when it is created is safe from that; any other is rejected once its items are cancelled
  one by one (`OnlyPaidOrdersAlwaysFit`).
- The product documentation demands that no option group asks for more answers than it has active options. The check
  enforces that through the upper bound only, so a product that passed it can be ordered exactly if every group without
  an upper bound meets the rule (`CheckedProductsAreSelectableExactly`); `CheckedProductsCanBeUnsellable` is an input.
- The check of an imported configuration repeats the conditions of the tables so that no document fails on them, but it
  lets an option sort before zero and a category at the largest number: `CheckedDocumentsAreStorableExactly` says which
  documents the database refuses, `CheckedDocumentsCanBeRefused` is one. The fallback category of old documents evades a
  category of its name by a second name, which can be taken, too (`FallbackStandsApart`).
- Two fallback assignments checked at the same time can build a chain (`InterleavedUpdatesCanChain`).

## Model

| member | source | states |
|---|---|---|
| PrintJobs.PrintJobsService.ClaimNextJob | apps/backend/src/print-jobs/print-jobs.service.ts:140-174 | the oldest waiting job, and no other, is claimed under the new lease; the printer handed out is the one the job is on; nothing is claimed only when nothing waits |
| PrintJobs.PrintJobsService.TransitionPhase | apps/backend/src/print-jobs/print-jobs.service.ts:181-223 | a phase advances exactly for the holder of an unexpired lease in the preceding phase; otherwise conflict and no change |
| PrintJobs.PrintJobsService.Heartbeat | apps/backend/src/print-jobs/print-jobs.service.ts:229-247 | exactly the holder extends its lease, by 60 s from now, and changes nothing else |
| PrintJobs.PrintJobsService.FinalizeAsPrinted | apps/backend/src/print-jobs/print-jobs.service.ts:287-315 | a PRINTED report books the outcome once, for the holder, on the attempt's printer; a repeated report is answered from the row, any other is a conflict |
| PrintJobs.PrintJobsService.FinalizeAsUnresolved | apps/backend/src/print-jobs/print-jobs.service.ts:376-422 | an UNCLEAR report ends the lease without blaming a printer; repetition and conflict as above |
| PrintJobs.PrintJobsService.ReadNotPrinted | apps/backend/src/print-jobs/print-jobs.service.ts:429-463 | what a NOT_PRINTED report reads before its transaction: the attempt's printer and an eligible, active fallback |
| PrintJobs.PrintJobsService.WriteNotPrinted | apps/backend/src/print-jobs/print-jobs.service.ts:465-606 | the later write fails over or fails the job, each fenced by the lease and the failover by failoverCount 0, whatever happened in between |
| PrintJobs.PrintJobsService.RecordPrinterOutcome | apps/backend/src/print-jobs/print-jobs.service.ts:351-368 | success and failure times go to the one printer named |
| PrintJobs.PrintJobsService.ResolveJob | apps/backend/src/print-jobs/print-jobs.service.ts:692-791 | exactly an unresolved job takes a decision, and only from a signed-in person, for discarding an administrator with a reason, and with a known and active target for a reprint only; REPRINTED sends it back to the queue, the others close it |
| PrintJobs.PrintJobsService.RetryFailedPrintJobs | apps/backend/src/diagnostics/diagnostics.service.ts:263-274 | every failed job, and nothing else, goes back to the queue |
| PrintJobs.PrintJobsService.SweepExpiredLeases | apps/backend/src/print-jobs/print-jobs.reaper.ts:33-52 | one run of the reaper treats every expired lease by its phase alone, and does nothing while LOCKED |
| PrintJobs.PrintJobsService.RequeueClaimedExpired | apps/backend/src/print-jobs/print-jobs.reaper.ts:55-103 | expired CLAIMED rows return to the queue without a lease, all others stay |
| PrintJobs.PrintJobsService.UnresolveActiveExpired | apps/backend/src/print-jobs/print-jobs.reaper.ts:118-176 | expired DELIVERING and SPOOLED rows become unresolved, all others stay |
| PrintProtocol.PaperIsAccountedFor | apps/backend/src/print-jobs/print-jobs.service.ts:140-485 | in every run, the leases of a job that put paper out number at most one more than its REPRINTED decisions, deleted jobs included |
| PrintProtocol.NextKeepsInv | apps/backend/src/print-jobs/print-jobs.service.ts:181-791 | every event of backend, workers, reaper and people keeps the budget of suspects per job, the fencing and the readings |
| PrintProtocol.LeavingKeepsRows | apps/backend/src/print-jobs/print-jobs.service.ts:287-606 | a row that leaves its holder uses up at most the one lease that held it |
| PrintProtocol.WriteKeepsRows | apps/backend/src/print-jobs/print-jobs.service.ts:499-606 | a job may be printed again after NOT_PRINTED because that lease is no longer a suspect |
| PrintProtocol.LostStaysLost | apps/backend/src/print-jobs/print-jobs.service.ts:140-174 | no event hands a job back to a lease that was known before, nor moves a held job to another printer |
| PrintProtocol.WriteAdds | apps/backend/src/print-jobs/print-jobs.service.ts:429-485 | the printer read outside the transaction is the one handed out with the claim whenever the fenced write succeeds |
| PrintProtocol.OutcomesAreBookedOnce | apps/backend/src/print-jobs/print-jobs.service.ts:429-643 | in every run each lease causes at most one outcome, blame and credit go to the printer handed out at claim, a job fails over at most once, failoverCount is 0 or 1 |
| PrintProtocol.PrinterChanges | apps/backend/src/print-jobs/print-jobs.service.ts:499-556 | a job changes printer only by its single failover or by an administrator's reprint |
| PrintLaws.QueueIsFair | apps/backend/src/print-jobs/print-jobs.service.ts:140-174 | claiming the oldest each time, a waiting job is claimed after at most as many claims as there are jobs no younger than it |
| PrintLaws.ClaimingHandsOut | apps/backend/src/print-jobs/print-jobs.service.ts:140-174 | a claim hands out the job's printer, counts one attempt and gives 60 s |
| PrintLaws.LeaseLastsAMinute | apps/backend/src/print-jobs/print-jobs.service.ts:181-247 | from the last heartbeat of a claimed job, delivery can be confirmed for less than 60 s and no longer |
| PrintLaws.OthersAreFenced | apps/backend/src/print-jobs/print-jobs.service.ts:181-643 | whoever does not hold the job confirms, beats and books nothing |
| PrintLaws.PrintedIsBooked | apps/backend/src/print-jobs/print-jobs.service.ts:287-315 | a holder's PRINTED leaves the job printed and books the success on the printer that was handed out at the claim |
| PrintLaws.NotPrintedIsDecided | apps/backend/src/print-jobs/print-jobs.service.ts:429-606 | a holder's NOT_PRINTED with nothing in between leaves the job waiting on the substitute exactly when it has not moved before, its printer is no console with an existing, active substitute, and the code is absent or none of the three configuration codes; otherwise it has failed where it was; the failure is booked on the printer handed out at the claim |
| PrintLaws.ReportsAreIdempotent | apps/backend/src/print-jobs/print-jobs.service.ts:287-606 | a report repeated by its lease changes nothing and is answered with the row, everyone else's is a conflict; after a failover so is its own |
| PrintLaws.ExpiredClaimsReturn | apps/backend/src/print-jobs/print-jobs.reaper.ts:55-103 | a claim is requeued once 60 s have passed since its last heartbeat, not at them, and its lease is worth nothing any more |
| PrintLaws.ExpiredDeliveriesAreUnclear | apps/backend/src/print-jobs/print-jobs.reaper.ts:118-176 | a delivery that ran out is left to people |
| PrintLaws.DecisionsDiffer | apps/backend/src/print-jobs/print-jobs.service.ts:692-791 | confirming, discarding and reprinting an unclear job end in three different places; only a reprint moves it, to the named printer if there is one, and counts an attempt |
| PrintLaws.DecisionsArePermitted | apps/backend/src/print-jobs/print-jobs.service.ts:692-740 | nobody decides without signing in, discarding takes an administrator and a reason, a printer is named for a reprint only and must be active |
| PrintWorker.ReportOutcomePersistent | apps/print-worker/src/index.ts:194-226 | the reports that go out are one per attempt until an answer or a lost lease, with pauses that double up to the limit |
| PrintWorker.BackoffIsExponential | apps/print-worker/src/index.ts:62-63 | the pause after the k-th failure is one second times 2 to the k, at most 30 s |
| PrintWorker.ProcessJob | apps/print-worker/src/index.ts:235-369 | everything one call does, for every configuration, confirmation, preparation, delivery and answer |
| PrintWorker.WorkerIsCareful | apps/print-worker/src/index.ts:268-349 | delivery follows an acknowledged confirmation and happens once, all reports of a call agree, nothing follows an answer, without a delivery only NOT_PRINTED is reported, and that before the confirmation |
| PrintWorker.WorkerReportsBack | apps/print-worker/src/index.ts:194-369 | whatever becomes of a confirmed job is reported as what it was, once in every turn until the backend has answered; only a lost lease and a document that cannot be prepared end a call in silence |
| PrintWorker.WorkerFollowsProtocol | apps/print-worker/src/index.ts:235-369 | a call is a run of the protocol: interleaved with anything others do, each of its steps is taken, and the attempt ends with the paper and the verdict that the call says |
| PrinterFallbacks.UpdatePrinter | apps/backend/src/print-jobs/print-jobs.service.ts:883-934 | a fallback is set exactly when the target exists, is active, has none itself and the printer is nobody's fallback |
| PrinterFallbacks.AssignKeepsNoChains | apps/backend/src/print-jobs/print-jobs.service.ts:977-1018 | a write keeps chains away exactly if what the check looked at still holds |
| PrinterFallbacks.AllowedExactly | apps/backend/src/print-jobs/print-jobs.service.ts:977-1018 | the check allows a fallback exactly if it is active and makes no chain, for an existing and for a new printer |
| PrinterFallbacks.RunsHaveNoChains | apps/backend/src/print-jobs/print-jobs.service.ts:836-934 | in every run of whole updates no fallback has a fallback |
| PrinterFallbacks.InterleavedUpdatesCanChain | apps/backend/src/print-jobs/print-jobs.service.ts:883-930 | two updates checked before either is written can build a chain |
| Maintenance.MaintenanceService.Start | apps/backend/src/maintenance/maintenance.service.ts:61-90 | draining begins exactly from OPEN, now |
| Maintenance.MaintenanceService.End | apps/backend/src/maintenance/maintenance.service.ts:93-119 | maintenance ends exactly when it is on and no swap is persisted |
| Maintenance.MaintenanceService.CountBlocking | apps/backend/src/maintenance/maintenance.service.ts:130-146 | the check decides only while draining after the wait, and finds nothing exactly when no job is delivering or spooled |
| Maintenance.MaintenanceService.LockIfStillDraining | apps/backend/src/maintenance/maintenance.service.ts:148-154 | only DRAINING becomes LOCKED |
| Maintenance.DrainingIsBounded | apps/backend/src/maintenance/maintenance.service.ts:129-162 | in every run draining is over after the longer of the wait and lease plus reaper interval plus request delay, plus one check interval |
| Maintenance.DrainingTakesAtMost77Seconds | apps/backend/src/maintenance/maintenance.service.ts:61-162 | with the default wait and immediate requests that is 77 s |
| Maintenance.DrainingCanFinish | apps/backend/src/maintenance/maintenance.service.ts:129-162 | from every draining state routine events alone reach LOCKED: the bound is not vacuous |
| Maintenance.PhasesNarrow | apps/backend/src/maintenance/maintenance.guard.ts:53-76 | OPEN admits everything, DRAINING the reads that are not blocked, LOCKED only what is public |
| Maintenance.LockedMeansQuiet | apps/backend/src/maintenance/maintenance.guard.ts:53-76 | LOCKED means no job delivering or spooled and no write under way, and a persisted swap sees no other phase |
| Maintenance.SwapHoldsSite | apps/backend/src/maintenance/maintenance.service.ts:93-119 | a swap begins under the lock only, and from then on only its acceptance opens the site |
| Maintenance.LockedRowsRest | apps/backend/src/print-jobs/print-jobs.reaper.ts:33-40 | while LOCKED no event changes a job |
| Maintenance.WaitMustOutlastRequests | apps/backend/src/maintenance/maintenance.service.ts:20-40 | LOCKED protects the queue in every calm run exactly when the wait is longer than the slowest request |
| Maintenance.RestartDuringCheckIsUnsafe | apps/backend/src/maintenance/maintenance.service.ts:130-154 | ending and restarting between count and write locks a busy queue |
| RestoreSwap.CreatedStatesAreValid | apps/backend/src/backup/restore-swap.ts:71-98 | a swap state is created exactly for a safe live name and a well-formed id, with three different names |
| RestoreSwap.NamesAreDistinct | apps/backend/src/backup/restore-swap.ts:85-97 | the live, staged and fallback names never collide |
| RestoreSwap.SideNamesBelongToOneSwap | apps/backend/src/backup/restore-swap.ts:85-97 | two swaps share no side database |
| NameLaws.SafeNamesAreWords | apps/backend/src/backup/restore-swap.ts:450-457 | a live name is the system's with further words of lower-case letters and digits, at most 63 characters, and does not begin as side names do |
| NameLaws.MarkerMeansTest | apps/backend/src/backup/restore-swap.ts:85-93 | side names say that they belong to a test system exactly if "test" is a word of the live name |
| RestoreSwap.RestoreSwapCoordinator.BeginSwap | apps/backend/src/backup/restore-swap.ts:240-253 | a swap begins from REQUESTED when none is persisted, for every cut |
| RestoreSwap.RestoreSwapCoordinator.ResumeSwap | apps/backend/src/backup/restore-swap.ts:255-265 | resuming goes forward or back by the persisted phase |
| RestoreSwap.RestoreSwapCoordinator.RollbackSwap | apps/backend/src/backup/restore-swap.ts:280-296 | a rollback is refused before the exchange is complete |
| RestoreSwap.RestoreSwapCoordinator.MarkCompleted | apps/backend/src/backup/restore-swap.ts:267-278 | only SWAPPED becomes COMPLETED |
| RestoreSwap.RestoreSwapCoordinator.MarkRollbackCompleted | apps/backend/src/backup/restore-swap.ts:298-312 | only ROLLED_BACK becomes ROLLBACK_COMPLETED |
| RestoreSwap.RestoreSwapCoordinator.ResumeForward | apps/backend/src/backup/restore-swap.ts:314-372 | the forward loop, effect by effect, for every number of effects it lives to perform |
| RestoreSwap.RestoreSwapCoordinator.ResumeRollback | apps/backend/src/backup/restore-swap.ts:374-435 | the rollback loop likewise |
| RestoreSafety.ForwardFrom | apps/backend/src/backup/restore-swap.ts:314-372 | from every forward phase and layout the loop ends exchanged after an exact number of effects, and a shorter life leaves a safe disk |
| RestoreSafety.BackwardFrom | apps/backend/src/backup/restore-swap.ts:374-435 | the same for the rollback, half-done ones included |
| RestoreSafety.NothingIsLost | apps/backend/src/backup/restore-swap.ts:240-435 | after any operations cut off anywhere, old contents are under exactly one of live and fallback, restored ones under exactly one of live and staged, all else untouched |
| RestoreSafety.ForwardSwapConverges | apps/backend/src/backup/restore-swap.ts:255-372 | after any number of crashes in a forward swap one resume that lives for four effects ends as the run without a crash |
| RestoreSafety.CrashLeavesNoTrace | apps/backend/src/backup/restore-swap.ts:314-372 | resuming after a cut ends exactly where the uncut operation would have |
| RestoreSafety.ResumeFailsExactlyHalfRolledBack | apps/backend/src/backup/restore-swap.ts:326-329 | resume reports an inconsistent layout exactly on a half-done rollback whose phase was not written, and changes nothing |
| RestoreSafety.RollbackConverges | apps/backend/src/backup/restore-swap.ts:280-435 | calling rollback again converges from every state in which it is allowed, with the old contents live |
| RestoreSafety.InterruptedRollbackNeedsRollback | apps/backend/src/backup/restore-swap.ts:326-329 | a rollback cut after its first rename: resume fails, rollback recovers |
| NativeRestore.NativeRestoreService.OnModuleInit | apps/backend/src/backup/native-restore.service.ts:79-104 | what a starting backend does with each persisted phase |
| NativeRestore.NativeRestoreService.ExecuteRestore | apps/backend/src/backup/native-restore.service.ts:111-247 | preparing, swapping, auditing, and the error path that drops the staged copy only when nothing was persisted, either of whose steps may fail |
| NativeRestore.NativeRestoreService.PrepareRestore | apps/backend/src/backup/native-restore.service.ts:170-206 | the staged copy is created, filled, checked, and the start audited, in that order |
| NativeRestore.NativeRestoreService.RollbackRestore | apps/backend/src/backup/native-restore.service.ts:249-273 | taking back is offered in COMPLETED and the phases that begin with ROLLBACK |
| NativeRestore.NativeRestoreService.AcceptRestore | apps/backend/src/backup/native-restore.service.ts:275-302 | accepting audits in live first, then drops the other copy, then forgets the swap |
| NativeRestore.NativeRestoreService.FinalizeForwardSwap | apps/backend/src/backup/native-restore.service.ts:458-472 | completion is audited before it is marked |
| NativeRestore.NativeRestoreService.FinalizeRollbackSwap | apps/backend/src/backup/native-restore.service.ts:474-490 | the rollback is audited before it is marked |
| NativeRestore.NativeRestoreService.WriteAuditRowOnce | apps/backend/src/backup/native-restore.service.ts:492-512 | an entry that is there is not written again |
| NativeSafety.AcceptedContentsSurvive | apps/backend/src/backup/native-restore.service.ts:111-302 | in every run, cut off anywhere, the contents people last decided to keep are under live or fallback, and under live when no swap is pending |
| NativeSafety.AuditedOnce | apps/backend/src/backup/native-restore.service.ts:458-512 | no database of a swap has its completion or rollback audited twice, and the final phases mean the entry is in live |
| NativeSafety.AcceptKeepsLive | apps/backend/src/backup/native-restore.service.ts:275-302 | accepting never touches live's contents, drops exactly the other copy, and does nothing at all when live is missing |
| NativeSafety.RestartConverges | apps/backend/src/backup/native-restore.service.ts:79-104 | in every reachable state a restart that lives for six effects never reports an inconsistent layout and leaves the swap completed or taken back, with the live database there exactly unless a taking back died before it wrote its phase |
| NativeSafety.RollbackSucceedsExactly | apps/backend/src/backup/native-restore.service.ts:249-273 | in every reachable state taking back succeeds exactly in COMPLETED and the phases named ROLLBACK while the other copy exists, ends with the kept contents live, and otherwise changes nothing |
| NativeSafety.CutTakeBackNeedsAsking | apps/backend/src/backup/native-restore.service.ts:79-104 | from every completed restore, a taking back that dies after one rename leaves no live database after any restart, and asking again recovers it |
| RestoreLaws.FailedCopiesStayOut | apps/backend/src/backup/native-restore.service.ts:170-247 | for every cut and ending, a restore whose staged copy failed its checks is not answered as done, persists no swap and changes nothing but the staged name and one audit row |
| RestoreLaws.LiveContentsWereChecked | apps/backend/src/backup/native-restore.service.ts:79-302 | in every run, cut off anywhere, what lies under the live name was there at the start or comes from a dump whose staged copy passed its checks |
| RestoreLaws.CheckedCopiesGoLive | apps/backend/src/backup/native-restore.service.ts:111-247 | a checked copy that gets ten effects is live, the old contents are the fallback, both with their audit rows, and nothing else has changed |
| RestoreLaws.TakingBackUndoes | apps/backend/src/backup/native-restore.service.ts:249-273 | taking it back leaves the server as it was but for two audit rows and the dump set aside |
| RestoreLaws.AcceptingDecides | apps/backend/src/backup/native-restore.service.ts:275-302 | accepting after either leaves the decided contents alone: no database but live differs from the start |
| Inventory.InventoryService.ReserveSale | apps/backend/src/inventory/inventory.service.ts:156-263 | a sale is reserved exactly when no product is closed or blocked and every tracked stock covers the sum of its lines; then each stock falls by that sum, otherwise nothing changes |
| Inventory.InventoryService.TakeAll | apps/backend/src/inventory/inventory.service.ts:192-262 | the loop over the products takes all or nothing and returns the quantities before and after |
| Inventory.InventoryService.RecordSales | apps/backend/src/inventory/inventory.service.ts:266-328 | one SALE row per tracked item in id order, each continuing where the product's last one ended |
| Inventory.InventoryService.SellOrder | apps/backend/src/orders/orders.service.ts:1021-1121 | reserving and recording together are one fold over the items, all or nothing |
| Inventory.TwoPhasesAreOne | apps/backend/src/inventory/inventory.service.ts:156-328 | the chain of recorded rows lands on the reserved quantities |
| Inventory.InventoryService.CancelItems | apps/backend/src/inventory/inventory.service.ts:335-464 | every open sale of the items is reversed once, in product, item and id order; a row the tables refuse rolls all back |
| InventoryLaws.SellingTakesAll | apps/backend/src/inventory/inventory.service.ts:156-328 | a sale goes through exactly if no product is closed or blocked and each tracked stock holds what all its lines ask for; it takes just that off each stock and writes one row per item on a tracked stock and no other |
| InventoryLaws.CancellingReturnsAll | apps/backend/src/inventory/inventory.service.ts:370-464 | after a cancellation every sale of the items on a tracked stock is taken back; each stock has risen by exactly what was open; other stocks, earlier rows and other sales are as they were |
| InventoryLaws.CancellingNeedsRoom | apps/backend/src/inventory/inventory.service.ts:370-464 | it is refused exactly if a stock could not hold what comes back |
| Inventory.InventoryService.InitializeStock | apps/backend/src/inventory/inventory.service.ts:531-598 | a stock is opened once, with its movement, for a product of the event and in the mode it runs in; a known key changes nothing, and is a conflict with another fingerprint |
| Inventory.InventoryService.CorrectStock | apps/backend/src/inventory/inventory.service.ts:531-632 | a correction sets the counted quantity and records the difference; a zero difference is refused by the table; mode, product and known keys as above |
| InventoryLaws.OpeningStocks | apps/backend/src/inventory/inventory.service.ts:531-598 | under a new key a stock is opened exactly once, in the running mode and for the event's product, with a quantity that fits; its first row brings it there from nothing |
| InventoryLaws.CountingSetsStock | apps/backend/src/inventory/inventory.service.ts:531-632 | under a new key a count is taken exactly for a tracked stock and another quantity that fits; its row says by how much |
| Inventory.InventoryService.ResetTestInventory | apps/backend/src/events/events.service.ts:421-537 | TEST sales, cancellations and corrections go, and the stocks they touched become what the remaining rows explain |
| InventoryBooks.NextKeepsBooks | apps/backend/src/inventory/inventory.service.ts:156-632 | every operation keeps the chains, the reversal links and the uniqueness of rows |
| InventoryBooks.RepetitionsChangeNothing | apps/backend/src/inventory/inventory.service.ts:118-132 | whatever was booked since, a request that was carried out changes nothing when repeated in the same mode, and any other request under its key is refused |
| InventoryBooks.StockIsConserved | apps/backend/src/inventory/inventory.service.ts:164-448 | in every run a stock is never negative and equals opening plus corrections minus unreversed sales, and each sale is reversed at most once |
| InventoryBooks.ResetAccount | apps/backend/src/events/events.service.ts:442-512 | after a reset a TEST stock is back at its opening quantity, every other stock untouched |
| InventoryBooks.ChainBalances | apps/backend/src/inventory/inventory.service.ts:296-440 | a chain ends at opening plus corrections minus open sales |
| LedgerCheck.ValidateLedger | apps/backend/src/backup/backup-document.ts:623-789 | the checker accepts exactly the documents of the independent definition |
| LedgerCheck.ValidateStocks | apps/backend/src/backup/backup-document.ts:625-652 | stock rows are accepted exactly with sound fields and distinct keys |
| LedgerCheck.ValidateIds | apps/backend/src/backup/backup-document.ts:654-669 | ids and idempotency keys are distinct |
| LedgerCheck.ValidateMovements | apps/backend/src/backup/backup-document.ts:671-759 | fields and reversal targets of every movement, and no sale reversed twice |
| LedgerCheck.CheckMovement | apps/backend/src/backup/backup-document.ts:673-755 | one movement is accepted exactly with a tracked stock, consistent numbers and a matching sale to reverse |
| LedgerCheck.Replay | apps/backend/src/backup/backup-document.ts:761-789 | the running quantity over one stock accepts exactly an opened, unbroken chain that ends at the stock |
| LedgerCheck.GroupByStock | apps/backend/src/backup/backup-document.ts:756-758 | every stock gets exactly its rows, in document order |
| LedgerCheck.ReplayOrderIsWritingOrder | apps/backend/src/backup/backup-document.ts:761-764 | rows that were written in ascending time and id are sorted back into that order however they are listed |
| LedgerCheck.ReachableLedgersAreAccepted | apps/backend/src/backup/backup-document.ts:623-789 | a backup of any reachable ledger whose rows sort as they were written, listed in any order, is accepted exactly when every stock is tracked |
| LedgerCheck.TiesAreAcceptedExactly | apps/backend/src/backup/backup-document.ts:761-789 | where rows that sort out of order start from different quantities, a reachable ledger is accepted exactly when every stock is tracked and the rows of each stock ascend by time and id in writing order |
| LedgerCheck.OneWayTicksStartApart | apps/backend/src/inventory/inventory.service.ts:296-328 | that is so wherever times never fall and a clock tick holds the rows of one sale, or of one cancellation |
| LedgerLaws.AcceptedExactlySound | apps/backend/src/backup/backup-document.ts:623-789 | a document whose numbers fit their columns is accepted exactly if nothing in it is named twice, every row belongs to a tracked stock and the rows of each stock form an account such as the operations keep |
| LedgerLaws.AcceptedLedgersBalance | apps/backend/src/backup/backup-document.ts:761-789 | in every accepted document a stock is its opening plus corrections minus the sales not taken back |
| InventoryReports.GetInventoryReport | apps/backend/src/reports/reports.service.ts:95-171 | a line for every tracked product and no other, adding its rows up by kind |
| InventoryReports.DifferenceIsCorrected | apps/backend/src/reports/reports.service.ts:145-163 | in every run the reported difference is exactly the sum of manual corrections |
| InventoryReports.QuantitiesMatch | apps/backend/src/backup/native-backup.service.ts:1105-1122 | the sum check compares stock and movement totals of a mode |
| InventoryReports.SumCheckNeverFails | apps/backend/src/backup/native-backup.service.ts:1105-1122 | in every run the totals agree, so the check never stops a backup |
| Payments.OrderService.AddPaymentsToOrder | apps/backend/src/orders/orders.service.ts:2162-2245 | payments are added exactly when valid, the order is unpaid and the total is not exceeded |
| Payments.OrderService.SplitPaymentOrder | apps/backend/src/orders/orders.service.ts:2247-2410 | a split goes through exactly when the open quantities cover it and the money is exact; then the units are marked and PAID means every unit is |
| PaymentLaws.CreationBills | apps/backend/src/orders/orders.service.ts:1504-1700 | an order costs its items less the refund and is PAID, with every unit, exactly when the money covers that |
| PaymentLaws.OwedIsTaken | apps/backend/src/orders/orders.service.ts:2162-2245 | an order that is not PAID takes sound payments up to what it owes and none beyond; paying all of it, and only that, makes it PAID |
| PaymentLaws.InstalmentsSettle | apps/backend/src/orders/orders.service.ts:2162-2245 | in whatever instalments a debt is paid, each is taken, and the order is PAID with payments equal to the total exactly when the last is in |
| PaymentLaws.SelectionIsPaid | apps/backend/src/orders/orders.service.ts:2247-2410 | a split is taken exactly when open units are selected and paid for to the cent, line by line; it marks those units, and the order is PAID once none is open |
| PaymentLaws.CancellingItemLowersTotal | apps/backend/src/orders/orders.service.ts:2497-2581 | cancelling an item takes its price off the total, down to nothing, once |
| PaymentLaws.CancellingOrderKeepsMoney | apps/backend/src/orders/orders.service.ts:2412-2495 | cancelling an order works once, takes every item with it and leaves the money alone |
| Payments.SplitPaymentsMatchUnits | apps/backend/src/orders/orders.service.ts:2290-2372 | with split payments alone, payments are worth exactly the paid units and at most the gross |
| Payments.PaidMeansSettledExactly | apps/backend/src/orders/orders.service.ts:2291-2372 | PAID means payments equal the total in every run exactly without refund and free items, or when nothing was owed |
| Payments.SplitsThenAddsNeverOverpay | apps/backend/src/orders/orders.service.ts:2162-2410 | without a refund, splits followed by general payments never exceed the total |
| Payments.SplitsOverpayExactly | apps/backend/src/orders/orders.service.ts:2295-2372 | after any payments of either kind, splits can never overpay exactly if payments plus refund are within the worth of the paid units, or, once PAID, if the order was not overpaid yet |
| Payments.EveryAddOpensOverpaying | apps/backend/src/orders/orders.service.ts:2162-2333 | every general payment that leaves a split order unpaid is followed by splits that take more than the total |
| Payments.ExpectedCash | apps/backend/src/sessions/sessions.service.ts:143-171 | expected cash is opening balance plus completed cash minus payouts and minus cash that was given back |
| PaymentLaws.DrawerIsCounted | apps/backend/src/sessions/sessions.service.ts:143-171 | the drawer is cash taken less cash given back less payouts; cards and vouchers do not touch it |
| PaymentLaws.QuickSaleBooksDifference | apps/backend/src/orders/orders.service.ts:973-1100 | a quick sale books goods minus refund, as one payment or as a payout in cash |
| Payments.DrawerMovesByTurnover | apps/backend/src/orders/orders.service.ts:973-1100 | every successful cash quick sale moves the drawer by gross minus deposit refund, whichever is larger |
| PaymentStatus.StatusesAreConsistent | apps/backend/src/backup/backup-document.ts:590-615 | the checker accepts exactly the orders whose status is the one their completed payments ask for |
| PaymentStatus.ListedOrderFits | apps/backend/src/backup/backup-document.ts:590-615 | however its payments are listed among those of others, an order is accepted exactly if its status is the one they ask for |
| PaymentStatus.StepFitsExactly | apps/backend/src/orders/orders.service.ts:2412-2581 | from a consistent order, a payment, redemption or whole cancellation always leads to a consistent one; a split or a cancelled item exactly unless what is then paid and what is marked disagree |
| PaymentStatus.StatusFitsExactly | apps/backend/src/backup/backup-document.ts:603-615 | in every run of all operations the status is consistent after each of them exactly if none of these breaks it |
| PaymentStatus.OnlyPaidOrdersAlwaysFit | apps/backend/src/orders/orders.service.ts:2556-2577 | a new order stays consistent in every run exactly if it is created paid |
| Vouchers.ValueVouchersService.IssueVoucher | apps/backend/src/value-vouchers/value-vouchers.service.ts:36-130 | a voucher is issued once for a positive amount with sufficient tender, with its first movement; a known key changes nothing, and is a conflict with another fingerprint |
| Vouchers.ValueVouchersService.RedeemVoucher | apps/backend/src/value-vouchers/value-vouchers.service.ts:174-373 | a redemption changes voucher, movement, payments and allocations together, or nothing |
| Vouchers.ValueVouchersService.CancelVoucher | apps/backend/src/value-vouchers/value-vouchers.service.ts:416-515 | exactly an unused voucher is cancelled, with its full balance |
| Vouchers.ValueVouchersService.CreateAllocations | apps/backend/src/value-vouchers/value-vouchers.service.ts:517-544 | one allocation per share; success means nothing remains |
| Vouchers.ValueVouchersService.Spread | apps/backend/src/value-vouchers/value-vouchers.service.ts:528-543 | the shares and the remainder of spreading an amount over the items |
| VoucherLaws.RedeemedExactly | apps/backend/src/value-vouchers/value-vouchers.service.ts:193-260 | a redemption goes through exactly if voucher and order belong together, both are live, something is owed that the items are worth, and the rest is paid along in covering cash or by card |
| VoucherLaws.RedeemingPays | apps/backend/src/value-vouchers/value-vouchers.service.ts:261-344 | the voucher pays its part, the rest is booked under the method it is paid with, the order is PAID and owes nothing, no other voucher and order changes |
| VoucherLaws.RedeemingIsRecorded | apps/backend/src/value-vouchers/value-vouchers.service.ts:261-344 | the movement names the order and the payment, and each item gets its share, first come, first served |
| VoucherLaws.SharesAreParts | apps/backend/src/value-vouchers/value-vouchers.service.ts:517-544 | an item's share is what is left when it comes to it, up to its cost |
| VoucherLaws.IssuingSells | apps/backend/src/value-vouchers/value-vouchers.service.ts:36-130 | a voucher is sold for at least a cent, in cash with exact change or by card, and is worth what it was sold for |
| VoucherLaws.CancellingTakesBalance | apps/backend/src/value-vouchers/value-vouchers.service.ts:416-515 | a voucher is cancelled, with a reason, exactly if it was never used, and loses all of its balance |
| VoucherBooks.SharesCover | apps/backend/src/value-vouchers/value-vouchers.service.ts:517-544 | shares are positive, within their items, one per item and add up; nothing remains exactly when the items cost enough |
| VoucherBooks.OrdersStayCovered | apps/backend/src/orders/orders.service.ts:2412-2577 | no payment, split, redemption, item or order cancellation makes an order cost more than its items |
| VoucherBooks.CreatedIsCovered | apps/backend/src/orders/orders.service.ts:1634-1700 | a new order costs at most its items |
| VoucherBooks.RedemptionSettlesOrder | apps/backend/src/value-vouchers/value-vouchers.service.ts:193-344 | in every reachable state a permitted redemption goes through, its shares sum to the amount, and the order ends PAID with payments equal to its total |
| VoucherBooks.NextKeepsBooks | apps/backend/src/value-vouchers/value-vouchers.service.ts:36-544 | every operation keeps balances, chains, allocations and order coverage |
| VoucherBooks.RepetitionsChangeNothing | apps/backend/src/value-vouchers/value-vouchers.service.ts:667-686 | a request that was carried out changes nothing when repeated, and any other request under its key is refused |
| VoucherBooks.CancelledVouchersWereUnused | apps/backend/src/value-vouchers/value-vouchers.service.ts:446-489 | in every run a cancelled voucher was issued and cancelled in full, never redeemed |
| VoucherBooks.Replay | apps/backend/src/backup/backup-document.ts:939-973 | the running balance accepts exactly an issued, unbroken chain with the right status at its end |
| VoucherBooks.AllocationsAddUp | apps/backend/src/backup/backup-document.ts:975-1004 | allocations per movement equal exactly what was redeemed |
| VoucherLaws.AcceptedVouchersBalance | apps/backend/src/backup/backup-document.ts:939-1004 | in every accepted document a voucher was worth what is left, what was redeemed and what was cancelled, and what each movement redeemed went to items |
| VoucherBooks.ReachableBanksAreAccepted | apps/backend/src/backup/backup-document.ts:791-1004 | a backup of any reachable voucher ledger is accepted exactly when the rows of each voucher ascend by time and id in writing order |
| VoucherBooks.SumCheckNeverFails | apps/backend/src/backup/native-backup.service.ts:1096-1118 | in every run voucher balances and movements add up to the same in either mode |
| Pricing.ResolveOrderItemPricing | apps/backend/src/orders/orders.service.ts:519-634 | duplicates, unknown or inactive options and wrong counts are refused; otherwise price, variant and extras of the selection |
| Pricing.WalkGroups | apps/backend/src/orders/orders.service.ts:598-621 | the last price-setting group gives the variant, all other answers are extras |
| PricingLaws.AnswersArePriced | apps/backend/src/orders/orders.service.ts:519-634 | an item is priced exactly if its answers are known, active, not repeated and as many per group as allowed, and the price is not negative: the effect of the answer that first answered the last such group to be met among those that set the price, or the product's price, plus the effects of all answers in other groups |
| PricingLaws.OneAnswerDecides | apps/backend/src/orders/orders.service.ts:598-633 | with at most one answer that sets the price, the price is that answer's effect, or else the product's price, plus all other effects |
| PricingLaws.OptionsAreFound | apps/backend/src/orders/orders.service.ts:523-537 | an id means the option that bears it, with its group, effect and state |
| Pricing.StoredIdsAreChosen | apps/backend/src/orders/orders.service.ts:598-633 | what is stored equals what was chosen exactly when at most one answer sets the price |
| Pricing.PricingIgnoresOrder | apps/backend/src/orders/orders.service.ts:519-634 | the same answers in another order are accepted, cost the same and store the same |
| SavedProducts.SavedProductsLoseNothing | apps/backend/src/products/product-option-groups.ts:179-211 | whatever the order of rows, the stored selection of a product whose groups passed their check, or were saved ever so often, is what was chosen |
| SavedProducts.SavedIsSound | apps/backend/src/products/product-option-groups.ts:55-226 | the rows of a valid payload hold at most one price-setting group, which asks for exactly one answer |
| SavedProducts.ImportedArticlesPriceOnce | apps/backend/src/events/events.service.ts:1615-1771 | the check of an imported document guarantees the same |
| AnswerableProducts.SelectableExactly | apps/backend/src/orders/orders.service.ts:576-596 | a product has an allowed selection exactly if every group has as many active options as it asks for |
| AnswerableProducts.CheckedProductsAreSelectableExactly | apps/backend/src/products/product-option-groups.ts:94-170 | the documented rule that no group asks for more than its active options is checked through the upper bound only: a product whose groups passed can be ordered exactly if every group without an upper bound meets it |
| AnswerableProducts.CheckedProductsCanBeUnsellable | docs/development/produktoptionen-datenmodell.md:153-156 | a payload that passes and leaves a product that nobody can order |
| Replay.SignatureIsFaithful | apps/backend/src/orders/orders.service.ts:684-701 | two comparison values agree exactly for the same product, quantity and set of options |
| SignatureText.TextsAgreeAsSignatures | apps/backend/src/orders/orders.service.ts:684-701 | the joined texts agree exactly when the comparison values do, as no id contains a separator |
| Replay.OwnLinesRecognised | apps/backend/src/orders/orders.service.ts:684-740 | a sale recognises its own lines exactly when no line answers two price-setting groups |
| Replay.ReplayRoundTrip | apps/backend/src/orders/orders.service.ts:658-764 | right after a quick sale a request is answered from it exactly when user, event, station, money and selection agree, with the same tender, change, vouchers and pickup number |
| SavedProducts.SavedCatalogsReplay | apps/backend/src/orders/orders.service.ts:766-1227 | where the option groups of every product passed their check or were saved through it, every quick sale can be repeated safely |
| SavedProducts.TwoPricesAreNotRecognised | packages/database/prisma/migrations/20260821140000_add_product_option_groups/migration.sql:90-99 | a product with two price-setting groups would break it, and no table with its indexes holds one |
| Replay.RearrangedSelectionCostsTheSame | apps/backend/src/orders/orders.service.ts:913-972 | rearranged lines are accepted and cost the same |
| Replay.OwnOrderRecognised | apps/backend/src/orders/orders.service.ts:1417-1500 | a table order recognises its own repetition exactly when no line answers two price-setting groups |
| Replay.OrderReplayRoundTrip | apps/backend/src/orders/orders.service.ts:1417-1500 | right after a table order a request is recognised exactly when user, event and refund agree and items and payments are rearrangements |
| ReplayLaws.SoldExactly | apps/backend/src/orders/orders.service.ts:766-1010 | a quick sale goes through exactly if its lines can be priced within the limits and the money fits: cash that covers, a card for exactly the sum, payouts in cash only, a number exactly at a station |
| ReplayLaws.MoneyIsCounted | apps/backend/src/orders/orders.service.ts:973-1100 | it takes what is owed, gives change to the cent and pays out where the refund exceeds the goods |
| ReplayLaws.OrderIsTaken | apps/backend/src/orders/orders.service.ts:1504-1640 | a table order is taken exactly if it can be priced, its payments are sound and the goods cover the refund |
| EventModes.EventService.ActivateEvent | apps/backend/src/events/events.service.ts:198-255 | an event goes live exactly when confirmed, without open sessions and without TEST data |
| EventModes.EventService.ChangeEventStatus | apps/backend/src/events/events.service.ts:257-358 | a status change is refused exactly for missing confirmation, data of the other mode or open sessions, and keeps the test flag otherwise |
| EventModes.EventService.CleanTestEvent | apps/backend/src/events/events.service.ts:539-630 | cleaning removes the TEST world and its pickup counter, unless a value voucher holds one of its sessions |
| EventModes.EventService.BeginSession | apps/backend/src/sessions/sessions.service.ts:51-118 | a session takes the mode of its running event, one per user |
| EventModes.EventService.EndSession | apps/backend/src/sessions/sessions.service.ts:191-279 | only its own user closes an open session |
| EventModes.EventService.DrawPickupNumber | apps/backend/src/common/pickup-number.ts:78-113 | the next number, or a refusal beyond 99999 that leaves the counter where it was |
| EventModes.EventService.SellAtStation | apps/backend/src/orders/orders.service.ts:1050-1069 | the number is drawn inside the sale; a sale that fails later gives it back |
| EventModes.EventService.RestoreBackup | apps/backend/src/backup/backup.service.ts:441-449 | the counters are rebuilt as the largest number of each mode |
| EventLaws.GoingLive | apps/backend/src/events/events.service.ts:198-255 | the first activation takes confirmation, closed sessions and no TEST data, and deletes nothing |
| EventLaws.ChangingStatus | apps/backend/src/events/events.service.ts:257-358 | running in a mode takes closed sessions and no data of the other one, live also the confirmation; any other status can always be taken up and keeps the flag |
| EventLaws.CleaningEmpties | apps/backend/src/events/events.service.ts:539-630 | in every run, cleaning works in test mode while no value voucher holds a TEST session, and then leaves no order and no session at all |
| EventLaws.OpeningSession | apps/backend/src/sessions/sessions.service.ts:51-118 | in every run, while the event runs, a user without an open session gets one in its mode |
| EventLaws.QuickSelling | apps/backend/src/orders/orders.service.ts:814-1069 | in every run, while the event runs, a quick sale takes exactly an open session of one's own; at a station it gets the number after all of its mode, up to 99999, elsewhere none |
| EventLaws.TakingOrder | apps/backend/src/orders/orders.service.ts:1516-1600 | in every run, while the event runs, an order is taken from anyone in the event's mode |
| EventModes.TestAndLiveNeverMeet | apps/backend/src/events/events.service.ts:198-358 | in every run test and live data never coexist, the mode never fails to resolve, and sessions have their running event's mode |
| EventModes.ModeGuardsNeverFire | apps/backend/src/orders/orders.service.ts:814-857 | no order, sale, session or voucher is ever refused for a session's mode or an inconsistent status while the event runs |
| EventModes.PickupNumbersAreGapFree | apps/backend/src/common/pickup-number.ts:78-113 | in every run the numbers of a mode are exactly 1 to n, each once, n being the counter and at most 99999 |
| EventModes.RestoreContinuesCounting | apps/backend/src/backup/backup.service.ts:441-449 | a restored backup is exactly the state that was backed up, counters included |
| EventModes.TestVoucherBlocksLive | packages/database/prisma/migrations/20260828100000_add_value_vouchers/migration.sql:184-188 | wherever a run has led, the event can go live without a restore exactly when no value voucher was issued in one of its TEST sessions |
| OptionGroups.ValidateOptionGroupsPayload | apps/backend/src/products/product-option-groups.ts:55-226 | a payload passes exactly when every rule holds |
| OptionGroups.ValidateGroup | apps/backend/src/products/product-option-groups.ts:69-205 | the rules of one group |
| OptionGroups.RolesAreUnique | apps/backend/src/products/product-option-groups.ts:179-225 | at most one price-setting and one tile group, and the same one if both exist |
| OptionLaws.PayloadPassesExactly | apps/backend/src/products/product-option-groups.ts:55-226 | the rules in plain terms: at most ten groups of different names, each with active options, bounds within them and exactly one answer where it sets the price or has tiles, and both marks on one group at most |
| OptionGroups.OptionGroupTable.SaveOptionGroups | apps/backend/src/products/product-option-groups.ts:236-391 | no order of a valid payload ever breaks a unique index, and price-setting groups keep asking for one answer; the rows end as the payload's under the known ids, a repeated id with its last entry; with distinct group ids it succeeds exactly when all ids belong to the product |
| OptionLaws.SavedRowsMeetChecks | packages/database/prisma/migrations/20260821140000_add_product_option_groups/migration.sql:103-161 | no row of a payload that passed violates a check constraint of the tables |
| OptionLaws.StoredAsEntered | apps/backend/src/products/product-option-groups.ts:236-391 | what is stored of each group and option is what was entered, names trimmed, options active unless they say otherwise |
| OptionGroups.OptionGroupTable.DeleteAndClear | apps/backend/src/products/product-option-groups.ts:257-291 | unwanted groups go and both marks are taken off the kept ones, options untouched |
| OptionGroups.OptionGroupTable.SaveGroup | apps/backend/src/products/product-option-groups.ts:293-390 | one group's row and options; the index refuses it only if another row carries its mark |
| OptionGroups.OptionGroupTable.SaveOptions | apps/backend/src/products/product-option-groups.ts:323-361 | the options end as the payload's, known ones under their ids, a repeated id with its last entry |
| OptionGroups.OptionGroupTable.WriteRow | packages/database/prisma/migrations/20260821140000_add_product_option_groups/migration.sql:90-99 | a row is refused exactly when another one carries the same mark |
| OptionGroups.FittingKeepsIndexes | packages/database/prisma/migrations/20260821140000_add_product_option_groups/migration.sql:90-99 | that refusal is exactly the violation of an index |
| Retention.BackupDirectory.ProtectedDumps | apps/backend/src/backup/native-backup.service.ts:1322-1358 | the protected files are exactly those with a reason to stay |
| RetentionLaws.RotationFollowsReasons | apps/backend/src/backup/native-backup.service.ts:1322-1375 | a whole rotation keeps both files of a backup that is the newest, manual, the newest verified, among the first hourly ones, the newest of one of the first later days, or among the first of its event kind, and neither file of any other |
| RetentionLaws.EnoughSurvive | apps/backend/src/backup/native-backup.service.ts:1336-1358 | of every kind as many survive as the policy asks for, or all there are |
| Retention.BackupDirectory.RotateBackups | apps/backend/src/backup/native-backup.service.ts:1315-1375 | exactly the unprotected backups are removed, pair by pair, for every cut |
| Retention.BackupDirectory.RemoveNativeBackupPair | apps/backend/src/backup/native-backup.service.ts:1427-1458 | the manifest goes before the dump |
| RetentionLaws.RemovedUpTo | apps/backend/src/backup/native-backup.service.ts:1360-1375 | a rotation that dies has removed the backups before the one it was at, and of that one the manifest at most |
| RetentionLaws.PublishedUpTo | apps/backend/src/backup/native-backup.service.ts:346-386 | a new backup gets its dump first and its manifest second, a failure takes both away in the other order, nothing else is touched |
| Retention.RotatingTwiceChangesNothing | apps/backend/src/backup/native-backup.service.ts:1315-1375 | a second rotation deletes nothing |
| Retention.ReasonsPersist | apps/backend/src/backup/native-backup.service.ts:1322-1358 | every reason to keep a backup stays one when newer backups go |
| Retention.ImportantBackupsSurvive | apps/backend/src/backup/native-backup.service.ts:1322-1334 | the newest, every manual and the newest restore-verified backup survive any policy |
| Retention.RotationSparesImportantFiles | apps/backend/src/backup/native-backup.service.ts:1360-1375 | however rotation is interrupted, both their files stay |
| Retention.WholeRotation | apps/backend/src/backup/native-backup.service.ts:1315-1375 | a rotation that runs to its end leaves exactly the survivors' manifests and takes exactly the others' dumps; the next one changes no file |
| Retention.ScheduledSurvivorsAreFew | apps/backend/src/backup/native-backup.service.ts:1336-1350 | at most hourly plus daily plus two scheduled backups survive |
| Retention.ManifestsHaveDumps | apps/backend/src/backup/native-backup.service.ts:346-386 | after any publishing, failing and rotating, cut off anywhere, a manifest implies its dump |
| ConfigTransfer.ImportService.ImportConfig | apps/backend/src/events/events.service.ts:1118-1251 | refused exactly where an event has that name or the database refuses a row; otherwise rows are created table by table under fresh ids, references resolved through them, with a fallback category only when one is needed |
| ConfigTransfer.ImportService.ImportCategories | apps/backend/src/events/events.service.ts:1173-1187 | categories and the ids of their references |
| ConfigTransfer.ImportService.ImportProducts | apps/backend/src/events/events.service.ts:1210-1250 | products in their categories and stations, with the default availability |
| ConfigTransfer.CheckedDocumentsImport | apps/backend/src/events/events.service.ts:1615-1662 | a checked document has distinct references |
| ConfigLaws.DocumentPassesExactly | apps/backend/src/events/events.service.ts:1273-1771 | the check takes exactly the documents within the stated limits, told character by character and number by number, with references borne by one row at most and led to by others only |
| ConfigLaws.CheckedIsCut | apps/backend/src/events/events.service.ts:1325-1771 | what the check returns is the document with the white space around its texts cut off, references to other rows as they stand |
| ConfigLaws.CheckedDocumentsAreStorableExactly | apps/backend/src/events/events.service.ts:1351-1466 | the check repeats the tables' conditions, but two: what passed is refused by the database exactly if an option sorts before zero or a fallback category would have to sort after 2147483647 |
| ConfigLaws.CheckedDocumentsCanBeRefused | packages/database/prisma/migrations/20260821140000_add_product_option_groups/migration.sql:150-151 | a document that passes and that the database refuses |
| ConfigLaws.FallbackStandsApart | apps/backend/src/common/fallback-category.ts:30-46 | the fallback category sorts right after all others and bears a name of its own exactly unless both of its names are taken |
| ConfigTransfer.ExportIsAcceptedExactly | apps/backend/src/events/events.service.ts:1273-1771 | the check takes the export of an event as it is exactly if the event's own fields meet the limits of the import |
| ConfigTransfer.RoundTripButAvailability | apps/backend/src/events/events.service.ts:1016-1251 | exporting the imported event gives the document back but for availability, references remapped through fresh ids |
| ConfigTransfer.ConfigRoundTrip | apps/backend/src/events/events.service.ts:1221 | the document comes back unchanged exactly when every product was available |
| ConfigTransfer.EventRoundTrip | apps/backend/src/events/events.service.ts:1016-1251 | the imported event is the exported one, up to new ids, exactly when it is an unconfirmed draft, no area has a floor plan and no station a printer, every product is available, there are no deposits, no category is off, and all references are the event's own |
| ConfigTransfer.LostOnTheWay | apps/backend/src/events/events.service.ts:1093-1172 | a printer, a floor plan or the disclaimer version of a new event is lost on the way |

## Left out

- Guard markers: public routes and the one blocked read route only pass or refuse reads and maintenance calls; requests of the model are neither.
- Print jobs: audit rows, CUPS details, test prints and the printer field checks are not modelled; printers change by one event that replaces the table.
- PrintJobs.PrintJobsService.ReadNotPrinted: which error codes forbid a failover is taken from the shared list, their classification by the adapters is not modelled.
- Maintenance.DrainingIsBounded: assumes that the drain check's query takes no time; the reason and the expected end are not modelled.
- Restore: dump validation, free space, migrations of the staged copy and measurements are one yes-or-no answer; corrupt state files and store read errors are not modelled; operations do not run side by side.
- RestoreSwap.CreatedStatesAreValid: the context of a swap state and its timestamps are carried along unread and are not modelled.
- NativeRestore.NativeRestoreService.AcceptRestore: ending the maintenance afterwards is a call of its own (`Maintenance.MaintenanceService.End`) and is not made here.
- Inventory: versions, low-stock thresholds, effective availability, audit rows and broadcasts are not modelled; reasons are taken as valid, and a fingerprint is a number that stands for the rest of a request.
- Inventory.InventoryService.CancelItems: takes the order of the items as given by the caller, as the order transaction does.
- LedgerCheck.ValidateLedger: users, orders, order items and dates of a document are foreign keys that the database enforces, and are not checked here.
- LedgerCheck.ValidateStocks: versions, thresholds and text lengths of a stock row are not modelled.
- LedgerCheck.ValidateIds: lengths and formats of ids and idempotency keys are not modelled.
- LedgerCheck.ValidateMovements: users, orders, order items, reasons, fingerprints and dates of a movement are not modelled.
- LedgerCheck.CheckMovement: as above.
- Vouchers.ValueVouchersService.IssueVoucher: the roles, the user's own open session and the printer are taken as found; that the session's mode is the event's is stated in EventModes.
- Vouchers.ValueVouchersService.RedeemVoucher: as above.
- Vouchers.ValueVouchersService.CancelVoucher: as above.
- VoucherBooks.Replay: has no branch for REDEEM_REVERSAL rows, which no service writes.
- VoucherBooks.AllocationsAddUp: compares the sums only; the references of each allocation are part of the definition of an accepted document and are shown of every reachable ledger.
- VoucherBooks.ReachableBanksAreAccepted: cashier sessions, users and REDEEM_REVERSAL rows, which no service writes, are not modelled; the loops of the checker around replay and allocations repeat those of the stock ledger and are stated as a definition.
- Payments: order numbers, receipts and audit rows are not modelled; ids of order items are their positions.
- Replay.ReplayRoundTrip: speaks of the moment right after a sale; later payments or cancellations of the order change what is stored and are not part of the statement. Printer, session, station and stock checks of a sale are taken as passed.
- EventModes.EventService.CleanTestEvent: the print jobs, payments, order items and product vouchers of the TEST orders go with them and are not modelled; the stock reset is `Inventory.InventoryService.ResetTestInventory`.
- EventModes: one event at a time; a table order's session is passed as found; the JSON restore brings back exactly what was backed up.
- OptionGroups.OptionGroupTable.SaveOptionGroups: of a group that a payload names twice only its own fields are stated, not its options, among which new ones of the earlier entry stay; nor when such a payload fails for an option that an earlier entry deleted.
- PaymentStatus.StatusFitsExactly: speaks of table orders; a quick sale is paid when it is made. The voucher's own checks and the spreading of a redemption are taken as passed, and the status REFUNDED, which nothing writes, is not modelled.
- Retention: hashing, verification and restore verification of dumps are taken as done; a day is a number.
- PrintWorker.ProcessJob: while a configuration error is reported there is no heartbeat to lose; the model lets it be lost all the same.
- ConfigTransfer.ImportService.ImportConfig: of what the database refuses, the check constraints and unique indexes of option groups and options and the column of the fallback category's sort order are modelled; the other columns hold whatever a checked document can contain.
- ConfigTransfer.ExportIsAcceptedExactly: the shape checks on untyped JSON, the size of the whole document, the list of time zones and a product whose station belongs to another event, which is exported without one, are not told apart.
- ConfigTransfer.ConfigRoundTrip: the translation of document versions 1 and 2 (but for the fallback category) is not modelled; reference texts are abstract.
- Idempotent configuration operations, the order number sequence after a JSON restore and the comparison of migrations are not part of this model.
- Fulfilment status, the editing of areas and floor plans, CSV export, login throttling, secrets, user interface and offline queue are not part of this model.
