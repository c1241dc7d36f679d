/**
 * Maintenance mode: admission of requests, draining of the print queue and the step to LOCKED.
 *
 * Time is explicit.  The reaper sweeps and the drain check runs at least once per interval, and a
 * request takes effect at most `delay` after the guard let it in; both are assumptions of the
 * model, expressed by not letting time pass beyond such a deadline.
 */
module Maintenance {
  import opened Common
  import opened PrintJobs

  const DRAIN_MIN_WAIT_MS := 20_000
  const DRAIN_CHECK_INTERVAL_MS := 2_000
  const REAPER_INTERVAL_MS := 15_000

  datatype MaintenancePhase = OPEN | DRAINING | LOCKED

  datatype MaintenanceState = MaintenanceState(phase: MaintenancePhase, since: Option<int>)

  const OpenState := MaintenanceState(OPEN, None)

  // ---- The guard ----

  datatype Verb = GET | HEAD | OPTIONS | POST | PUT | PATCH | DELETE

  function CanActivate(phase: MaintenancePhase, verb: Verb, isPublic: bool, blockedDuringDraining: bool): bool {
    if isPublic || phase == OPEN then true
    else phase == DRAINING && !blockedDuringDraining && verb in {GET, HEAD, OPTIONS}
  }

  /** Each phase admits less than the one before: everything, then reads that are not blocked, then only what is public. */
  lemma PhasesNarrow(verb: Verb, blocked: bool)
    ensures CanActivate(OPEN, verb, false, blocked)
    ensures CanActivate(DRAINING, verb, false, blocked) <==> !blocked && verb !in {POST, PUT, PATCH, DELETE}
    ensures !CanActivate(LOCKED, verb, false, blocked)
    ensures forall phase :: CanActivate(phase, verb, true, blocked)
  {
  }

  // ---- The service ----

  function IsDrainWaitElapsed(state: MaintenanceState, now: int, minWait: nat): bool {
    state.since.None? || now - state.since.value >= minWait
  }

  /** A row the drain check counts: whatever its status, its phase says that paper may be moving. */
  predicate Blocking(j: Job) {
    j.phase in {Some(PrintJobs.DELIVERING), Some(PrintJobs.SPOOLED)}
  }

  ghost predicate Clear(jobs: map<JobId, Job>) {
    forall id :: id in jobs ==> !Blocking(jobs[id])
  }

  class MaintenanceService {
    var state: MaintenanceState
    var restorePersisted: bool

    method Start(now: int) returns (ok: bool)
      modifies this`state
      ensures ok <==> old(state).phase == OPEN
      ensures state == if ok then MaintenanceState(DRAINING, Some(now)) else old(state)
    {
      if state.phase != OPEN { return false; }
      state := MaintenanceState(DRAINING, Some(now));
      return true;
    }

    method End() returns (ok: bool)
      modifies this`state
      ensures ok <==> old(state).phase != OPEN && !restorePersisted
      ensures state == if ok then OpenState else old(state)
    {
      if state.phase == OPEN || restorePersisted { return false; }
      state := OpenState;
      return true;
    }

    /** The reading half of the check: None when there is nothing to decide yet. */
    method CountBlocking(jobs: map<JobId, Job>, now: int, minWait: nat) returns (none: Option<bool>)
      ensures none.Some? <==> state.phase == DRAINING && IsDrainWaitElapsed(state, now, minWait)
      ensures none.Some? ==> (none.value <==> Clear(jobs))
    {
      if state.phase != DRAINING || !IsDrainWaitElapsed(state, now, minWait) { return None; }
      var todo := jobs.Keys;
      var count := 0;
      while todo != {}
        invariant todo <= jobs.Keys
        invariant count == 0 <==> forall id :: id in jobs.Keys - todo ==> !Blocking(jobs[id])
        invariant count >= 0
        decreases todo
      {
        var id :| id in todo;
        if Blocking(jobs[id]) { count := count + 1; }
        todo := todo - {id};
      }
      return Some(count == 0);
    }

    /** The writing half, after the state was read a second time. */
    method LockIfStillDraining()
      modifies this`state
      ensures state == Locked(old(state))
    {
      if state.phase != DRAINING { return; }
      state := state.(phase := LOCKED);
    }
  }

  function Locked(state: MaintenanceState): MaintenanceState {
    if state.phase == DRAINING then state.(phase := LOCKED) else state
  }

  // ---- The whole site ----

  datatype Request =
    | ListRequest
    | CreateRequest(id: JobId, printer: PrinterId)
    | ClaimRequest(id: JobId, lease: LeaseId)
    | PhaseRequest(id: JobId, lease: LeaseId, target: Phase)
    | HeartbeatRequest(id: JobId, lease: LeaseId)
    | PrintedRequest(id: JobId, lease: LeaseId, code: Option<string>)
    | UnclearRequest(id: JobId, lease: LeaseId, code: Option<string>)
    | FailoverRequest(id: JobId, lease: LeaseId, from: PrinterId, to: PrinterId, code: Option<string>)
    | FailedRequest(id: JobId, lease: LeaseId, code: Option<string>)
    | ResolveRequest(id: JobId, resolution: Resolution, reprintOn: Option<PrinterId>)
    | RetryRequest

  function VerbOf(r: Request): Verb {
    match r
    case ListRequest => GET
    case PhaseRequest(_, _, _) => PATCH
    case PrintedRequest(_, _, _) => PATCH
    case UnclearRequest(_, _, _) => PATCH
    case FailoverRequest(_, _, _, _, _) => PATCH
    case FailedRequest(_, _, _) => PATCH
    case _ => POST
  }

  function RowAfter(j: Job, r: Request, now: int): Option<Job> {
    match r
    case ClaimRequest(_, l) => if j.status == PENDING then Some(PrintJobs.Claim(j, l, now)) else None
    case PhaseRequest(_, l, target) => if target == CLAIMED then None else ToPhase(j, l, target, now)
    case HeartbeatRequest(_, l) => Beat(j, l, now)
    case PrintedRequest(_, l, code) => FinishPrinted(j, l, code)
    case UnclearRequest(_, l, code) => FinishUnclear(j, l, code)
    case FailoverRequest(_, l, from, to, code) => Failover(j, l, from, to, code)
    case FailedRequest(_, l, code) => FinishFailed(j, l, code)
    case ResolveRequest(_, resolution, target) => Resolve(j, resolution, target)
    case _ => None
  }

  function Apply(jobs: map<JobId, Job>, r: Request, now: int): map<JobId, Job> {
    match r
    case ListRequest => jobs
    case CreateRequest(id, printer) => if id in jobs then jobs else jobs[id := NewJob(printer, now)]
    case RetryRequest => RetryAll(jobs)
    case _ =>
      if r.id !in jobs || RowAfter(jobs[r.id], r, now).None? then jobs
      else jobs[r.id := RowAfter(jobs[r.id], r, now).value]
  }

  datatype InFlight = InFlight(request: Request, admittedAt: int)

  datatype Site = Site(
    now: int,
    state: MaintenanceState,
    jobs: map<JobId, Job>,
    inFlight: seq<InFlight>,
    restorePersisted: bool,
    probe: Option<bool>,  // the drain check has counted and not yet written
    lastSweep: int,
    lastCheck: int)
  {
    /** When draining began; now, if maintenance is off. */
    function Since(): int { if state.since.Some? then state.since.value else now }
  }

  datatype Config = Config(minWait: nat, delay: nat)

  function Opened(now: int): Site {
    Site(now, OpenState, map[], [], false, None, now, now)
  }

  datatype Event =
    | Tick(ms: nat)
    | Arrive(request: Request)
    | Perform(i: nat)
    | SweepLeases
    | CheckCount
    | CheckWrite
    | Start
    | End
    | BeginSwap
    | AcceptSwap

  predicate MayWait(c: Config, s: Site, ms: nat) {
    && s.probe.None?
    && s.now + ms <= s.lastSweep + REAPER_INTERVAL_MS
    && s.now + ms <= s.lastCheck + DRAIN_CHECK_INTERVAL_MS
    && forall i :: 0 <= i < |s.inFlight| ==> s.now + ms <= s.inFlight[i].admittedAt + c.delay
  }

  function Next(c: Config, s: Site, e: Event): Site {
    match e
    case Tick(ms) => if MayWait(c, s, ms) then s.(now := s.now + ms) else s
    case Arrive(r) =>
      if CanActivate(s.state.phase, VerbOf(r), false, false)
      then s.(inFlight := s.inFlight + [InFlight(r, s.now)]) else s
    case Perform(i) =>
      if i < |s.inFlight|
      then s.(jobs := Apply(s.jobs, s.inFlight[i].request, s.now), inFlight := s.inFlight[..i] + s.inFlight[i + 1..])
      else s
    case SweepLeases =>
      s.(jobs := if s.state.phase == LOCKED then s.jobs else Sweep(s.jobs, s.now), lastSweep := s.now)
    case CheckCount =>
      if s.probe.Some? then s
      else if s.state.phase == DRAINING && IsDrainWaitElapsed(s.state, s.now, c.minWait)
      then s.(probe := Some(NoneBlocking(s.jobs)), lastCheck := s.now)
      else s.(lastCheck := s.now)
    case CheckWrite => s.(state := if s.probe == Some(true) then Locked(s.state) else s.state, probe := None)
    case Start => if s.state.phase == OPEN then s.(state := MaintenanceState(DRAINING, Some(s.now))) else s
    case End => if s.state.phase == OPEN || s.restorePersisted then s else s.(state := OpenState)
    case BeginSwap => if s.state.phase == LOCKED then s.(restorePersisted := true) else s
    case AcceptSwap => if s.restorePersisted then s.(restorePersisted := false, state := OpenState) else s
  }

  predicate NoneBlocking(jobs: map<JobId, Job>) {
    (set id | id in jobs && Blocking(jobs[id])) == {}
  }

  function Run(c: Config, s: Site, events: seq<Event>): Site
    decreases |events|
  {
    if events == [] then s else Run(c, Next(c, s, events[0]), events[1..])
  }

  /** Nobody ends maintenance between the two halves of a drain check. */
  predicate Calm(c: Config, s: Site, events: seq<Event>)
    decreases |events|
  {
    events == [] || ((events[0].End? ==> s.probe.None?) && Calm(c, Next(c, s, events[0]), events[1..]))
  }

  /** While draining, reads come in and nothing else does. */
  lemma DrainingAdmitsReads(c: Config, s: Site, r: Request)
    requires s.state.phase == DRAINING
    ensures Next(c, s, Arrive(r)) == if r.ListRequest? then s.(inFlight := s.inFlight + [InFlight(r, s.now)]) else s
  {
  }

  /** A swap begins under the lock only, and from then on only its acceptance opens the site. */
  lemma SwapHoldsSite(c: Config, s: Site)
    ensures s.state.phase != LOCKED ==> Next(c, s, BeginSwap) == s
    ensures s.state.phase == LOCKED ==>
              var begun := Next(c, s, BeginSwap);
              && begun == s.(restorePersisted := true) && Next(c, begun, End) == Next(c, begun, Start) == begun
              && Next(c, begun, AcceptSwap) == s.(restorePersisted := false, state := OpenState)
  {
  }

  // ---- No lease is created or extended while draining ----

  /** Every held row has a lease that ends within the bound. */
  ghost predicate LeasesEndBy(jobs: map<JobId, Job>, bound: int) {
    forall id :: id in jobs && jobs[id].phase.Some? ==>
      jobs[id].status == PROCESSING && jobs[id].leaseExpiresAt.Some? && jobs[id].leaseExpiresAt.value <= bound
  }

  lemma ApplyKeepsLeases(jobs: map<JobId, Job>, r: Request, now: int, bound: int)
    requires LeasesEndBy(jobs, bound) && now + LEASE_DURATION_MS <= bound
    ensures LeasesEndBy(Apply(jobs, r, now), bound)
  {
  }

  lemma SweepKeepsLeases(jobs: map<JobId, Job>, now: int, bound: int)
    requires LeasesEndBy(jobs, bound)
    ensures LeasesEndBy(Sweep(jobs, now), bound)
    ensures Clear(jobs) ==> Clear(Sweep(jobs, now))
    ensures now > bound ==> Clear(Sweep(jobs, now))
  {
  }

  /** Last moment at which a drain check may still find a blocking row, or be too early. */
  function LastBadCheck(c: Config, since: int): int {
    var slow := c.delay + LEASE_DURATION_MS + REAPER_INTERVAL_MS;
    since + if c.minWait > slow then c.minWait else slow
  }

  ghost predicate TimesOk(c: Config, s: Site) {
    && s.lastSweep <= s.now <= s.lastSweep + REAPER_INTERVAL_MS
    && s.lastCheck <= s.now <= s.lastCheck + DRAIN_CHECK_INTERVAL_MS
    && (s.probe.Some? ==> s.lastCheck == s.now)
    && (s.state.phase == OPEN <==> s.state.since.None?)
    && (s.state.since.Some? ==> s.Since() <= s.now)
    && LeasesEndBy(s.jobs, s.now + LEASE_DURATION_MS)
    && (forall i :: 0 <= i < |s.inFlight| ==>
          var f := s.inFlight[i];
          f.admittedAt <= s.now <= f.admittedAt + c.delay
          && (f.request.ListRequest? || s.state.since.None? || f.admittedAt <= s.Since()))
  }

  ghost predicate DrainOk(c: Config, s: Site) {
    s.state.phase == DRAINING ==>
      var since := s.Since();
      && LeasesEndBy(s.jobs, since + c.delay + LEASE_DURATION_MS)
      && (s.lastSweep > since + c.delay + LEASE_DURATION_MS ==> Clear(s.jobs))
      && (s.probe != Some(true) ==> s.lastCheck <= LastBadCheck(c, since))
      && s.now <= LastBadCheck(c, since) + DRAIN_CHECK_INTERVAL_MS
  }

  ghost predicate Inv(c: Config, s: Site) {
    TimesOk(c, s) && DrainOk(c, s)
  }

  lemma RemoveAt(s: seq<InFlight>, i: nat, k: nat)
    requires i < |s| && k < |s| - 1
    ensures (s[..i] + s[i + 1..])[k] == if k < i then s[k] else s[k + 1]
  {
  }

  lemma PerformKeepsInv(c: Config, s: Site, i: nat)
    requires Inv(c, s) && i < |s.inFlight|
    ensures Inv(c, Next(c, s, Perform(i)))
  {
    var s' := Next(c, s, Perform(i));
    var f := s.inFlight[i];
    forall k | 0 <= k < |s'.inFlight|
      ensures s'.inFlight[k] == s.inFlight[if k < i then k else k + 1]
    {
      RemoveAt(s.inFlight, i, k);
    }
    ApplyKeepsLeases(s.jobs, f.request, s.now, s.now + LEASE_DURATION_MS);
    if s.state.phase == DRAINING {
      if !f.request.ListRequest? {
        ApplyKeepsLeases(s.jobs, f.request, s.now, s.Since() + c.delay + LEASE_DURATION_MS);
      }
    }
  }

  lemma SweepKeepsInv(c: Config, s: Site)
    requires Inv(c, s)
    ensures Inv(c, Next(c, s, SweepLeases))
  {
    SweepKeepsLeases(s.jobs, s.now, s.now + LEASE_DURATION_MS);
    if s.state.phase == DRAINING {
      SweepKeepsLeases(s.jobs, s.now, s.Since() + c.delay + LEASE_DURATION_MS);
    }
  }

  lemma NoneBlockingIsClear(jobs: map<JobId, Job>)
    ensures NoneBlocking(jobs) <==> Clear(jobs)
  {
    var b := set id | id in jobs && Blocking(jobs[id]);
    if NoneBlocking(jobs) {
      forall id | id in jobs ensures !Blocking(jobs[id]) { assert id !in b; }
    }
  }

  lemma CountKeepsInv(c: Config, s: Site)
    requires Inv(c, s)
    ensures Inv(c, Next(c, s, CheckCount))
  {
    NoneBlockingIsClear(s.jobs);
  }

  lemma WriteKeepsInv(c: Config, s: Site)
    requires Inv(c, s)
    ensures Inv(c, Next(c, s, CheckWrite))
  {
  }

  lemma TickKeepsInv(c: Config, s: Site, ms: nat)
    requires Inv(c, s)
    ensures Inv(c, Next(c, s, Tick(ms)))
  {
  }

  lemma NextKeepsInv(c: Config, s: Site, e: Event)
    requires Inv(c, s)
    ensures Inv(c, Next(c, s, e))
  {
    match e
    case Perform(i) => if i < |s.inFlight| { PerformKeepsInv(c, s, i); }
    case SweepLeases => SweepKeepsInv(c, s);
    case CheckCount => CountKeepsInv(c, s);
    case CheckWrite => WriteKeepsInv(c, s);
    case Tick(ms) => TickKeepsInv(c, s, ms);
    case _ =>
  }

  lemma {:induction false} RunKeepsInv(c: Config, s: Site, events: seq<Event>)
    requires Inv(c, s)
    ensures Inv(c, Run(c, s, events))
    decreases |events|
  {
    if events != [] {
      NextKeepsInv(c, s, events[0]);
      RunKeepsInv(c, Next(c, s, events[0]), events[1..]);
    }
  }

  /** Whatever workers and administrators do, draining is over after the lease, one reaper interval
      and one check interval, plus the longest time a request stays in flight. */
  lemma DrainingIsBounded(c: Config, now: int, events: seq<Event>)
    ensures var s := Run(c, Opened(now), events);
            s.state.phase == DRAINING ==> s.now - s.Since() <= LastBadCheck(c, 0) + DRAIN_CHECK_INTERVAL_MS
  {
    RunKeepsInv(c, Opened(now), events);
  }

  /** With the default wait, and requests taking effect at once, that is 77 seconds. */
  lemma DrainingTakesAtMost77Seconds(now: int, events: seq<Event>)
    ensures var s := Run(Config(DRAIN_MIN_WAIT_MS, 0), Opened(now), events);
            s.state.phase == DRAINING ==> s.now - s.Since() <= 77_000
  {
    DrainingIsBounded(Config(DRAIN_MIN_WAIT_MS, 0), now, events);
  }

  // ---- LOCKED means that no paper is moving ----

  ghost predicate NoWriteInFlight(s: Site) {
    forall i :: 0 <= i < |s.inFlight| ==> s.inFlight[i].request.ListRequest?
  }

  ghost predicate Quiet(s: Site) {
    && (s.probe == Some(true) ==> s.state.phase == DRAINING && Clear(s.jobs) && NoWriteInFlight(s))
    && (s.state.phase == LOCKED ==> Clear(s.jobs) && NoWriteInFlight(s))
    && (s.restorePersisted ==> s.state.phase == LOCKED)
  }

  lemma PerformKeepsQuiet(c: Config, s: Site, i: nat)
    requires Quiet(s) && i < |s.inFlight|
    ensures Quiet(Next(c, s, Perform(i)))
  {
    var s' := Next(c, s, Perform(i));
    forall k | 0 <= k < |s'.inFlight|
      ensures s'.inFlight[k] == s.inFlight[if k < i then k else k + 1]
    {
      RemoveAt(s.inFlight, i, k);
    }
  }

  /** Once the wait is over, every write admitted before the start has long taken effect. */
  lemma CheckKeepsQuiet(c: Config, s: Site)
    requires Inv(c, s) && Quiet(s) && c.delay < c.minWait
    ensures Quiet(Next(c, s, CheckCount))
  {
    var b := set id | id in s.jobs && Blocking(s.jobs[id]);
    if NoneBlocking(s.jobs) {
      forall id | id in s.jobs ensures !Blocking(s.jobs[id]) { assert id !in b; }
    }
  }

  lemma NextKeepsQuiet(c: Config, s: Site, e: Event)
    requires Inv(c, s) && Quiet(s) && c.delay < c.minWait
    requires e.End? ==> s.probe.None?
    ensures Quiet(Next(c, s, e))
  {
    match e
    case Perform(i) => if i < |s.inFlight| { PerformKeepsQuiet(c, s, i); }
    case CheckCount => CheckKeepsQuiet(c, s);
    case SweepLeases => SweepKeepsLeases(s.jobs, s.now, s.now + LEASE_DURATION_MS);
    case _ =>
  }

  lemma {:induction false} RunKeepsQuiet(c: Config, s: Site, events: seq<Event>)
    requires Inv(c, s) && Quiet(s) && c.delay < c.minWait && Calm(c, s, events)
    ensures Quiet(Run(c, s, events))
    decreases |events|
  {
    if events != [] {
      NextKeepsInv(c, s, events[0]);
      NextKeepsQuiet(c, s, events[0]);
      RunKeepsQuiet(c, Next(c, s, events[0]), events[1..]);
    }
  }

  /** LOCKED: no job is being delivered or spooled, no write is under way, and none can come;
      a persisted database swap never sees any other phase. */
  lemma LockedMeansQuiet(c: Config, now: int, events: seq<Event>)
    requires c.delay < c.minWait && Calm(c, Opened(now), events)
    ensures var s := Run(c, Opened(now), events);
            && (s.state.phase == LOCKED ==> Clear(s.jobs) && NoWriteInFlight(s))
            && (s.restorePersisted ==> s.state.phase == LOCKED)
  {
    RunKeepsQuiet(c, Opened(now), events);
  }

  /** Jobs rest while LOCKED: nothing short of ending maintenance changes a row. */
  lemma LockedRowsRest(c: Config, s: Site, e: Event)
    requires s.state.phase == LOCKED && NoWriteInFlight(s)
    ensures Next(c, s, e).jobs == s.jobs
    ensures Next(c, s, e).state.phase == LOCKED ==> NoWriteInFlight(Next(c, s, e))
  {
    if e.Perform? && e.i < |s.inFlight| {
      var s' := Next(c, s, e);
      forall k | 0 <= k < |s'.inFlight|
        ensures s'.inFlight[k] == s.inFlight[if k < e.i then k else k + 1]
      {
        RemoveAt(s.inFlight, e.i, k);
      }
    }
  }

  // ---- Both conditions of LockedMeansQuiet are needed ----

  lemma {:induction false} RunSplit(c: Config, s: Site, first: seq<Event>, second: seq<Event>)
    ensures Run(c, s, first + second) == Run(c, Run(c, s, first), second)
    decreases |first|
  {
    if first == [] {
      assert first + second == second;
    } else {
      assert (first + second)[1..] == first[1..] + second;
      RunSplit(c, Next(c, s, first[0]), first[1..], second);
    }
  }

  lemma {:induction false} NoEndIsCalm(c: Config, s: Site, events: seq<Event>)
    requires End !in events
    ensures Calm(c, s, events)
    decreases |events|
  {
    if events != [] { NoEndIsCalm(c, Next(c, s, events[0]), events[1..]); }
  }

  function DrainingAt(t: int, jobs: map<JobId, Job>, inFlight: seq<InFlight>): Site {
    Site(t, MaintenanceState(DRAINING, Some(0)), jobs, inFlight, false, None, t, t)
  }

  ghost predicate AllWaiting(jobs: map<JobId, Job>) {
    forall id :: id in jobs ==> jobs[id].status == PENDING && jobs[id].phase.None?
  }

  lemma OneMillisecond(c: Config, t: int, jobs: map<JobId, Job>, inFlight: seq<InFlight>)
    requires AllWaiting(jobs) && 0 <= t && t + 1 < c.minWait
    requires forall i :: 0 <= i < |inFlight| ==> t + 1 <= inFlight[i].admittedAt + c.delay
    ensures Run(c, DrainingAt(t, jobs, inFlight), [Tick(1), SweepLeases, CheckCount]) == DrainingAt(t + 1, jobs, inFlight)
  {
    var s0 := DrainingAt(t, jobs, inFlight);
    var s1 := Next(c, s0, Tick(1));
    var s2 := Next(c, s1, SweepLeases);
    assert Sweep(jobs, t + 1) == jobs;
    assert Run(c, s0, [Tick(1), SweepLeases, CheckCount]) == Run(c, s1, [SweepLeases, CheckCount]);
    assert Run(c, s1, [SweepLeases, CheckCount]) == Run(c, s2, [CheckCount]);
    assert Run(c, s2, [CheckCount]) == Next(c, s2, CheckCount);
  }

  /** Nothing happens but time passing, until the wait is over. */
  lemma {:induction false} Lull(c: Config, t: int, jobs: map<JobId, Job>, inFlight: seq<InFlight>) returns (events: seq<Event>)
    requires AllWaiting(jobs) && 0 <= t && (t < c.minWait || t == c.minWait == 0)
    requires forall i :: 0 <= i < |inFlight| ==> c.minWait <= inFlight[i].admittedAt + c.delay
    ensures End !in events
    ensures Run(c, DrainingAt(t, jobs, inFlight), events) == DrainingAt(c.minWait, jobs, inFlight).(probe := Some(true))
    decreases c.minWait - t
  {
    if t + 1 < c.minWait {
      OneMillisecond(c, t, jobs, inFlight);
      var rest := Lull(c, t + 1, jobs, inFlight);
      events := [Tick(1), SweepLeases, CheckCount] + rest;
      RunSplit(c, DrainingAt(t, jobs, inFlight), [Tick(1), SweepLeases, CheckCount], rest);
    } else {
      var s0 := DrainingAt(t, jobs, inFlight);
      var s1 := Next(c, s0, Tick(c.minWait - t));
      var s2 := Next(c, s1, SweepLeases);
      assert Sweep(jobs, c.minWait) == jobs;
      events := [Tick(c.minWait - t), SweepLeases, CheckCount];
      assert Run(c, s0, events) == Run(c, s1, [SweepLeases, CheckCount]);
      assert Run(c, s1, [SweepLeases, CheckCount]) == Run(c, s2, [CheckCount]);
      assert Run(c, s2, [CheckCount]) == Next(c, s2, CheckCount);
    }
  }

  const OneJob: map<JobId, Job> := map[0 := NewJob(0, 0)]
  const ClaimIt := ClaimRequest(0, 0)
  const DeliverIt := PhaseRequest(0, 0, PrintJobs.DELIVERING)

  lemma CreateOne(c: Config)
    ensures Run(c, Opened(0), [Arrive(CreateRequest(0, 0)), Perform(0)]) == Opened(0).(jobs := OneJob)
  {
    var s1 := Next(c, Opened(0), Arrive(CreateRequest(0, 0)));
    var s2 := Next(c, s1, Perform(0));
    assert Run(c, Opened(0), [Arrive(CreateRequest(0, 0)), Perform(0)]) == Run(c, s1, [Perform(0)]);
    assert Run(c, s1, [Perform(0)]) == s2;
    assert s2.inFlight == [] && s2.jobs == OneJob;
  }

  /** Claiming and confirming, one after the other, from a state in which nothing else is under way. */
  lemma Deliver(c: Config, s: Site)
    requires s.jobs == OneJob && s.inFlight == [InFlight(ClaimIt, 0), InFlight(DeliverIt, 0)]
    ensures var s' := Run(c, s, [Perform(0), Perform(0)]);
            s'.state == s.state && s'.probe == s.probe && !Clear(s'.jobs)
            && s'.inFlight == [] && s'.restorePersisted == s.restorePersisted
  {
    var s1 := Next(c, s, Perform(0));
    var s2 := Next(c, s1, Perform(0));
    assert s1.inFlight == [InFlight(DeliverIt, 0)] && s1.now == s.now;
    assert s1.jobs[0] == PrintJobs.Claim(NewJob(0, 0), 0, s.now);
    assert Run(c, s, [Perform(0), Perform(0)]) == Run(c, s1, [Perform(0)]);
    assert Run(c, s1, [Perform(0)]) == s2;
    assert Blocking(s2.jobs[0]);
  }

  /** A wait that does not outlast the slowest request lets paper move while LOCKED. */
  const Claiming := [Arrive(ClaimIt), Arrive(DeliverIt), Start]

  /** Two requests are admitted, and draining begins. */
  lemma Admitting(c: Config)
    ensures Run(c, Opened(0).(jobs := OneJob), Claiming) == DrainingAt(0, OneJob, [InFlight(ClaimIt, 0), InFlight(DeliverIt, 0)])
  {
    var s0 := Opened(0).(jobs := OneJob);
    var s1 := Next(c, s0, Arrive(ClaimIt));
    var s2 := Next(c, s1, Arrive(DeliverIt));
    assert Run(c, s0, Claiming) == Run(c, s1, [Arrive(DeliverIt), Start]);
    assert Run(c, s1, [Arrive(DeliverIt), Start]) == Run(c, s2, [Start]);
    assert Run(c, s2, [Start]) == Next(c, s2, Start);
  }

  lemma ShortWaitIsUnsafe(c: Config) returns (events: seq<Event>)
    requires c.minWait <= c.delay
    ensures Calm(c, Opened(0), events)
    ensures var s := Run(c, Opened(0), events); s.state.phase == LOCKED && !Clear(s.jobs)
  {
    var create := [Arrive(CreateRequest(0, 0)), Perform(0)];
    var s0 := Opened(0).(jobs := OneJob);
    CreateOne(c);
    Admitting(c);
    var inFlight := [InFlight(ClaimIt, 0), InFlight(DeliverIt, 0)];
    var wait := Lull(c, 0, OneJob, inFlight);
    var s3 := DrainingAt(c.minWait, OneJob, inFlight).(probe := Some(true));
    var s4 := Next(c, s3, CheckWrite);
    Deliver(c, s4);
    var finish := [CheckWrite, Perform(0), Perform(0)];
    assert Run(c, s3, finish) == Run(c, s4, [Perform(0), Perform(0)]);
    events := create + (Claiming + (wait + finish));
    RunSplit(c, Opened(0), create, Claiming + (wait + finish));
    RunSplit(c, s0, Claiming, wait + finish);
    RunSplit(c, DrainingAt(0, OneJob, inFlight), wait, finish);
    NoEndIsCalm(c, Opened(0), events);
  }

  /** LOCKED protects the queue in every calm run exactly when the wait outlasts every request. */
  lemma WaitMustOutlastRequests(c: Config)
    ensures (forall events :: Calm(c, Opened(0), events) ==>
               var s := Run(c, Opened(0), events); s.state.phase == LOCKED ==> Clear(s.jobs))
            <==> c.delay < c.minWait
  {
    if c.delay < c.minWait {
      forall events | Calm(c, Opened(0), events)
        ensures var s := Run(c, Opened(0), events); s.state.phase == LOCKED ==> Clear(s.jobs)
      {
        LockedMeansQuiet(c, 0, events);
      }
    } else {
      var events := ShortWaitIsUnsafe(c);
    }
  }

  /** Ending and restarting maintenance between the count and the write locks a busy queue,
      however long the wait. */
  lemma RestartDuringCheckIsUnsafe(c: Config) returns (events: seq<Event>)
    ensures !Calm(c, Opened(0), events)
    ensures var s := Run(c, Opened(0), events); s.state.phase == LOCKED && !Clear(s.jobs)
  {
    var s0 := DrainingAt(0, map[], []);
    assert Run(c, Opened(0), [Start]) == s0;
    var wait := Lull(c, 0, map[], []);
    var s1 := DrainingAt(c.minWait, map[], []).(probe := Some(true));
    var reopened := Next(c, s1, End);
    var busy := [Arrive(CreateRequest(0, 0)), Perform(0), Arrive(ClaimIt), Perform(0), Arrive(DeliverIt), Perform(0)];
    var s2 := BusyAgain(c, reopened);
    var s3 := Next(c, s2, Start);
    assert Run(c, s2, [Start, CheckWrite]) == Run(c, s3, [CheckWrite]);
    assert Run(c, s3, [CheckWrite]) == Next(c, s3, CheckWrite);
    var tail := [End] + (busy + [Start, CheckWrite]);
    RunSplit(c, reopened, busy, [Start, CheckWrite]);
    assert tail[0] == End && tail[1..] == busy + [Start, CheckWrite];
    events := [Start] + (wait + tail);
    assert events[1..] == wait + tail;
    RunSplit(c, s0, wait, tail);
    CalmSplit(c, s0, wait, tail);
  }

  lemma {:induction false} CalmSplit(c: Config, s: Site, first: seq<Event>, second: seq<Event>)
    ensures Calm(c, s, first + second) ==> Calm(c, Run(c, s, first), second)
    decreases |first|
  {
    if first == [] {
      assert first + second == second;
    } else {
      assert (first + second)[1..] == first[1..] + second;
      CalmSplit(c, Next(c, s, first[0]), first[1..], second);
    }
  }

  lemma BusyAgain(c: Config, s: Site) returns (s': Site)
    requires s.state == OpenState && s.jobs == map[] && s.inFlight == [] && s.probe == Some(true)
    ensures s' == Run(c, s, [Arrive(CreateRequest(0, 0)), Perform(0), Arrive(ClaimIt), Perform(0), Arrive(DeliverIt), Perform(0)])
    ensures s'.state == OpenState && s'.probe == Some(true) && !Clear(s'.jobs)
  {
    var e := [Arrive(CreateRequest(0, 0)), Perform(0), Arrive(ClaimIt), Perform(0), Arrive(DeliverIt), Perform(0)];
    var s1 := Next(c, s, e[0]);
    var s2 := Next(c, s1, e[1]);
    var s3 := Next(c, s2, e[2]);
    var s4 := Next(c, s3, e[3]);
    var s5 := Next(c, s4, e[4]);
    s' := Next(c, s5, e[5]);
    assert s2.jobs == map[0 := NewJob(0, s.now)] && s2.inFlight == [];
    assert s4.jobs[0] == PrintJobs.Claim(NewJob(0, s.now), 0, s.now) && s4.inFlight == [];
    assert Blocking(s'.jobs[0]);
    assert Run(c, s5, e[5..]) == s';
    assert Run(c, s4, e[4..]) == Run(c, s5, e[5..]);
    assert Run(c, s3, e[3..]) == Run(c, s4, e[4..]);
    assert Run(c, s2, e[2..]) == Run(c, s3, e[3..]);
    assert Run(c, s1, e[1..]) == Run(c, s2, e[2..]);
  }

  // ---- Draining can always be completed ----

  predicate Routine(e: Event) {
    e.Tick? || e.Perform? || e.SweepLeases? || e.CheckCount? || e.CheckWrite?
  }

  ghost predicate AllRoutine(events: seq<Event>) {
    forall i :: 0 <= i < |events| ==> Routine(events[i])
  }

  lemma {:induction false} PerformAll(c: Config, s: Site) returns (events: seq<Event>)
    ensures AllRoutine(events)
    ensures var s' := Run(c, s, events);
            s'.inFlight == [] && s'.now == s.now && s'.state == s.state
    decreases |s.inFlight|
  {
    events := [];
    if s.inFlight != [] {
      var rest := PerformAll(c, Next(c, s, Perform(0)));
      events := [Perform(0)] + rest;
    }
  }

  const Turn := [CheckWrite, SweepLeases, CheckCount, CheckWrite, Tick(1)]

  lemma OneTurn(c: Config, s: Site)
    requires s.inFlight == []
    ensures var s' := Run(c, s, Turn); s'.now == s.now + 1 && s'.state in {s.state, Locked(s.state)}
  {
    var s1 := Next(c, s, CheckWrite);
    var s2 := Next(c, s1, SweepLeases);
    var s3 := Next(c, s2, CheckCount);
    var s4 := Next(c, s3, CheckWrite);
    assert Run(c, s4, Turn[4..]) == Next(c, s4, Tick(1));
    assert Run(c, s3, Turn[3..]) == Run(c, s4, Turn[4..]);
    assert Run(c, s2, Turn[2..]) == Run(c, s3, Turn[3..]);
    assert Run(c, s1, Turn[1..]) == Run(c, s2, Turn[2..]);
  }

  /** No state is stuck: the routine events bring the clock forward. */
  lemma TimeGoesOn(c: Config, s: Site) returns (events: seq<Event>)
    ensures AllRoutine(events)
    ensures var s' := Run(c, s, events);
            s'.now == s.now + 1 && s'.state in {s.state, Locked(s.state)}
  {
    var performed := PerformAll(c, s);
    OneTurn(c, Run(c, s, performed));
    events := performed + Turn;
    RunSplit(c, s, performed, Turn);
  }

  /** From every state of every run that drains, routine events alone reach LOCKED. */
  lemma {:induction false} DrainingCanFinish(c: Config, s: Site) returns (events: seq<Event>)
    requires Inv(c, s) && s.state.phase == DRAINING
    ensures AllRoutine(events) && Run(c, s, events).state == Locked(s.state)
    decreases LastBadCheck(c, s.Since()) + DRAIN_CHECK_INTERVAL_MS - s.now
  {
    events := TimeGoesOn(c, s);
    var s' := Run(c, s, events);
    RunKeepsInv(c, s, events);
    if s'.state.phase == DRAINING {
      var rest := DrainingCanFinish(c, s');
      RunSplit(c, s, events, rest);
      events := events + rest;
    }
  }
}
