/**
 * One festival event: its status, the separation of test and live data, and its pickup numbers.
 */
module EventModes {
  import opened Common

  const MAX_PICKUP_NUMBER := 99_999

  datatype EventStatus = DRAFT | PREPARED | TEST_MODE | ACTIVE | PAUSED | COMPLETED | ARCHIVED

  type UserId = nat
  type SessionId = nat

  datatype Session = Session(user: UserId, mode: DataMode, active: bool)

  datatype Order = Order(mode: DataMode, session: Option<SessionId>, pickup: Option<nat>)

  datatype Festival = Festival(
    status: EventStatus,
    testMode: bool,
    rksvConfirmed: bool,
    orders: map<nat, Order>,
    sessions: map<SessionId, Session>,
    vouchers: map<nat, SessionId>,   // value vouchers, by the session that issued them
    counters: map<DataMode, nat>)    // last pickup number drawn

  const Created := Festival(DRAFT, false, false, map[], map[], map[], map[])

  datatype Refusal =
    | NotRunning | InconsistentMode | ModeMismatch | OpenSession | DataOfOtherMode | NotConfirmed
    | NoSession | AlreadyActive | StillReferenced | NumbersExhausted | NotInTestMode | Aborted

  /** Which mode the event runs in: None when it does not run, an error when status and flag disagree. */
  function ResolveOperationalDataMode(status: EventStatus, testMode: bool): Result<Option<DataMode>, Refusal> {
    if status == ACTIVE && !testMode then Ok(Some(LIVE))
    else if status == TEST_MODE && testMode then Ok(Some(TEST))
    else if status == ACTIVE || status == TEST_MODE then Err(InconsistentMode)
    else Ok(None)
  }

  predicate HasData(f: Festival, mode: DataMode) {
    (exists id :: id in f.orders && f.orders[id].mode == mode)
    || (exists id :: id in f.sessions && f.sessions[id].mode == mode)
  }

  predicate HasOpenSession(f: Festival) {
    exists id :: id in f.sessions && f.sessions[id].active
  }

  /** Value vouchers and their movements keep their session from being deleted. */
  predicate HasVoucher(f: Festival, mode: DataMode) {
    exists v :: v in f.vouchers && f.vouchers[v] in f.sessions && f.sessions[f.vouchers[v]].mode == mode
  }

  // ---- Changing the mode ----

  function Activate(f: Festival, confirmed: bool): Result<Festival, Refusal> {
    if !confirmed then Err(NotConfirmed)
    else if HasOpenSession(f) then Err(OpenSession)
    else if HasData(f, TEST) then Err(DataOfOtherMode)
    else Ok(f.(status := ACTIVE, testMode := false, rksvConfirmed := true))
  }

  function ChangeStatus(f: Festival, status: EventStatus): Result<Festival, Refusal> {
    if status == ACTIVE && !f.rksvConfirmed then Err(NotConfirmed)
    else if status == ACTIVE && HasData(f, TEST) then Err(DataOfOtherMode)
    else if status == TEST_MODE && HasData(f, LIVE) then Err(DataOfOtherMode)
    else if status in {ACTIVE, TEST_MODE} && HasOpenSession(f) then Err(OpenSession)
    else Ok(f.(status := status,
               testMode := if status == TEST_MODE then true else if status == ACTIVE then false else f.testMode))
  }

  /** Deletes the TEST world; the database refuses while a value voucher refers to one of its sessions. */
  function CleanTestData(f: Festival, nameConfirmed: bool): Result<Festival, Refusal> {
    if f.status != TEST_MODE || !f.testMode then Err(NotInTestMode)
    else if !nameConfirmed then Err(NotConfirmed)
    else if HasData(f, LIVE) then Err(DataOfOtherMode)
    else if HasVoucher(f, TEST) then Err(StillReferenced)
    else
      Ok(f.(orders := map id | id in f.orders && f.orders[id].mode != TEST :: f.orders[id],
            sessions := map id | id in f.sessions && f.sessions[id].mode != TEST :: f.sessions[id],
            counters := f.counters - {TEST},
            status := PREPARED, testMode := false))
  }

  // ---- Cashier sessions and sales ----

  predicate ActiveFor(f: Festival, id: SessionId, user: UserId) {
    id in f.sessions && f.sessions[id].user == user && f.sessions[id].active
  }

  function StartSession(f: Festival, id: SessionId, user: UserId): Result<Festival, Refusal> {
    var mode := ResolveOperationalDataMode(f.status, f.testMode);
    if mode.Err? then Err(mode.error)
    else if mode.value.None? then Err(NotRunning)
    else if id in f.sessions || (exists s :: s in f.sessions && ActiveFor(f, s, user)) then Err(AlreadyActive)
    else Ok(f.(sessions := f.sessions[id := Session(user, mode.value.value, true)]))
  }

  function CloseSession(f: Festival, id: SessionId, user: UserId): Result<Festival, Refusal> {
    if !ActiveFor(f, id, user) then Err(NoSession)
    else Ok(f.(sessions := f.sessions[id := f.sessions[id].(active := false)]))
  }

  /** A table order; the user's active session, if any, is passed as found. */
  function PlaceOrder(f: Festival, id: nat, user: UserId, session: Option<SessionId>): Result<Festival, Refusal> {
    var mode := ResolveOperationalDataMode(f.status, f.testMode);
    if mode.Err? || mode.value.None? then Err(NotRunning)
    else if session.Some? && !ActiveFor(f, session.value, user) then Err(NoSession)
    else if session.Some? && f.sessions[session.value].mode != mode.value.value then Err(ModeMismatch)
    else if id in f.orders then Err(Aborted)
    else Ok(f.(orders := f.orders[id := Order(mode.value.value, session, None)]))
  }

  function Drawn(counters: map<DataMode, nat>, mode: DataMode): nat {
    if mode in counters then counters[mode] + 1 else 1
  }

  /** A quick sale; at a station it draws the next pickup number inside the sale's transaction. */
  function QuickSale(f: Festival, id: nat, user: UserId, session: SessionId, station: bool, failsLater: bool): Result<Festival, Refusal> {
    var mode := ResolveOperationalDataMode(f.status, f.testMode);
    if mode.Err? then Err(mode.error)
    else if mode.value.None? then Err(NotRunning)
    else if !ActiveFor(f, session, user) then Err(NoSession)
    else if f.sessions[session].mode != mode.value.value then Err(ModeMismatch)
    else
      var m := mode.value.value;
      var number := Drawn(f.counters, m);
      if station && number > MAX_PICKUP_NUMBER then Err(NumbersExhausted)
      else if failsLater || id in f.orders then Err(Aborted)
      else
        Ok(f.(orders := f.orders[id := Order(m, Some(session), if station then Some(number) else None)],
              counters := if station then f.counters[m := number] else f.counters))
  }

  function IssueVoucher(f: Festival, id: nat, user: UserId, session: SessionId): Result<Festival, Refusal> {
    var mode := ResolveOperationalDataMode(f.status, f.testMode);
    if !ActiveFor(f, session, user) then Err(NoSession)
    else if mode.Err? then Err(mode.error)
    else if mode.value.None? || f.sessions[session].mode != mode.value.value then Err(ModeMismatch)
    else if id in f.vouchers then Err(Aborted)
    else Ok(f.(vouchers := f.vouchers[id := session]))
  }

  // ---- Restoring a JSON backup ----

  ghost function MaxOf(s: set<nat>): (m: nat)
    requires s != {}
    ensures m in s && forall x :: x in s ==> x <= m
  {
    var x :| x in s;
    var rest := s - {x};
    assert forall y :: y in s ==> y == x || y in rest;
    if rest == {} then x
    else
      var best := MaxOf(rest);
      if x > best then x else best
  }

  function NumbersOf(orders: map<nat, Order>, mode: DataMode): set<nat> {
    set id | id in orders && orders[id].mode == mode && orders[id].pickup.Some? :: orders[id].pickup.value
  }

  /** The counters are not taken from the backup but from the largest number of each mode. */
  ghost function Rebuilt(orders: map<nat, Order>): map<DataMode, nat> {
    map mode: DataMode | NumbersOf(orders, mode) != {} :: MaxOf(NumbersOf(orders, mode))
  }

  ghost function Restored(backup: Festival): Festival { backup.(counters := Rebuilt(backup.orders)) }

  // ---- The services ----

  class EventService {
    var f: Festival

    method ActivateEvent(confirmed: bool) returns (error: Option<Refusal>)
      modifies this
      ensures Activate(old(f), confirmed) == if error.None? then Ok(f) else Err(error.value)
      ensures error.Some? ==> f == old(f)
    {
      if !confirmed { return Some(NotConfirmed); }
      if HasOpenSession(f) { return Some(OpenSession); }
      if HasData(f, TEST) { return Some(DataOfOtherMode); }
      f := f.(status := ACTIVE, testMode := false, rksvConfirmed := true);
      return None;
    }

    method ChangeEventStatus(status: EventStatus) returns (error: Option<Refusal>)
      modifies this
      ensures ChangeStatus(old(f), status) == if error.None? then Ok(f) else Err(error.value)
      ensures error.Some? ==> f == old(f)
    {
      if status == ACTIVE {
        if !f.rksvConfirmed { return Some(NotConfirmed); }
        if HasData(f, TEST) { return Some(DataOfOtherMode); }
      }
      if status == TEST_MODE && HasData(f, LIVE) { return Some(DataOfOtherMode); }
      if (status == ACTIVE || status == TEST_MODE) && HasOpenSession(f) { return Some(OpenSession); }
      f := f.(status := status,
              testMode := if status == TEST_MODE then true else if status == ACTIVE then false else f.testMode);
      return None;
    }

    /** Deletes orders, sessions and the pickup counter of TEST, unless a voucher holds a session. */
    method CleanTestEvent(nameConfirmed: bool) returns (error: Option<Refusal>)
      modifies this
      ensures CleanTestData(old(f), nameConfirmed) == if error.None? then Ok(f) else Err(error.value)
      ensures error.Some? ==> f == old(f)
    {
      if f.status != TEST_MODE || !f.testMode { return Some(NotInTestMode); }
      if !nameConfirmed { return Some(NotConfirmed); }
      if HasData(f, LIVE) { return Some(DataOfOtherMode); }
      if HasVoucher(f, TEST) { return Some(StillReferenced); }
      f := f.(orders := map id | id in f.orders && f.orders[id].mode != TEST :: f.orders[id]);
      f := f.(sessions := map id | id in f.sessions && f.sessions[id].mode != TEST :: f.sessions[id]);
      f := f.(counters := f.counters - {TEST});
      f := f.(status := PREPARED, testMode := false);
      return None;
    }

    method BeginSession(id: SessionId, user: UserId) returns (error: Option<Refusal>)
      modifies this
      ensures StartSession(old(f), id, user) == if error.None? then Ok(f) else Err(error.value)
      ensures error.Some? ==> f == old(f)
    {
      var mode := ResolveOperationalDataMode(f.status, f.testMode);
      if mode.Err? { return Some(mode.error); }
      if mode.value.None? { return Some(NotRunning); }
      if id in f.sessions || exists s :: s in f.sessions && ActiveFor(f, s, user) { return Some(AlreadyActive); }
      f := f.(sessions := f.sessions[id := Session(user, mode.value.value, true)]);
      return None;
    }

    method EndSession(id: SessionId, user: UserId) returns (error: Option<Refusal>)
      modifies this
      ensures CloseSession(old(f), id, user) == if error.None? then Ok(f) else Err(error.value)
      ensures error.Some? ==> f == old(f)
    {
      if id !in f.sessions || f.sessions[id].user != user || !f.sessions[id].active { return Some(NoSession); }
      f := f.(sessions := f.sessions[id := f.sessions[id].(active := false)]);
      return None;
    }

    /** One statement: insert the counter with 1, or add 1 to it.  An overflow aborts the sale. */
    method DrawPickupNumber(mode: DataMode) returns (number: Option<nat>)
      modifies this
      ensures number == if Drawn(old(f).counters, mode) <= MAX_PICKUP_NUMBER then Some(Drawn(old(f).counters, mode)) else None
      ensures f == if number.Some? then old(f).(counters := old(f).counters[mode := number.value]) else old(f)
    {
      var before := f;
      f := f.(counters := f.counters[mode := if mode in f.counters then f.counters[mode] + 1 else 1]);
      if f.counters[mode] > MAX_PICKUP_NUMBER {
        f := before;
        return None;
      }
      return Some(f.counters[mode]);
    }

    method SellAtStation(id: nat, user: UserId, session: SessionId, failsLater: bool) returns (error: Option<Refusal>)
      modifies this
      ensures QuickSale(old(f), id, user, session, true, failsLater) == if error.None? then Ok(f) else Err(error.value)
      ensures error.Some? ==> f == old(f)
    {
      var mode := ResolveOperationalDataMode(f.status, f.testMode);
      if mode.Err? { return Some(mode.error); }
      if mode.value.None? { return Some(NotRunning); }
      if !ActiveFor(f, session, user) { return Some(NoSession); }
      if f.sessions[session].mode != mode.value.value { return Some(ModeMismatch); }
      var before := f;
      var number := DrawPickupNumber(mode.value.value);
      if number.None? { return Some(NumbersExhausted); }
      if failsLater || id in f.orders {
        f := before;
        return Some(Aborted);
      }
      f := f.(orders := f.orders[id := Order(mode.value.value, Some(session), number)]);
      return None;
    }

    /** Walks the restored orders and keeps the largest number of each mode. */
    method RestoreBackup(backup: Festival)
      modifies this
      ensures f == Restored(backup)
    {
      var counters: map<DataMode, nat> := map[];
      var todo := backup.orders.Keys;
      while todo != {}
        invariant todo <= backup.orders.Keys
        invariant forall mode :: mode in counters ==>
          (exists id :: id in backup.orders.Keys - todo && backup.orders[id] == Order(mode, backup.orders[id].session, Some(counters[mode])))
        invariant forall id :: id in backup.orders.Keys - todo && backup.orders[id].pickup.Some? ==>
          backup.orders[id].mode in counters && backup.orders[id].pickup.value <= counters[backup.orders[id].mode]
        decreases todo
      {
        var id :| id in todo;
        var order := backup.orders[id];
        todo := todo - {id};
        if order.pickup.Some? && (order.mode !in counters || counters[order.mode] < order.pickup.value) {
          counters := counters[order.mode := order.pickup.value];
          assert backup.orders[id] == Order(order.mode, order.session, Some(counters[order.mode]));
        }
      }
      forall mode: DataMode
        ensures mode in counters <==> NumbersOf(backup.orders, mode) != {}
        ensures mode in counters ==> counters[mode] == MaxOf(NumbersOf(backup.orders, mode))
      {
        if mode in counters {
          var id :| id in backup.orders && backup.orders[id] == Order(mode, backup.orders[id].session, Some(counters[mode]));
          assert counters[mode] in NumbersOf(backup.orders, mode);
        }
        if NumbersOf(backup.orders, mode) != {} {
          ghost var n := MaxOf(NumbersOf(backup.orders, mode));
          ghost var id :| id in backup.orders && backup.orders[id].mode == mode && backup.orders[id].pickup == Some(n);
          assert id in backup.orders.Keys - todo;
        }
      }
      assert counters == Rebuilt(backup.orders);
      f := backup.(counters := counters);
    }
  }

  // ---- Runs ----

  datatype Step =
    | ActivateStep(confirmed: bool)
    | StatusStep(status: EventStatus)
    | CleanStep(nameConfirmed: bool)
    | StartStep(id: nat, user: UserId)
    | CloseStep(id: nat, user: UserId)
    | OrderStep(id: nat, user: UserId, found: Option<SessionId>)
    | SaleStep(id: nat, user: UserId, session: SessionId, station: bool, failsLater: bool)
    | VoucherStep(id: nat, user: UserId, session: SessionId)
    | BackupStep
    | RestoreStep(backup: Festival)

  datatype World = World(f: Festival, backups: set<Festival>)

  ghost function Outcome(f: Festival, step: Step): Result<Festival, Refusal> {
    match step
    case ActivateStep(confirmed) => Activate(f, confirmed)
    case StatusStep(status) => ChangeStatus(f, status)
    case CleanStep(nameConfirmed) => CleanTestData(f, nameConfirmed)
    case StartStep(id, user) => StartSession(f, id, user)
    case CloseStep(id, user) => CloseSession(f, id, user)
    case OrderStep(id, user, found) => PlaceOrder(f, id, user, found)
    case SaleStep(id, user, session, station, failsLater) => QuickSale(f, id, user, session, station, failsLater)
    case VoucherStep(id, user, session) => IssueVoucher(f, id, user, session)
    case BackupStep => Ok(f)
    case RestoreStep(backup) => Ok(Restored(backup))
  }

  ghost function Next(w: World, step: Step): World {
    if step.RestoreStep? && step.backup !in w.backups then w
    else
      var f := Outcome(w.f, step);
      World(if f.Ok? then f.value else w.f, if step.BackupStep? then w.backups + {w.f} else w.backups)
  }

  ghost function Run(w: World, steps: seq<Step>): World
    decreases |steps|
  {
    if steps == [] then w else Run(Next(w, steps[0]), steps[1..])
  }

  // ---- What every run keeps ----

  ghost predicate AllOf(f: Festival, mode: DataMode) {
    (forall id :: id in f.orders ==> f.orders[id].mode == mode) && (forall id :: id in f.sessions ==> f.sessions[id].mode == mode)
  }

  /** A running event holds data of its own mode only; any other event of at most one mode. */
  ghost predicate Separated(f: Festival) {
    && (f.status == ACTIVE ==> !f.testMode && AllOf(f, LIVE))
    && (f.status == TEST_MODE ==> f.testMode && AllOf(f, TEST))
    && (AllOf(f, TEST) || AllOf(f, LIVE))
    && (forall v :: v in f.vouchers ==> f.vouchers[v] in f.sessions)
  }

  function Last(counters: map<DataMode, nat>, mode: DataMode): nat {
    if mode in counters then counters[mode] else 0
  }

  /** The pickup numbers of a mode are 1 to n, each once, and the counter stands at n. */
  ghost predicate GapFree(f: Festival, mode: DataMode) {
    && Last(f.counters, mode) <= MAX_PICKUP_NUMBER
    && (mode in f.counters ==> f.counters[mode] >= 1)
    && (forall k: nat :: k in NumbersOf(f.orders, mode) <==> 1 <= k <= Last(f.counters, mode))
    && (forall a, b :: a in f.orders && b in f.orders && a != b && f.orders[a].mode == f.orders[b].mode == mode && f.orders[a].pickup.Some?
          ==> f.orders[a].pickup != f.orders[b].pickup)
  }

  ghost predicate Sound(f: Festival) { Separated(f) && GapFree(f, TEST) && GapFree(f, LIVE) }

  ghost predicate Inv(w: World) { Sound(w.f) && forall b :: b in w.backups ==> Sound(b) }

  lemma NoDataMeansAllOther(f: Festival, mode: DataMode)
    requires !HasData(f, mode)
    ensures AllOf(f, if mode == TEST then LIVE else TEST)
  {
  }

  lemma SaleKeepsNumbers(f: Festival, id: nat, order: Order, mode: DataMode)
    requires GapFree(f, mode) && id !in f.orders
    requires order.pickup.Some? ==> order.pickup.value == Drawn(f.counters, order.mode) <= MAX_PICKUP_NUMBER
    ensures GapFree(f.(orders := f.orders[id := order],
                       counters := if order.pickup.Some? then f.counters[order.mode := order.pickup.value] else f.counters), mode)
  {
    var orders' := f.orders[id := order];
    var counters' := if order.pickup.Some? then f.counters[order.mode := order.pickup.value] else f.counters;
    forall k: nat
      ensures k in NumbersOf(orders', mode) <==> 1 <= k <= Last(counters', mode)
    {
      assert k in NumbersOf(f.orders, mode) <==> 1 <= k <= Last(f.counters, mode);
      if k in NumbersOf(f.orders, mode) {
        var a :| a in f.orders && f.orders[a].mode == mode && f.orders[a].pickup == Some(k);
        assert orders'[a] == f.orders[a];
      }
      if order.mode == mode && order.pickup == Some(k) { assert orders'[id] == order; }
    }
    forall a | a in f.orders && f.orders[a].mode == mode && f.orders[a].pickup.Some?
      ensures f.orders[a].pickup.value <= Last(f.counters, mode)
    {
      assert f.orders[a].pickup.value in NumbersOf(f.orders, mode);
    }
  }

  lemma OnlyTwoModes(counters: map<DataMode, nat>)
    requires TEST !in counters && LIVE !in counters
    ensures counters == map[]
  {
    forall mode: DataMode ensures mode !in counters { assert mode == TEST || mode == LIVE; }
  }

  lemma CleanKeepsNumbers(f: Festival)
    requires Sound(f) && CleanTestData(f, true).Ok?
    ensures Sound(CleanTestData(f, true).value)
  {
    var f' := CleanTestData(f, true).value;
    assert f'.orders == map[] && f'.sessions == map[];
    assert forall k: nat :: k !in NumbersOf(f.orders, LIVE);
    assert 1 !in NumbersOf(f.orders, LIVE);
    assert LIVE !in f.counters;
    OnlyTwoModes(f'.counters);
  }

  /** Rebuilding the counters of gap-free orders gives the counters back. */
  lemma LargestIsCounter(f: Festival, mode: DataMode)
    requires GapFree(f, mode)
    ensures NumbersOf(f.orders, mode) != {} <==> mode in f.counters
    ensures mode in f.counters ==> MaxOf(NumbersOf(f.orders, mode)) == f.counters[mode]
  {
    var numbers := NumbersOf(f.orders, mode);
    if mode in f.counters { assert f.counters[mode] in numbers; }
    if numbers != {} {
      var k :| k in numbers;
      assert 1 <= k <= Last(f.counters, mode);
    }
  }

  lemma RebuildIsIdentity(f: Festival)
    requires GapFree(f, TEST) && GapFree(f, LIVE)
    ensures Restored(f) == f
  {
    forall mode: DataMode
      ensures NumbersOf(f.orders, mode) != {} <==> mode in f.counters
      ensures mode in f.counters ==> MaxOf(NumbersOf(f.orders, mode)) == f.counters[mode]
    {
      assert mode == TEST || mode == LIVE;
      LargestIsCounter(f, mode);
    }
    assert Rebuilt(f.orders) == f.counters;
  }

  lemma SameNumbers(f: Festival, f': Festival)
    requires GapFree(f, TEST) && GapFree(f, LIVE) && f'.orders == f.orders && f'.counters == f.counters
    ensures GapFree(f', TEST) && GapFree(f', LIVE)
  {
  }

  lemma SalesKeepOk(f: Festival, id: nat, user: UserId, session: SessionId, station: bool, failsLater: bool)
    requires Sound(f) && QuickSale(f, id, user, session, station, failsLater).Ok?
    ensures Sound(QuickSale(f, id, user, session, station, failsLater).value)
  {
    var f' := QuickSale(f, id, user, session, station, failsLater).value;
    SaleKeepsNumbers(f, id, f'.orders[id], TEST);
    SaleKeepsNumbers(f, id, f'.orders[id], LIVE);
  }

  lemma OrdersKeepOk(f: Festival, id: nat, user: UserId, found: Option<SessionId>)
    requires Sound(f) && PlaceOrder(f, id, user, found).Ok?
    ensures Sound(PlaceOrder(f, id, user, found).value)
  {
    var f' := PlaceOrder(f, id, user, found).value;
    SaleKeepsNumbers(f, id, f'.orders[id], TEST);
    SaleKeepsNumbers(f, id, f'.orders[id], LIVE);
  }

  lemma StatusSeparates(f: Festival, status: EventStatus)
    requires Separated(f) && ChangeStatus(f, status).Ok?
    ensures Separated(ChangeStatus(f, status).value)
  {
    if status == ACTIVE { NoDataMeansAllOther(f, TEST); }
    if status == TEST_MODE { NoDataMeansAllOther(f, LIVE); }
  }

  lemma StatusKeepsOk(f: Festival, status: EventStatus)
    requires Sound(f) && ChangeStatus(f, status).Ok?
    ensures Sound(ChangeStatus(f, status).value)
  {
    SameNumbers(f, ChangeStatus(f, status).value);
    StatusSeparates(f, status);
  }

  lemma ActivatingKeepsOk(f: Festival, confirmed: bool)
    requires Sound(f) && Activate(f, confirmed).Ok?
    ensures Sound(Activate(f, confirmed).value)
  {
    SameNumbers(f, Activate(f, confirmed).value);
    NoDataMeansAllOther(f, TEST);
  }

  lemma StartKeepsOk(f: Festival, id: nat, user: UserId)
    requires Sound(f) && StartSession(f, id, user).Ok?
    ensures Sound(StartSession(f, id, user).value)
  {
    SameNumbers(f, StartSession(f, id, user).value);
  }

  lemma CloseKeepsOk(f: Festival, id: nat, user: UserId)
    requires Sound(f) && CloseSession(f, id, user).Ok?
    ensures Sound(CloseSession(f, id, user).value)
  {
    SameNumbers(f, CloseSession(f, id, user).value);
  }

  lemma VoucherKeepsOk(f: Festival, id: nat, user: UserId, session: SessionId)
    requires Sound(f) && IssueVoucher(f, id, user, session).Ok?
    ensures Sound(IssueVoucher(f, id, user, session).value)
  {
    SameNumbers(f, IssueVoucher(f, id, user, session).value);
  }

  lemma NextKeepsInv(w: World, step: Step)
    requires Inv(w)
    ensures Inv(Next(w, step))
  {
    var f := w.f;
    match step
    case ActivateStep(confirmed) => if Activate(f, confirmed).Ok? { ActivatingKeepsOk(f, confirmed); }
    case StatusStep(status) => if ChangeStatus(f, status).Ok? { StatusKeepsOk(f, status); }
    case CleanStep(nameConfirmed) => if CleanTestData(f, nameConfirmed).Ok? { CleanKeepsNumbers(f); }
    case StartStep(id, user) => if StartSession(f, id, user).Ok? { StartKeepsOk(f, id, user); }
    case CloseStep(id, user) => if CloseSession(f, id, user).Ok? { CloseKeepsOk(f, id, user); }
    case OrderStep(id, user, found) => if PlaceOrder(f, id, user, found).Ok? { OrdersKeepOk(f, id, user, found); }
    case SaleStep(id, user, session, station, failsLater) =>
      if QuickSale(f, id, user, session, station, failsLater).Ok? { SalesKeepOk(f, id, user, session, station, failsLater); }
    case VoucherStep(id, user, session) => if IssueVoucher(f, id, user, session).Ok? { VoucherKeepsOk(f, id, user, session); }
    case BackupStep =>
    case RestoreStep(backup) => if backup in w.backups { RebuildIsIdentity(backup); }
  }

  lemma {:induction false} RunKeepsInv(w: World, steps: seq<Step>)
    requires Inv(w)
    ensures Inv(Run(w, steps))
    decreases |steps|
  {
    if steps != [] {
      NextKeepsInv(w, steps[0]);
      RunKeepsInv(Next(w, steps[0]), steps[1..]);
    }
  }

  const Begin := World(Created, {})

  lemma BeginIsOk()
    ensures Inv(Begin)
  {
  }

  // ---- Main results ----

  /** In every run test and live data never meet, the mode can always be derived, and an open session
      has the mode its event runs in. */
  lemma TestAndLiveNeverMeet(steps: seq<Step>)
    ensures var f := Run(Begin, steps).f;
            && !(HasData(f, TEST) && HasData(f, LIVE))
            && ResolveOperationalDataMode(f.status, f.testMode).Ok?
            && (forall id :: id in f.sessions && ResolveOperationalDataMode(f.status, f.testMode).value.Some? ==>
                  f.sessions[id].mode == ResolveOperationalDataMode(f.status, f.testMode).value.value)
  {
    BeginIsOk();
    RunKeepsInv(Begin, steps);
  }

  /** So nothing is ever refused for a broken status or the mode of a session; issuing a voucher gives
      that answer only when the event does not run at all. */
  lemma ModeGuardsNeverFire(steps: seq<Step>, step: Step)
    ensures var f := Run(Begin, steps).f;
            && Outcome(f, step) != Err(InconsistentMode)
            && (Outcome(f, step) == Err(ModeMismatch) ==>
                  step.VoucherStep? && ResolveOperationalDataMode(f.status, f.testMode) == Ok(None))
  {
    TestAndLiveNeverMeet(steps);
  }

  /** The pickup numbers of either mode are exactly 1 to n, each given once, and n is the counter. */
  lemma PickupNumbersAreGapFree(steps: seq<Step>, mode: DataMode)
    ensures var f := Run(Begin, steps).f;
            var n := Last(f.counters, mode);
            && n <= MAX_PICKUP_NUMBER
            && (forall k: nat :: k in NumbersOf(f.orders, mode) <==> 1 <= k <= n)
            && (forall a, b :: a in f.orders && b in f.orders && a != b && f.orders[a].mode == f.orders[b].mode == mode && f.orders[a].pickup.Some?
                  ==> f.orders[a].pickup != f.orders[b].pickup)
  {
    BeginIsOk();
    RunKeepsInv(Begin, steps);
    assert mode == TEST || mode == LIVE;
  }

  /** A restored backup continues counting where it stood when it was taken. */
  lemma RestoreContinuesCounting(steps: seq<Step>, backup: Festival)
    requires backup in Run(Begin, steps).backups
    ensures Restored(backup) == backup
  {
    BeginIsOk();
    RunKeepsInv(Begin, steps);
    RebuildIsIdentity(backup);
  }

  ghost predicate NoRestore(steps: seq<Step>) {
    forall i :: 0 <= i < |steps| ==> !steps[i].RestoreStep?
  }

  /** A value voucher issued in test mode can never be cleaned away: its session stays, the event stays
      out of live mode. */
  lemma {:induction false} TestVoucherStays(w: World, steps: seq<Step>)
    requires Inv(w) && HasVoucher(w.f, TEST) && NoRestore(steps)
    ensures HasVoucher(Run(w, steps).f, TEST) && Run(w, steps).f.status != ACTIVE
    decreases |steps|
  {
    if steps != [] {
      NextKeepsInv(w, steps[0]);
      VoucherStays(w, steps[0]);
      TestVoucherStays(Next(w, steps[0]), steps[1..]);
    }
  }

  lemma VoucherStays(w: World, step: Step)
    requires Inv(w) && HasVoucher(w.f, TEST) && !step.RestoreStep?
    ensures HasVoucher(Next(w, step).f, TEST)
  {
    var v :| v in w.f.vouchers && w.f.vouchers[v] in w.f.sessions && w.f.sessions[w.f.vouchers[v]].mode == TEST;
    assert v in Next(w, step).f.vouchers && Next(w, step).f.vouchers[v] == w.f.vouchers[v];
  }

  lemma {:induction false} RunConcat(w: World, a: seq<Step>, b: seq<Step>)
    ensures Run(w, a + b) == Run(Run(w, a), b)
    decreases |a|
  {
    if a == [] {
      assert a + b == b;
    } else {
      assert (a + b)[1..] == a[1..] + b;
      RunConcat(Next(w, a[0]), a[1..], b);
    }
  }

  ghost function OpenSessions(f: Festival): set<SessionId> {
    set id | id in f.sessions && f.sessions[id].active
  }

  /** The same event with all its sessions closed. */
  ghost function Closed(f: Festival): Festival {
    f.(sessions := map id | id in f.sessions :: f.sessions[id].(active := false))
  }

  lemma {:induction false} SessionsCanBeClosed(w: World) returns (steps: seq<Step>)
    ensures NoRestore(steps) && Run(w, steps) == w.(f := Closed(w.f))
    decreases OpenSessions(w.f)
  {
    if OpenSessions(w.f) == {} {
      steps := [];
      assert forall id :: id in w.f.sessions ==> id !in OpenSessions(w.f);
      assert Closed(w.f).sessions == w.f.sessions;
    } else {
      var id :| id in OpenSessions(w.f);
      var step := CloseStep(id, w.f.sessions[id].user);
      var next := Next(w, step);
      assert next.f.sessions == w.f.sessions[id := w.f.sessions[id].(active := false)];
      assert OpenSessions(next.f) == OpenSessions(w.f) - {id};
      assert Closed(next.f).sessions == Closed(w.f).sessions;
      var rest := SessionsCanBeClosed(next);
      steps := [step] + rest;
      assert steps[1..] == rest;
    }
  }

  lemma ClosedHoldsTheSame(f: Festival, mode: DataMode)
    ensures HasData(Closed(f), mode) <==> HasData(f, mode)
    ensures HasVoucher(Closed(f), mode) <==> HasVoucher(f, mode)
    ensures !HasOpenSession(Closed(f))
  {
    var c := Closed(f);
    if s :| s in f.sessions && f.sessions[s].mode == mode { assert c.sessions[s].mode == mode; }
    if s :| s in c.sessions && c.sessions[s].mode == mode { assert f.sessions[s].mode == mode; }
    if v :| v in f.vouchers && f.vouchers[v] in f.sessions && f.sessions[f.vouchers[v]].mode == mode {
      assert c.vouchers[v] in c.sessions && c.sessions[c.vouchers[v]].mode == mode;
    }
    if v :| v in c.vouchers && c.vouchers[v] in c.sessions && c.sessions[c.vouchers[v]].mode == mode {
      assert f.vouchers[v] in f.sessions && f.sessions[f.vouchers[v]].mode == mode;
    }
  }

  lemma ActivatingGoesLive(w: World)
    requires !HasOpenSession(w.f) && !HasData(w.f, TEST)
    ensures Run(w, [ActivateStep(true)]).f.status == ACTIVE
  {
    assert [ActivateStep(true)][1..] == [];
  }

  /** Back to test mode, clean, activate. */
  lemma CleaningGoesLive(w: World)
    requires !HasOpenSession(w.f) && !HasData(w.f, LIVE) && !HasVoucher(w.f, TEST)
    ensures Run(w, [StatusStep(TEST_MODE), CleanStep(true), ActivateStep(true)]).f.status == ACTIVE
  {
    var test := Next(w, StatusStep(TEST_MODE));
    assert test.f == w.f.(status := TEST_MODE, testMode := true);
    var clean := Next(test, CleanStep(true));
    assert clean.f.sessions.Keys <= w.f.sessions.Keys;
    assert !HasData(clean.f, TEST) && !HasOpenSession(clean.f);
    ActivatingGoesLive(clean);
    assert [StatusStep(TEST_MODE), CleanStep(true), ActivateStep(true)][1..] == [CleanStep(true), ActivateStep(true)];
    assert [CleanStep(true), ActivateStep(true)][1..] == [ActivateStep(true)];
  }

  ghost predicate CanGoLive(w: World) {
    exists steps :: NoRestore(steps) && Run(w, steps).f.status == ACTIVE
  }

  lemma WithoutVoucherCanGoLive(w: World)
    requires Inv(w) && !HasVoucher(w.f, TEST)
    ensures CanGoLive(w)
  {
    var closing := SessionsCanBeClosed(w);
    var closed := Run(w, closing);
    ClosedHoldsTheSame(w.f, TEST);
    ClosedHoldsTheSame(w.f, LIVE);
    if HasData(closed.f, TEST) {
      var going := [StatusStep(TEST_MODE), CleanStep(true), ActivateStep(true)];
      CleaningGoesLive(closed);
      RunConcat(w, closing, going);
      assert NoRestore(closing + going);
    } else {
      ActivatingGoesLive(closed);
      RunConcat(w, closing, [ActivateStep(true)]);
      assert NoRestore(closing + [ActivateStep(true)]);
    }
  }

  /** Wherever a run has led, the event can still go live without restoring a backup exactly when no
      value voucher was issued in a TEST session it still has. */
  lemma TestVoucherBlocksLive(before: seq<Step>)
    ensures CanGoLive(Run(Begin, before)) <==> !HasVoucher(Run(Begin, before).f, TEST)
  {
    BeginIsOk();
    RunKeepsInv(Begin, before);
    var w := Run(Begin, before);
    if HasVoucher(w.f, TEST) {
      forall steps | NoRestore(steps) ensures Run(w, steps).f.status != ACTIVE {
        TestVoucherStays(w, steps);
      }
    } else {
      WithoutVoucherCanGoLive(w);
    }
  }

  /** Three steps are enough to get there. */
  lemma TestVouchersHappen()
    ensures HasVoucher(Run(Begin, [StatusStep(TEST_MODE), StartStep(0, 0), VoucherStep(0, 0, 0)]).f, TEST)
  {
    var steps := [StatusStep(TEST_MODE), StartStep(0, 0), VoucherStep(0, 0, 0)];
    assert steps[1..] == [StartStep(0, 0), VoucherStep(0, 0, 0)] && steps[1..][1..] == [VoucherStep(0, 0, 0)];
    assert [VoucherStep(0, 0, 0)][1..] == [];
    var test := Next(Begin, steps[0]);
    assert test.f == Created.(status := TEST_MODE, testMode := true);
    var open := Next(test, steps[1]);
    assert open.f == test.f.(sessions := map[0 := Session(0, TEST, true)]);
    var issued := Next(open, steps[2]);
    assert ActiveFor(open.f, 0, 0);
    assert issued.f.vouchers == map[0 := 0];
    assert 0 in issued.f.vouchers && issued.f.vouchers[0] in issued.f.sessions;
  }
}
