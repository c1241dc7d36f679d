/** What each step of an event needs and does, in every state it can reach. */
module EventLaws {
  import opened Common
  import opened EventModes

  // ---- The mode an event runs in ----

  ghost predicate Runs(f: Festival, mode: DataMode) {
    if mode == LIVE then f.status == ACTIVE else f.status == TEST_MODE
  }

  /** In every run the status alone says whether and how an event runs: nothing is ever refused as inconsistent. */
  lemma StatusSaysMode(steps: seq<Step>, mode: DataMode)
    ensures var f := Run(Begin, steps).f;
            var resolved := ResolveOperationalDataMode(f.status, f.testMode);
            && resolved.Ok? && (resolved.value == Some(mode) <==> Runs(f, mode))
            && (resolved.value.None? <==> f.status != ACTIVE && f.status != TEST_MODE)
  {
    TestAndLiveNeverMeet(steps);
  }

  // ---- Changing status ----

  ghost predicate Holds(f: Festival, mode: DataMode) {
    (exists id :: id in f.orders && f.orders[id].mode == mode) || (exists id :: id in f.sessions && f.sessions[id].mode == mode)
  }

  ghost predicate NobodySells(f: Festival) { forall id :: id in f.sessions ==> !f.sessions[id].active }

  /** Going live for the first time takes the confirmation, closed sessions and no TEST data; nothing is deleted. */
  lemma GoingLive(f: Festival, confirmed: bool)
    ensures Activate(f, confirmed).Ok? <==> confirmed && NobodySells(f) && !Holds(f, TEST)
    ensures Activate(f, confirmed).Ok? ==> Activate(f, confirmed).value == f.(status := ACTIVE, testMode := false, rksvConfirmed := true)
    ensures Activate(f, confirmed) == Err(NotConfirmed) <==> !confirmed
  {
  }

  /** Running in either mode takes closed sessions and no data of the other one, live also the confirmation; every
      other status can be taken up at any time and leaves the test flag as it was. */
  lemma ChangingStatus(f: Festival, status: EventStatus)
    ensures ChangeStatus(f, status).Ok?
            <==> match status
                 case ACTIVE => f.rksvConfirmed && NobodySells(f) && !Holds(f, TEST)
                 case TEST_MODE => NobodySells(f) && !Holds(f, LIVE)
                 case _ => true
    ensures ChangeStatus(f, status).Ok? ==>
              var f' := ChangeStatus(f, status).value;
              && f' == f.(status := status, testMode := f'.testMode)
              && (if Runs(f', TEST) then f'.testMode else if Runs(f', LIVE) then !f'.testMode else f'.testMode == f.testMode)
    ensures ChangeStatus(f, status) == Err(NotConfirmed) <==> status == ACTIVE && !f.rksvConfirmed
  {
  }

  /** Cleaning works in test mode, under the event's name, while no value voucher of a TEST session is left.  Nothing of
      any sale is there afterwards: in a reachable event everything was TEST. */
  lemma CleaningEmpties(steps: seq<Step>, nameConfirmed: bool)
    ensures var f := Run(Begin, steps).f;
            && (CleanTestData(f, nameConfirmed).Ok?
                <==> f.status == TEST_MODE && nameConfirmed
                     && forall v :: v in f.vouchers && f.vouchers[v] in f.sessions ==> f.sessions[f.vouchers[v]].mode == LIVE)
            && (CleanTestData(f, nameConfirmed).Ok? ==>
                  CleanTestData(f, nameConfirmed).value
                  == f.(orders := map[], sessions := map[], counters := f.counters - {TEST}, status := PREPARED, testMode := false))
  {
    BeginIsOk();
    RunKeepsInv(Begin, steps);
    var f := Run(Begin, steps).f;
    if CleanTestData(f, nameConfirmed).Ok? {
      var f' := CleanTestData(f, nameConfirmed).value;
      assert f'.orders == map[] && f'.sessions == map[];
    }
  }

  // ---- Sessions, orders, sales and vouchers ----

  ghost predicate Selling(f: Festival, session: SessionId, user: UserId) {
    session in f.sessions && f.sessions[session].user == user && f.sessions[session].active
  }

  /** One open session a user, in the mode the event runs in. */
  lemma OpeningSession(steps: seq<Step>, id: SessionId, user: UserId, mode: DataMode)
    requires Runs(Run(Begin, steps).f, mode)
    ensures var f := Run(Begin, steps).f;
            && (StartSession(f, id, user).Ok? <==> id !in f.sessions && forall s :: s in f.sessions && f.sessions[s].user == user ==> !f.sessions[s].active)
            && (StartSession(f, id, user).Ok? ==> StartSession(f, id, user).value == f.(sessions := f.sessions[id := Session(user, mode, true)]))
  {
    StatusSaysMode(steps, mode);
    var f := Run(Begin, steps).f;
    if s :| s in f.sessions && f.sessions[s].user == user && f.sessions[s].active { assert ActiveFor(f, s, user); }
  }

  /** Only its user closes a session, once. */
  lemma ClosingSession(f: Festival, id: SessionId, user: UserId)
    ensures CloseSession(f, id, user).Ok? <==> Selling(f, id, user)
    ensures CloseSession(f, id, user).Ok? ==>
              var f' := CloseSession(f, id, user).value;
              f' == f.(sessions := f.sessions[id := f.sessions[id].(active := false)]) && !CloseSession(f', id, user).Ok?
  {
  }

  /** While the event runs, an order is taken from anyone, in the event's mode; a session that was found is kept with it. */
  lemma TakingOrder(steps: seq<Step>, id: nat, user: UserId, found: Option<SessionId>, mode: DataMode)
    requires Runs(Run(Begin, steps).f, mode)
    ensures var f := Run(Begin, steps).f;
            && (PlaceOrder(f, id, user, found).Ok? <==> id !in f.orders && (found.Some? ==> Selling(f, found.value, user)))
            && (PlaceOrder(f, id, user, found).Ok? ==> PlaceOrder(f, id, user, found).value == f.(orders := f.orders[id := Order(mode, found, None)]))
  {
    StatusSaysMode(steps, mode);
    BeginIsOk();
    RunKeepsInv(Begin, steps);
  }

  /** While the event runs, a quick sale takes an open session of the user's own; at a station it draws the number after
      the largest one so far, unless that was 99999, and elsewhere none. */
  lemma QuickSelling(steps: seq<Step>, id: nat, user: UserId, session: SessionId, station: bool, failsLater: bool, mode: DataMode)
    requires Runs(Run(Begin, steps).f, mode)
    ensures var f := Run(Begin, steps).f;
            && (QuickSale(f, id, user, session, station, failsLater).Ok?
                <==> Selling(f, session, user) && id !in f.orders && !failsLater && (station ==> 99_999 !in NumbersOf(f.orders, mode)))
            && (QuickSale(f, id, user, session, station, failsLater).Ok? ==>
                  var f' := QuickSale(f, id, user, session, station, failsLater).value;
                  && f' == f.(orders := f'.orders, counters := f'.counters)
                  && (!station ==> f'.orders == f.orders[id := Order(mode, Some(session), None)] && f'.counters == f.counters)
                  && (station ==> exists n: nat :: StationSale(f, f', id, session, mode, n)))
  {
    StatusSaysMode(steps, mode);
    BeginIsOk();
    RunKeepsInv(Begin, steps);
    var f := Run(Begin, steps).f;
    assert GapFree(f, mode);
    assert 99_999 in NumbersOf(f.orders, mode) <==> Last(f.counters, mode) == 99_999;
    var n := Last(f.counters, mode) + 1;
    assert n !in NumbersOf(f.orders, mode);
    if QuickSale(f, id, user, session, station, failsLater).Ok? && station {
      assert StationSale(f, QuickSale(f, id, user, session, station, failsLater).value, id, session, mode, n);
    }
  }

  /** A sale with the number n, after all of its mode; the other mode's counter stands still. */
  ghost predicate StationSale(f: Festival, f': Festival, id: nat, session: SessionId, mode: DataMode, n: nat) {
    && f'.orders == f.orders[id := Order(mode, Some(session), Some(n))] && f'.counters == f.counters[mode := n]
    && n >= 1 && forall k: nat :: k in NumbersOf(f.orders, mode) <==> 1 <= k < n
  }

  /** While the event runs, a value voucher takes an open session of the user's own. */
  lemma IssuingVoucher(steps: seq<Step>, id: nat, user: UserId, session: SessionId, mode: DataMode)
    requires Runs(Run(Begin, steps).f, mode)
    ensures var f := Run(Begin, steps).f;
            && (IssueVoucher(f, id, user, session).Ok? <==> Selling(f, session, user) && id !in f.vouchers)
            && (IssueVoucher(f, id, user, session).Ok? ==> IssueVoucher(f, id, user, session).value == f.(vouchers := f.vouchers[id := session]))
  {
    StatusSaysMode(steps, mode);
    BeginIsOk();
    RunKeepsInv(Begin, steps);
  }

  /** When the event does not run, nobody sells. */
  lemma NothingWhileStopped(steps: seq<Step>, id: nat, user: UserId, session: SessionId, station: bool, failsLater: bool, found: Option<SessionId>)
    requires var f := Run(Begin, steps).f; f.status != ACTIVE && f.status != TEST_MODE
    ensures var f := Run(Begin, steps).f;
            && StartSession(f, id, user) == PlaceOrder(f, id, user, found) == QuickSale(f, id, user, session, station, failsLater) == Err(NotRunning)
            && IssueVoucher(f, id, user, session).Err?
  {
    StatusSaysMode(steps, LIVE);
  }
}
