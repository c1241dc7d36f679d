/**
 * One worker processing one claimed job, and why its steps are always steps of the print protocol.
 * What the network and the printer answer is given as an environment; where it runs out, the worker
 * has died.
 */
module PrintWorker {
  import opened Common
  import opened PrintJobs
  import opened PrintProtocol

  const REPORT_RETRY_INITIAL_DELAY_MS := 1_000
  const REPORT_RETRY_MAX_DELAY_MS := 30_000

  datatype Reply = Accepted | LeaseConflict | Failed

  /** Before each attempt to report, the heartbeat may have found the lease lost. */
  datatype Turn = Turn(heartbeatLost: bool, reply: Reply)

  /** How the document and its delivery turned out; a document that cannot be prepared ends the call. */
  datatype Delivery = Delivered | TransportError(outcome: Outcome, code: string) | LostWhileSpooling | Unexpected | Unprepared

  datatype Act =
    | Confirmed                    // the backend acknowledged CLAIMED -> DELIVERING
    | Delivering                   // the adapter may put paper out from here on
    | Sent(outcome: Outcome, code: Option<string>, reply: Reply)

  function Power2(k: nat): nat { if k == 0 then 1 else 2 * Power2(k - 1) }

  /** The pause after the k-th failed report: doubled each time, up to the limit. */
  function Backoff(k: nat): nat {
    if k == 0 then REPORT_RETRY_INITIAL_DELAY_MS else Min(Backoff(k - 1) * 2, REPORT_RETRY_MAX_DELAY_MS)
  }

  lemma {:induction false} BackoffIsExponential(k: nat)
    ensures Backoff(k) == Min(REPORT_RETRY_INITIAL_DELAY_MS * Power2(k), REPORT_RETRY_MAX_DELAY_MS)
    ensures REPORT_RETRY_INITIAL_DELAY_MS <= Backoff(k) <= REPORT_RETRY_MAX_DELAY_MS
  {
    if k > 0 { BackoffIsExponential(k - 1); }
  }

  /** The reports that go out: one per turn, until one is answered for good or the lease is lost. */
  function Reports(outcome: Outcome, code: Option<string>, turns: seq<Turn>): seq<Act> {
    if turns == [] || turns[0].heartbeatLost then []
    else [Sent(outcome, code, turns[0].reply)] + if turns[0].reply == Failed then Reports(outcome, code, turns[1..]) else []
  }

  /** What a report says: the outcome and an error code. */
  type Verdict = (Outcome, Option<string>)

  function VerdictOf(d: Delivery): Option<Verdict> {
    match d
    case Delivered => Some((OutcomePrinted, None))
    case TransportError(outcome, code) => Some((outcome, Some(code)))
    case LostWhileSpooling => None
    case Unprepared => None
    case Unexpected => Some((OutcomeUnclear, Some("UNEXPECTED")))
  }

  /** Everything one call does. */
  function Processed(configurationOk: bool, confirm: Reply, delivery: Delivery, turns: seq<Turn>): seq<Act> {
    if !configurationOk then Reports(OutcomeNotPrinted, Some("PRINTER_CONFIGURATION"), turns)
    else if confirm != Accepted then []
    else if delivery == Unprepared then [Confirmed]
    else
      var verdict := VerdictOf(delivery);
      [Confirmed, Delivering] + if verdict.None? then [] else Reports(verdict.value.0, verdict.value.1, turns)
  }

  /** Reports until the backend has answered, waiting longer after each failure; delayMs is the next pause. */
  method ReportOutcomePersistent(outcome: Outcome, code: Option<string>, turns: seq<Turn>) returns (sent: seq<Act>, failures: nat, delayMs: nat)
    ensures sent == Reports(outcome, code, turns)
    ensures |sent| - 1 <= failures <= |sent| && delayMs == Backoff(failures)
  {
    sent, failures, delayMs := [], 0, REPORT_RETRY_INITIAL_DELAY_MS;
    var held := true;
    while held && failures < |turns|
      invariant failures <= |turns| && delayMs == Backoff(failures)
      invariant if held then failures == |sent| else |sent| - 1 <= failures <= |sent|
      invariant sent + (if held then Reports(outcome, code, turns[failures..]) else []) == Reports(outcome, code, turns)
      decreases |turns| - failures, held
    {
      var turn, rest := turns[failures], turns[failures + 1..];
      assert turns[failures..] == [turn] + rest;
      if turn.heartbeatLost {
        held := false;
      } else {
        OneMore(sent, Sent(outcome, code, turn.reply), Reports(outcome, code, rest));
        sent := sent + [Sent(outcome, code, turn.reply)];
        if turn.reply != Failed {
          held := false;
        } else {
          failures := failures + 1;
          delayMs := Min(delayMs * 2, REPORT_RETRY_MAX_DELAY_MS);
        }
      }
    }
    assert held ==> turns[failures..] == [];
  }

  lemma OneMore(sent: seq<Act>, a: Act, rest: seq<Act>)
    ensures sent + ([a] + rest) == (sent + [a]) + rest
    ensures sent + ([a] + []) == (sent + [a]) + []
    ensures sent + [] == sent
  {
  }

  /** No byte goes to the printer before the backend confirmed the phase. */
  method ProcessJob(configurationOk: bool, confirm: Reply, delivery: Delivery, turns: seq<Turn>) returns (acts: seq<Act>)
    ensures acts == Processed(configurationOk, confirm, delivery, turns)
  {
    if !configurationOk {
      var sent, _, _ := ReportOutcomePersistent(OutcomeNotPrinted, Some("PRINTER_CONFIGURATION"), turns);
      return sent;
    }
    if confirm != Accepted { return []; }
    if delivery == Unprepared { return [Confirmed]; }
    var verdict := VerdictOf(delivery);
    if verdict.None? { return [Confirmed, Delivering] + []; }
    var sent, _, _ := ReportOutcomePersistent(verdict.value.0, verdict.value.1, turns);
    return [Confirmed, Delivering] + sent;
  }

  // ---- What the worker never does ----

  predicate Says(a: Act, outcome: Outcome, code: Option<string>) { a.Sent? && a.outcome == outcome && a.code == code }

  /** The same report again and again, and nothing after an answer. */
  ghost predicate OneReport(sent: seq<Act>, outcome: Outcome, code: Option<string>) {
    && (forall i :: 0 <= i < |sent| ==> Says(sent[i], outcome, code))
    && (forall i :: 0 <= i < |sent| - 1 ==> sent[i] == Sent(outcome, code, Failed))
  }

  lemma {:induction false} ReportsAreAlike(outcome: Outcome, code: Option<string>, turns: seq<Turn>)
    ensures OneReport(Reports(outcome, code, turns), outcome, code)
    decreases |turns|
  {
    if turns != [] && !turns[0].heartbeatLost && turns[0].reply == Failed {
      ReportsAreAlike(outcome, code, turns[1..]);
      var rest := Reports(outcome, code, turns[1..]);
      var sent := [Sent(outcome, code, Failed)] + rest;
      forall i | 0 <= i < |sent| ensures Says(sent[i], outcome, code) { if i > 0 { assert Says(rest[i - 1], outcome, code); } }
      forall i | 0 <= i < |sent| - 1 ensures sent[i] == Sent(outcome, code, Failed) { if i > 0 { assert sent[i] == rest[i - 1]; } }
    }
  }

  /** Delivery comes after the confirmation and at most once; every report of a call says the same; nothing
      follows an answered report; and without a delivery the only report is NOT_PRINTED, and that is
      made only before the confirmation. */
  lemma WorkerIsCareful(configurationOk: bool, confirm: Reply, delivery: Delivery, turns: seq<Turn>)
    ensures var acts := Processed(configurationOk, confirm, delivery, turns);
            if Delivering in acts
            then confirm == Accepted && acts[..2] == [Confirmed, Delivering]
                 && (acts[2..] == [] || exists outcome, code :: VerdictOf(delivery) == Some((outcome, code)) && OneReport(acts[2..], outcome, code))
            else acts == [Confirmed] || OneReport(acts, OutcomeNotPrinted, Some("PRINTER_CONFIGURATION"))
  {
    ReportsAreAlike(OutcomeNotPrinted, Some("PRINTER_CONFIGURATION"), turns);
    var acts, verdict := Processed(configurationOk, confirm, delivery, turns), VerdictOf(delivery);
    if !configurationOk {
      forall i | 0 <= i < |acts| ensures acts[i] != Delivering { assert Says(acts[i], OutcomeNotPrinted, Some("PRINTER_CONFIGURATION")); }
    } else if confirm == Accepted && delivery != Unprepared {
      assert acts[1] == Delivering && acts[..2] == [Confirmed, Delivering];
      if verdict.Some? {
        ReportsAreAlike(verdict.value.0, verdict.value.1, turns);
        assert acts[2..] == Reports(verdict.value.0, verdict.value.1, turns);
      }
    }
  }

  // ---- What the worker always does ----

  /** The k-th turn is the first that ends reporting: the backend has answered, or the lease is lost. */
  ghost predicate EndsAt(turns: seq<Turn>, k: nat) {
    k < |turns| && turns[k] != Turn(false, Failed) && forall i :: 0 <= i < k ==> turns[i] == Turn(false, Failed)
  }

  /** One report in every turn up to that one, the last unless the lease was lost. */
  ghost predicate Reported(sent: seq<Act>, outcome: Outcome, code: Option<string>, turns: seq<Turn>, k: nat) {
    && EndsAt(turns, k) && |sent| == (if turns[k].heartbeatLost then k else k + 1)
    && forall i :: 0 <= i < |sent| ==> sent[i] == Sent(outcome, code, turns[i].reply)
  }

  lemma {:induction false} ReportsUntilAnswered(outcome: Outcome, code: Option<string>, turns: seq<Turn>, k: nat)
    requires EndsAt(turns, k)
    ensures Reported(Reports(outcome, code, turns), outcome, code, turns, k)
    decreases k
  {
    if k > 0 {
      assert turns[0] == Turn(false, Failed);
      ReportsUntilAnswered(outcome, code, turns[1..], k - 1);
    }
  }

  /** Whatever becomes of a confirmed job is reported as what it was, until the backend has answered; only a lost
      lease and a document that cannot be prepared end a call in silence. */
  lemma WorkerReportsBack(confirm: Reply, delivery: Delivery, turns: seq<Turn>, k: nat)
    requires EndsAt(turns, k)
    ensures Reported(Processed(false, confirm, delivery, turns), OutcomeNotPrinted, Some("PRINTER_CONFIGURATION"), turns, k)
    ensures confirm != Accepted ==> Processed(true, confirm, delivery, turns) == []
    ensures var acts := Processed(true, Accepted, delivery, turns);
            match delivery
            case Unprepared => acts == [Confirmed]
            case LostWhileSpooling => acts == [Confirmed, Delivering]
            case Delivered => |acts| >= 2 && acts[..2] == [Confirmed, Delivering] && Reported(acts[2..], OutcomePrinted, None, turns, k)
            case Unexpected => |acts| >= 2 && acts[..2] == [Confirmed, Delivering] && Reported(acts[2..], OutcomeUnclear, Some("UNEXPECTED"), turns, k)
            case TransportError(outcome, code) => |acts| >= 2 && acts[..2] == [Confirmed, Delivering] && Reported(acts[2..], outcome, Some(code), turns, k)
  {
    ReportsUntilAnswered(OutcomeNotPrinted, Some("PRINTER_CONFIGURATION"), turns, k);
    var acts, verdict := Processed(true, Accepted, delivery, turns), VerdictOf(delivery);
    if verdict.Some? {
      ReportsUntilAnswered(verdict.value.0, verdict.value.1, turns, k);
      assert acts[..2] == [Confirmed, Delivering] && acts[2..] == Reports(verdict.value.0, verdict.value.1, turns);
    }
  }

  // ---- Its acts are events that the protocol allows ----

  predicate Names(e: Event, l: LeaseId) {
    match e
    case ClaimJob(_, lease, _) => lease == l
    case ConfirmDelivering(lease, _) => lease == l
    case PaperOut(lease) => lease == l
    case Decide(lease, _, _) => lease == l
    case _ => false
  }

  /** What others do never touches an attempt. */
  lemma AttemptIsOwn(s: System, e: Event, l: LeaseId)
    requires l in s.attempts && !Names(e, l)
    ensures l in Next(s, e).attempts && Next(s, e).attempts[l] == s.attempts[l]
  {
    match e
    case ClaimJob(id, lease, now) =>
    case ConfirmDelivering(lease, now) =>
    case PaperOut(lease) =>
    case Decide(lease, outcome, code) =>
    case _ =>
  }

  /** The events among these that are the attempt's own. */
  function Own(events: seq<Event>, l: LeaseId): seq<Event> {
    if events == [] then [] else (if Names(events[0], l) then [events[0]] else []) + Own(events[1..], l)
  }

  /** What the worker has decided to say, once it says anything. */
  function Said(acts: seq<Act>): Option<Verdict> {
    if acts == [] then None
    else
      match acts[0]
      case Sent(outcome, code, _) => Some((outcome, code))
      case _ => Said(acts[1..])
  }

  function Ending(l: LeaseId, paper: bool, said: Option<Verdict>): seq<Event> {
    (if paper then [PaperOut(l)] else []) + (if said.Some? then [Decide(l, said.value.0, said.value.1)] else [])
  }

  /** One call as events of its attempt: it asks for the confirmation unless the printer's configuration
      is broken, paper comes out or not, and it decides on its verdict.  Reports are not among them;
      they repeat the verdict and leave the attempt alone. */
  function Script(l: LeaseId, asks: bool, now: int, paper: bool, said: Option<Verdict>): seq<Event> {
    if asks then [ConfirmDelivering(l, now)] + Ending(l, paper, said) else Ending(l, paper, said)
  }

  /** Up to its first own event others leave the attempt alone. */
  lemma {:induction false} NextOwn(s: System, events: seq<Event>, l: LeaseId) returns (before: System, rest: seq<Event>)
    requires l in s.attempts && Own(events, l) != []
    ensures l in before.attempts && before.attempts[l] == s.attempts[l]
    ensures Run(s, events) == Run(Next(before, Own(events, l)[0]), rest) && Own(rest, l) == Own(events, l)[1..]
    decreases |events|
  {
    if Names(events[0], l) {
      before, rest := s, events[1..];
    } else {
      AttemptIsOwn(s, events[0], l);
      before, rest := NextOwn(Next(s, events[0]), events[1..], l);
    }
  }

  lemma {:induction false} NothingOwn(s: System, events: seq<Event>, l: LeaseId)
    requires l in s.attempts && Own(events, l) == []
    ensures l in Run(s, events).attempts && Run(s, events).attempts[l] == s.attempts[l]
    decreases |events|
  {
    if events != [] {
      AttemptIsOwn(s, events[0], l);
      NothingOwn(Next(s, events[0]), events[1..], l);
    }
  }

  /** A verdict that the protocol allows is taken. */
  lemma VerdictIsTaken(s: System, events: seq<Event>, l: LeaseId, outcome: Outcome, code: Option<string>)
    requires l in s.attempts && Own(events, l) == [Decide(l, outcome, code)] && s.attempts[l].verdict.None?
    requires if outcome == OutcomeNotPrinted then !s.attempts[l].paper else s.attempts[l].confirmed
    ensures l in Run(s, events).attempts && Run(s, events).attempts[l] == s.attempts[l].(verdict := Some(outcome), code := code)
  {
    var before, rest := NextOwn(s, events, l);
    NothingOwn(Next(before, Decide(l, outcome, code)), rest, l);
  }

  function Ended(a: Attempt, paper: bool, said: Option<Verdict>): Attempt {
    if said.Some? then a.(paper := paper, verdict := Some(said.value.0), code := said.value.1) else a.(paper := paper)
  }

  ghost predicate Untouched(s: System, l: LeaseId) {
    l in s.attempts && s.attempts[l].verdict.None? && s.attempts[l].code.None? && !s.attempts[l].paper
  }

  predicate NotPrinted(said: Option<Verdict>) { said.Some? && said.value.0 == OutcomeNotPrinted }

  /** Paper, if any, and the verdict. */
  lemma EndingIsTaken(s: System, events: seq<Event>, l: LeaseId, paper: bool, said: Option<Verdict>)
    requires Untouched(s, l) && Own(events, l) == Ending(l, paper, said)
    requires paper ==> s.attempts[l].confirmed && !NotPrinted(said)
    requires said.Some? && !NotPrinted(said) ==> s.attempts[l].confirmed
    ensures l in Run(s, events).attempts && Run(s, events).attempts[l] == Ended(s.attempts[l], paper, said)
  {
    var s', rest := s, events;
    if paper {
      var before;
      before, rest := NextOwn(s, events, l);
      s' := Next(before, PaperOut(l));
    }
    if said.Some? {
      VerdictIsTaken(s', rest, l, said.value.0, said.value.1);
    } else {
      NothingOwn(s', rest, l);
    }
  }

  predicate NeverAsks(own: seq<Event>) { forall i :: 0 <= i < |own| ==> !own[i].ConfirmDelivering? }

  lemma {:induction false} ConfirmedStays(s: System, events: seq<Event>, l: LeaseId)
    requires l in s.attempts && NeverAsks(Own(events, l))
    ensures l in Run(s, events).attempts && Run(s, events).attempts[l].confirmed == s.attempts[l].confirmed
    decreases |events|
  {
    if events != [] {
      var own, rest := Own(events, l), Own(events[1..], l);
      if Names(events[0], l) {
        assert own[0] == events[0];
        forall i | 0 <= i < |rest| ensures !rest[i].ConfirmDelivering? { assert rest[i] == own[i + 1]; }
      } else {
        assert own == [] + rest == rest;
        AttemptIsOwn(s, events[0], l);
      }
      ConfirmedStays(Next(s, events[0]), events[1..], l);
    }
  }

  ghost predicate IsConfirmed(s: System, l: LeaseId) { l in s.attempts && s.attempts[l].confirmed }

  lemma ScriptIsTaken(s: System, events: seq<Event>, l: LeaseId, asks: bool, now: int, paper: bool, said: Option<Verdict>)
    requires Untouched(s, l) && !s.attempts[l].confirmed && Own(events, l) == Script(l, asks, now, paper, said)
    requires paper || (said.Some? && !NotPrinted(said)) ==> asks && IsConfirmed(Run(s, events), l)
    requires paper ==> !NotPrinted(said)
    ensures l in Run(s, events).attempts
    ensures Run(s, events).attempts[l] == Ended(s.attempts[l], paper, said).(confirmed := Run(s, events).attempts[l].confirmed)
  {
    var s', rest := s, events;
    if asks {
      var before;
      before, rest := NextOwn(s, events, l);
      s' := Next(before, ConfirmDelivering(l, now));
      assert ([ConfirmDelivering(l, now)] + Ending(l, paper, said))[1..] == Ending(l, paper, said);
    }
    ConfirmedStays(s', rest, l);
    EndingIsTaken(s', rest, l, paper, said);
  }

  lemma {:induction false} SaidByReports(outcome: Outcome, code: Option<string>, turns: seq<Turn>)
    ensures Said(Reports(outcome, code, turns)) == if Reports(outcome, code, turns) == [] then None else Some((outcome, code))
  {
  }

  lemma WhatIsSaid(configurationOk: bool, confirm: Reply, delivery: Delivery, turns: seq<Turn>)
    ensures var acts := Processed(configurationOk, confirm, delivery, turns);
            && (Said(acts).Some? && configurationOk ==> Confirmed in acts && VerdictOf(delivery) == Said(acts))
            && (Said(acts).Some? && !configurationOk ==> NotPrinted(Said(acts)))
            && (Delivering in acts ==> configurationOk && Confirmed in acts)
  {
    var acts := Processed(configurationOk, confirm, delivery, turns);
    WorkerIsCareful(configurationOk, confirm, delivery, turns);
    if !configurationOk {
      SaidByReports(OutcomeNotPrinted, Some("PRINTER_CONFIGURATION"), turns);
    } else if confirm == Accepted && delivery != Unprepared {
      var verdict := VerdictOf(delivery);
      var sent := if verdict.None? then [] else Reports(verdict.value.0, verdict.value.1, turns);
      if verdict.Some? { SaidByReports(verdict.value.0, verdict.value.1, turns); }
      assert acts[0] == Confirmed && acts[1..] == [Delivering] + sent && ([Delivering] + sent)[1..] == sent;
      assert Said(acts) == Said([Delivering] + sent) == Said(sent);
    }
  }

  /** A call of the worker is a run of the protocol: whatever happens in between, each step the call
      takes is one the protocol takes too, and the attempt ends as the call says.  Assumed are only that
      the backend confirmed what it answered, and that NOT_PRINTED means no paper. */
  lemma WorkerFollowsProtocol(s: System, events: seq<Event>, l: LeaseId, now: int, paper: bool,
                              configurationOk: bool, confirm: Reply, delivery: Delivery, turns: seq<Turn>)
    requires Untouched(s, l) && !s.attempts[l].confirmed
    requires var acts := Processed(configurationOk, confirm, delivery, turns);
             && Own(events, l) == Script(l, configurationOk, now, paper, Said(acts))
             && (Confirmed in acts ==> IsConfirmed(Run(s, events), l))
             && (paper ==> Delivering in acts && !NotPrinted(VerdictOf(delivery)))
    ensures l in Run(s, events).attempts
    ensures Run(s, events).attempts[l]
         == Ended(s.attempts[l], paper, Said(Processed(configurationOk, confirm, delivery, turns)))
            .(confirmed := Run(s, events).attempts[l].confirmed)
  {
    WhatIsSaid(configurationOk, confirm, delivery, turns);
    ScriptIsTaken(s, events, l, configurationOk, now, paper, Said(Processed(configurationOk, confirm, delivery, turns)));
  }
}
