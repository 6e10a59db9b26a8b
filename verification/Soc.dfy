/** Fraud alerts, their investigation cases, and the audit log that records every status change. */
module Soc {
  import opened Sums

  datatype AlertStatus = OPEN | INVESTIGATING | RESOLVED | FALSE_POSITIVE

  datatype Case = Case(alert: nat, status: AlertStatus, outcome: Option<AlertStatus>)

  datatype Entry =
    | AlertRaised(alert: nat)
    | AlertChanged(alert: nat, previous: AlertStatus, next: AlertStatus)
    | CaseOpened(id: nat, alert: nat)
    | CaseChanged(id: nat, alert: nat, previous: AlertStatus, next: AlertStatus)

  datatype Desk = Desk(alerts: seq<AlertStatus>, cases: seq<Case>, log: seq<Entry>)

  datatype Action =
    | Raise
    | UpdateAlert(alert: nat, status: AlertStatus)
    | CreateCase(alert: nat)
    | UpdateCase(id: nat, status: AlertStatus)

  // ---- The operations, each one step ----

  function OutcomeOf(status: AlertStatus): Option<AlertStatus> {
    if status == RESOLVED || status == FALSE_POSITIVE then Some(status) else None
  }

  predicate HasCase(d: Desk, alert: nat) {
    exists c :: 0 <= c < |d.cases| && d.cases[c].alert == alert
  }

  function SetAlert(d: Desk, alert: nat, status: AlertStatus): Desk
    requires alert < |d.alerts|
  {
    d.(alerts := d.alerts[alert := status], log := d.log + [AlertChanged(alert, d.alerts[alert], status)])
  }

  /** None when the service throws; then nothing has changed. */
  function Act(d: Desk, action: Action): Option<Desk> {
    match action
    case Raise => Some(d.(alerts := d.alerts + [OPEN], log := d.log + [AlertRaised(|d.alerts|)]))
    case UpdateAlert(alert, status) =>
      if alert >= |d.alerts| || d.alerts[alert] == status then None else Some(SetAlert(d, alert, status))
    case CreateCase(alert) =>
      if alert >= |d.alerts| || HasCase(d, alert) then None
      else
        var d' := if d.alerts[alert] == OPEN then SetAlert(d, alert, INVESTIGATING) else d;
        var status := if OutcomeOf(d.alerts[alert]).Some? then d.alerts[alert] else INVESTIGATING;
        Some(d'.(cases := d.cases + [Case(alert, status, OutcomeOf(d.alerts[alert]))],
                 log := d'.log + [CaseOpened(|d.cases|, alert)]))
    case UpdateCase(id, status) =>
      if id >= |d.cases| || d.cases[id].status == status then None
      else
        var c := d.cases[id];
        if c.alert >= |d.alerts| || d.alerts[c.alert] == status then None
        else
          var d' := SetAlert(d, c.alert, status);
          Some(d'.(cases := d.cases[id := Case(c.alert, status, OutcomeOf(status))],
                   log := d'.log + [CaseChanged(id, c.alert, c.status, status)]))
  }

  function Run(d: Desk, actions: seq<Action>): Desk {
    if actions == [] then d
    else
      var before := Run(d, actions[..|actions| - 1]);
      var after := Act(before, actions[|actions| - 1]);
      if after.Some? then after.value else before
  }

  const EMPTY := Desk([], [], [])

  // ---- The log reconstructs the tables ----

  datatype Tables = Tables(alerts: seq<AlertStatus>, cases: seq<Case>)

  /** One audit entry, read back; the status a case was created with is its alert's at that point. */
  function Reread(t: Tables, e: Entry): Tables {
    match e
    case AlertRaised(_) => t.(alerts := t.alerts + [OPEN])
    case AlertChanged(alert, _, next) =>
      if alert < |t.alerts| then t.(alerts := t.alerts[alert := next]) else t
    case CaseOpened(_, alert) =>
      if alert < |t.alerts|
      then t.(cases := t.cases + [Case(alert, t.alerts[alert], OutcomeOf(t.alerts[alert]))])
      else t
    case CaseChanged(id, alert, _, next) =>
      if id < |t.cases| then t.(cases := t.cases[id := Case(alert, next, OutcomeOf(next))]) else t
  }

  function Replay(log: seq<Entry>): Tables {
    if log == [] then Tables([], []) else Reread(Replay(log[..|log| - 1]), log[|log| - 1])
  }

  /** The entry continues the chain of its alert or case: it starts where the log so far had left it. */
  ghost predicate Continues(t: Tables, e: Entry) {
    match e
    case AlertRaised(alert) => alert == |t.alerts|
    case AlertChanged(alert, previous, next) =>
      alert < |t.alerts| && t.alerts[alert] == previous && previous != next
    case CaseOpened(id, alert) => id == |t.cases| && alert < |t.alerts| && t.alerts[alert] != OPEN
    case CaseChanged(id, alert, previous, next) =>
      id < |t.cases| && t.cases[id].alert == alert && t.cases[id].status == previous && previous != next
  }

  ghost predicate Chained(log: seq<Entry>) {
    forall i :: 0 <= i < |log| ==> Continues(Replay(log[..i]), log[i])
  }

  lemma {:induction false} Append(log: seq<Entry>, e: Entry)
    requires Chained(log) && Continues(Replay(log), e)
    ensures Replay(log + [e]) == Reread(Replay(log), e) && Chained(log + [e])
  {
    assert (log + [e])[..|log|] == log;
    forall i | 0 <= i < |log + [e]| ensures Continues(Replay((log + [e])[..i]), (log + [e])[i]) {
      if i < |log| {
        assert (log + [e])[..i] == log[..i];
        assert Continues(Replay(log[..i]), log[i]);
      }
    }
  }

  /** A case names an existing alert, no two name the same one, and its outcome follows its status. */
  ghost predicate CasesOk(d: Desk) {
    && (forall c :: 0 <= c < |d.cases| ==>
         && d.cases[c].alert < |d.alerts|
         && d.cases[c].outcome == if d.cases[c].status in {RESOLVED, FALSE_POSITIVE} then Some(d.cases[c].status)
                                  else None)
    && (forall c, c' :: 0 <= c < c' < |d.cases| ==> d.cases[c].alert != d.cases[c'].alert)
  }

  ghost predicate Inv(d: Desk) {
    CasesOk(d) && Replay(d.log) == Tables(d.alerts, d.cases) && Chained(d.log)
  }

  lemma {:induction false} SetAlertKeeps(d: Desk, alert: nat, status: AlertStatus)
    requires Inv(d) && alert < |d.alerts| && d.alerts[alert] != status
    ensures Inv(SetAlert(d, alert, status))
  {
    Append(d.log, AlertChanged(alert, d.alerts[alert], status));
  }

  lemma {:induction false} OpenCaseKeeps(d: Desk, alert: nat)
    requires Inv(d) && alert < |d.alerts| && d.alerts[alert] != OPEN && !HasCase(d, alert)
    ensures Inv(d.(cases := d.cases + [Case(alert, d.alerts[alert], OutcomeOf(d.alerts[alert]))],
                   log := d.log + [CaseOpened(|d.cases|, alert)]))
  {
    Append(d.log, CaseOpened(|d.cases|, alert));
  }

  lemma {:induction false} ChangeCaseKeeps(d: Desk, id: nat, status: AlertStatus)
    requires Inv(d) && id < |d.cases| && d.cases[id].status != status
    ensures var c := d.cases[id];
            Inv(d.(cases := d.cases[id := Case(c.alert, status, OutcomeOf(status))],
                   log := d.log + [CaseChanged(id, c.alert, c.status, status)]))
  {
    Append(d.log, CaseChanged(id, d.cases[id].alert, d.cases[id].status, status));
  }

  lemma {:induction false} ActKeeps(d: Desk, action: Action)
    requires Inv(d) && Act(d, action).Some?
    ensures Inv(Act(d, action).value)
  {
    match action
    case Raise => Append(d.log, AlertRaised(|d.alerts|));
    case UpdateAlert(alert, status) => SetAlertKeeps(d, alert, status);
    case CreateCase(alert) =>
      if d.alerts[alert] == OPEN {
        SetAlertKeeps(d, alert, INVESTIGATING);
        assert !HasCase(SetAlert(d, alert, INVESTIGATING), alert);
        OpenCaseKeeps(SetAlert(d, alert, INVESTIGATING), alert);
      } else {
        OpenCaseKeeps(d, alert);
      }
    case UpdateCase(id, status) =>
      SetAlertKeeps(d, d.cases[id].alert, status);
      ChangeCaseKeeps(SetAlert(d, d.cases[id].alert, status), id, status);
  }

  /** After any sequence of operations each alert has at most one case, outcomes follow statuses, the log is
      an unbroken chain of real changes per alert and per case, and replaying it gives both tables back. */
  lemma {:induction false} LogReplaysToTables(actions: seq<Action>)
    ensures var d := Run(EMPTY, actions);
            CasesOk(d) && Chained(d.log) && Replay(d.log) == Tables(d.alerts, d.cases)
  {
    if actions != [] {
      var n := |actions| - 1;
      LogReplaysToTables(actions[..n]);
      if Act(Run(EMPTY, actions[..n]), actions[n]).Some? { ActKeeps(Run(EMPTY, actions[..n]), actions[n]); }
    }
  }

  // ---- Agreement of case and alert ----

  ghost predicate Agrees(d: Desk) {
    forall c :: 0 <= c < |d.cases| ==> d.cases[c].alert < |d.alerts| && d.alerts[d.cases[c].alert] == d.cases[c].status
  }

  /** The one operation that goes around the case. */
  predicate Bypasses(d: Desk, action: Action) { action.UpdateAlert? && HasCase(d, action.alert) }

  /** A successful operation keeps cases and alerts in agreement exactly when it does not change an alert
      that has a case directly. */
  lemma AgreementKeptIff(d: Desk, action: Action)
    requires CasesOk(d) && Agrees(d) && Act(d, action).Some?
    ensures Agrees(Act(d, action).value) <==> !Bypasses(d, action)
  {
    var d' := Act(d, action).value;
    if Bypasses(d, action) {
      var c :| 0 <= c < |d.cases| && d.cases[c].alert == action.alert;
      assert d'.cases[c] == d.cases[c];
    }
  }

  /** Every successful case update makes the two statuses equal, agreed before or not. */
  lemma CaseUpdateAgrees(d: Desk, id: nat, status: AlertStatus)
    requires CasesOk(d) && Act(d, UpdateCase(id, status)).Some?
    ensures var d' := Act(d, UpdateCase(id, status)).value;
            && d'.cases[id].status == status && d'.alerts[d'.cases[id].alert] == status
            && d'.cases[id].outcome == (if status in {RESOLVED, FALSE_POSITIVE} then Some(status) else None)
            && forall c :: 0 <= c < |d.cases| && c != id ==>
                 d'.cases[c] == d.cases[c] && d'.alerts[d.cases[c].alert] == d.alerts[d.cases[c].alert]
  {
    forall c | 0 <= c < |d.cases| && c != id ensures d.cases[c].alert != d.cases[id].alert {
      if c < id { assert d.cases[c].alert != d.cases[id].alert; }
    }
  }

  /** While they agree a case update is refused only for the status the case already has; out of agreement it
      is also refused for the status its alert already has, so such a case cannot follow its alert. */
  lemma CaseUpdateRefusedIff(d: Desk, id: nat, status: AlertStatus)
    requires CasesOk(d) && id < |d.cases|
    ensures Act(d, UpdateCase(id, status)).None?
       <==> status == d.cases[id].status || status == d.alerts[d.cases[id].alert]
    ensures Agrees(d) ==> (Act(d, UpdateCase(id, status)).None? <==> status == d.cases[id].status)
  {
  }

  /** A successful direct change strands the case: it keeps the old status, and setting it to the status its alert
      now has is refused. */
  lemma BypassStrandsTheCase(d: Desk, action: Action)
    requires CasesOk(d) && Agrees(d) && Act(d, action).Some? && Bypasses(d, action)
    ensures exists c: nat :: c < |d.cases| && d.cases[c].alert == action.alert
              && Act(d, action).value.cases[c].status != action.status
              && Act(Act(d, action).value, UpdateCase(c, action.status)).None?
  {
    var c: nat :| c < |d.cases| && d.cases[c].alert == action.alert;
    CaseUpdateRefusedIff(Act(d, action).value, c, action.status);
  }

  ghost predicate BypassedAt(actions: seq<Action>, i: nat)
    requires i < |actions|
  {
    Bypasses(Run(EMPTY, actions[..i]), actions[i]) && Act(Run(EMPTY, actions[..i]), actions[i]).Some?
  }

  lemma RunNext(actions: seq<Action>, i: nat)
    requires i < |actions|
    ensures var before := Run(EMPTY, actions[..i]); var after := Act(before, actions[i]);
            Run(EMPTY, actions[..i + 1]) == if after.Some? then after.value else before
  {
    assert actions[..i + 1][..i] == actions[..i];
  }

  lemma {:induction false} AgreesUpTo(actions: seq<Action>, n: nat)
    requires n <= |actions| && forall i: nat :: i < n ==> !BypassedAt(actions, i)
    ensures Agrees(Run(EMPTY, actions[..n]))
  {
    if n > 0 {
      AgreesUpTo(actions, n - 1);
      RunNext(actions, n - 1);
      LogReplaysToTables(actions[..n - 1]);
      var before := Run(EMPTY, actions[..n - 1]);
      assert !BypassedAt(actions, n - 1);
      if Act(before, actions[n - 1]).Some? { AgreementKeptIff(before, actions[n - 1]); }
    }
  }

  /** Statuses agree after every step of a run exactly when no step of it successfully changes an alert that has
      a case directly. */
  lemma AlwaysAgreeIff(actions: seq<Action>)
    ensures (forall n: nat :: n <= |actions| ==> Agrees(Run(EMPTY, actions[..n])))
       <==> (forall i: nat :: i < |actions| ==> !BypassedAt(actions, i))
  {
    if forall n: nat :: n <= |actions| ==> Agrees(Run(EMPTY, actions[..n])) {
      forall i: nat | i < |actions| ensures !BypassedAt(actions, i) {
        LogReplaysToTables(actions[..i]);
        assert Agrees(Run(EMPTY, actions[..i])) && Agrees(Run(EMPTY, actions[..i + 1]));
        RunNext(actions, i);
        if BypassedAt(actions, i) { AgreementKeptIff(Run(EMPTY, actions[..i]), actions[i]); }
      }
    } else {
      var n: nat :| n <= |actions| && !Agrees(Run(EMPTY, actions[..n]));
      if forall i: nat :: i < n ==> !BypassedAt(actions, i) { AgreesUpTo(actions, n); }
    }
  }

  /** Such a run exists: an alert is raised, gets a case, and is resolved directly. The case stays under
      investigation, and resolving it is refused. */
  lemma DirectUpdateBreaksAgreement()
    ensures var d := Run(EMPTY, [Raise, CreateCase(0), UpdateAlert(0, RESOLVED)]);
            && d.alerts == [RESOLVED] && d.cases == [Case(0, INVESTIGATING, None)] && !Agrees(d)
            && Act(d, UpdateCase(0, RESOLVED)).None?
  {
    var actions := [Raise, CreateCase(0), UpdateAlert(0, RESOLVED)];
    assert actions[..0] == [];
    RunNext(actions, 0);
    RunNext(actions, 1);
    RunNext(actions, 2);
    assert actions[..3] == actions;
    var d := Run(EMPTY, actions);
    assert d.alerts[d.cases[0].alert] != d.cases[0].status;
  }

  // ---- The handlers as written ----

  class SocService {
    var alerts: seq<AlertStatus>
    var cases: seq<Case>
    var log: seq<Entry>

    constructor ()
      ensures Now() == EMPTY
    {
      alerts, cases, log := [], [], [];
    }

    function Now(): Desk
      reads this
    {
      Desk(alerts, cases, log)
    }

    method UpdateAlertStatus(id: nat, status: AlertStatus) returns (ok: bool)
      modifies this`alerts, this`log
      ensures ok == Act(old(Now()), UpdateAlert(id, status)).Some?
      ensures Now() == if ok then Act(old(Now()), UpdateAlert(id, status)).value else old(Now())
      ensures ok <==> id < |old(alerts)| && old(alerts)[id] != status
      ensures !ok ==> Now() == old(Now())
      ensures ok ==>
                alerts == old(alerts)[id := status] && log == old(log) + [AlertChanged(id, old(alerts)[id], status)]
    {
      if id >= |alerts| {
        return false;
      }
      var previous := alerts[id];
      if previous == status {
        return false;
      }
      alerts := alerts[id := status];
      log := log + [AlertChanged(id, previous, status)];
      ok := true;
    }

    method CreateCaseFor(alertId: nat) returns (ok: bool)
      modifies this
      ensures ok == Act(old(Now()), CreateCase(alertId)).Some?
      ensures Now() == if ok then Act(old(Now()), CreateCase(alertId)).value else old(Now())
      ensures ok <==> alertId < |old(alerts)| && forall c :: 0 <= c < |old(cases)| ==> old(cases)[c].alert != alertId
      ensures !ok ==> Now() == old(Now())
      ensures ok ==>
                var was := old(alerts)[alertId];
                var now := if was == OPEN then INVESTIGATING else was;
                && alerts == old(alerts)[alertId := now]
                && cases == old(cases)
                          + [Case(alertId, now, if was in {RESOLVED, FALSE_POSITIVE} then Some(was) else None)]
                && log == old(log) + (if was == OPEN then [AlertChanged(alertId, OPEN, INVESTIGATING)] else [])
                                   + [CaseOpened(|old(cases)|, alertId)]
    {
      if alertId >= |alerts| || HasCase(Now(), alertId) {
        return false;
      }
      var status := alerts[alertId];
      if status == OPEN {
        var _ := UpdateAlertStatus(alertId, INVESTIGATING);
      }
      var final := status == RESOLVED || status == FALSE_POSITIVE;
      log := log + [CaseOpened(|cases|, alertId)];
      cases := cases + [Case(alertId, if final then status else INVESTIGATING, if final then Some(status) else None)];
      ok := true;
    }

    method UpdateCaseStatus(id: nat, status: AlertStatus) returns (ok: bool)
      modifies this
      ensures ok == Act(old(Now()), UpdateCase(id, status)).Some?
      ensures Now() == if ok then Act(old(Now()), UpdateCase(id, status)).value else old(Now())
      ensures ok <==> && id < |old(cases)| && old(cases)[id].status != status
                      && old(cases)[id].alert < |old(alerts)| && old(alerts)[old(cases)[id].alert] != status
      ensures !ok ==> Now() == old(Now())
      ensures ok ==>
                var was := old(cases)[id];
                && alerts == old(alerts)[was.alert := status]
                && cases == old(cases)[id := Case(was.alert, status,
                                                  if status in {RESOLVED, FALSE_POSITIVE} then Some(status) else None)]
                && log == old(log) + [AlertChanged(was.alert, old(alerts)[was.alert], status),
                                      CaseChanged(id, was.alert, was.status, status)]
    {
      if id >= |cases| {
        return false;
      }
      var existing := cases[id];
      if existing.status == status {
        return false;
      }
      ok := UpdateAlertStatus(existing.alert, status);
      if !ok {
        return false;
      }
      cases := cases[id := Case(existing.alert, status,
                                if status == RESOLVED || status == FALSE_POSITIVE then Some(status) else None)];
      log := log + [CaseChanged(id, existing.alert, existing.status, status)];
    }
  }
}
