/** The sliding-window lockout, with several logins of one user in flight at once. */
module Lockout {
  import opened Sums
  import opened AuthTables
  import opened Sessions

  /** 1 for a login of the user that has read the user row and not yet compared the password. */
  function Unrecorded(u: nat): Flow -> int {
    (flow: Flow) => if flow.Authenticating? && flow.user == u then 1 else 0
  }

  /** 1 for a failed login of the user that is recorded, and not yet counted or its lock not yet set. */
  function Pending(u: nat): Flow -> int {
    (flow: Flow) => if (flow.Counting? || flow.Locking?) && flow.user == u then 1 else 0
  }

  /** 1 for a login of the user in flight: from reading the user row to the end of its failure, if it fails. */
  function InFlight(u: nat): Flow -> int { (flow: Flow) => Unrecorded(u)(flow) + Pending(u)(flow) }

  /** Administrative reactivations of a user from one moment to another, both included. */
  function ReactivatedIn(u: nat, from: int, to: int): StatusChange -> int {
    (c: StatusChange) => if c.user == u && c.to == ACTIVE && from <= c.at <= to then 1 else 0
  }

  ghost function Failures(s: State, u: nat, from: int): int {
    Sum(s.db.attempts, FailedIn(u, from, from + LOCK_WINDOW))
  }

  ghost function Reactivations(s: State, u: nat, from: int): int {
    Sum(s.db.changes, ReactivatedIn(u, from, from + LOCK_WINDOW))
  }

  predicate Open(s: State, u: nat) { u >= |s.db.users| || s.db.users[u].status == ACTIVE }

  ghost predicate Dated(s: State) {
    && (forall i :: 0 <= i < |s.db.attempts| ==> s.db.attempts[i].at <= s.db.clock)
    && (forall i :: 0 <= i < |s.db.changes| ==> s.db.changes[i].at <= s.db.clock)
  }

  /** 4 + k * r, counted up one reactivation at a time. */
  function Allowed(k: nat, r: int): int { if r <= 0 then 4 else Allowed(k, r - 1) + k }

  /** While the window is still running, an active account has had no more failures than allowed and pending,
      and a locked one has room for every login already in flight. */
  ghost predicate WindowOk(s: State, u: nat, from: int, k: nat) {
    var failures, allowed := Failures(s, u, from), Allowed(k, Reactivations(s, u, from));
    && failures <= allowed + k
    && (s.db.clock <= from + LOCK_WINDOW ==>
         if Open(s, u) then failures <= allowed + Sum(s.flows, Pending(u))
         else failures + Sum(s.flows, Unrecorded(u)) <= allowed + k)
  }

  ghost function FlightOf(s: State, u: nat): int { Sum(s.flows, InFlight(u)) }

  /** Never more than k logins of the user in flight. */
  ghost predicate AtMost(k: nat, u: nat, s: State, es: seq<Event>) {
    && FlightOf(After(s, es), u) <= k
    && (es == [] || AtMost(k, u, s, es[..|es| - 1]))
  }

  lemma {:induction false} Parts(flows: seq<Flow>, u: nat)
    ensures Sum(flows, InFlight(u)) == Sum(flows, Unrecorded(u)) + Sum(flows, Pending(u))
    ensures Sum(flows, Unrecorded(u)) >= 0 && Sum(flows, Pending(u)) >= 0
  {
    if flows != [] { Parts(flows[..|flows| - 1], u); }
  }

  // ---- Steps that do not touch the window ----

  /** No failure, no status change of u, no new login of u. */
  ghost predicate Aside(s: State, s': State, u: nat, from: int) {
    && s'.db.clock == s.db.clock && Open(s', u) == Open(s, u)
    && Failures(s', u, from) == Failures(s, u, from)
    && Reactivations(s', u, from) == Reactivations(s, u, from)
    && Sum(s'.flows, Unrecorded(u)) <= Sum(s.flows, Unrecorded(u))
    && Sum(s'.flows, Pending(u)) == Sum(s.flows, Pending(u))
    && (Dated(s) ==> Dated(s'))
  }

  lemma AsideKeeps(s: State, s': State, u: nat, from: int, k: nat)
    requires WindowOk(s, u, from, k) && Aside(s, s', u, from)
    ensures WindowOk(s', u, from, k)
  {
  }

  lemma FlowReplaced(flows: seq<Flow>, f: nat, flow: Flow, u: nat)
    requires f < |flows|
    ensures Sum(flows[f := flow], Unrecorded(u))
         == Sum(flows, Unrecorded(u)) - Unrecorded(u)(flows[f]) + Unrecorded(u)(flow)
    ensures Sum(flows[f := flow], Pending(u)) == Sum(flows, Pending(u)) - Pending(u)(flows[f]) + Pending(u)(flow)
  {
    SumUpdate(flows, f, flow, Unrecorded(u));
    SumUpdate(flows, f, flow, Pending(u));
  }

  lemma FlowAdded(flows: seq<Flow>, flow: Flow, u: nat)
    ensures Sum(flows + [flow], Unrecorded(u)) == Sum(flows, Unrecorded(u)) + Unrecorded(u)(flow)
    ensures Sum(flows + [flow], Pending(u)) == Sum(flows, Pending(u)) + Pending(u)(flow)
  {
    SumAppend(flows, flow, Unrecorded(u));
    SumAppend(flows, flow, Pending(u));
  }

  predicate Silent(flow: Flow) { !flow.Authenticating? && !flow.Counting? && !flow.Locking? }

  lemma SecondFactorEffect(s: State, e: Event, u: nat)
    requires e.MfaVerify? || e.RecoveryRead? || e.RecoveryUse?
    ensures var s' := Step(s, e);
            && Open(s', u) == Open(s, u) && s'.db.changes == s.db.changes && s'.db.clock == s.db.clock
            && (s'.db.attempts == s.db.attempts
                || exists v :: s'.db.attempts == s.db.attempts + [Attempt(v, true, s.db.clock)])
  {
  }

  lemma SecondFactorFlows(s: State, e: Event)
    requires (e.MfaVerify? || e.RecoveryRead? || e.RecoveryUse?) && Step(s, e) != s
    ensures var s' := Step(s, e);
            if e.RecoveryUse? then
              && e.f < |s.flows| && Silent(s.flows[e.f])
              && exists flow :: Silent(flow) && s'.flows == s.flows[e.f := flow]
            else exists flow :: Silent(flow) && s'.flows == s.flows + [flow]
  {
    var flow := Step(s, e).flows[if e.RecoveryUse? then e.f else |s.flows|];
    assert Silent(flow);
  }

  lemma LoginAside(s: State, e: Event, u: nat, from: int)
    requires e.MfaVerify? || e.RecoveryRead? || e.RecoveryUse?
    ensures Aside(s, Step(s, e), u, from)
  {
    hide Step;
    SecondFactorEffect(s, e, u);
    var s' := Step(s, e);
    if s' != s {
      SecondFactorFlows(s, e);
      if e.RecoveryUse? {
        var flow :| Silent(flow) && s'.flows == s.flows[e.f := flow];
        FlowReplaced(s.flows, e.f, flow, u);
      } else {
        var flow :| Silent(flow) && s'.flows == s.flows + [flow];
        FlowAdded(s.flows, flow, u);
      }
      if s'.db.attempts != s.db.attempts {
        var v :| s'.db.attempts == s.db.attempts + [Attempt(v, true, s.db.clock)];
        SumAppend(s.db.attempts, Attempt(v, true, s.db.clock), FailedIn(u, from, from + LOCK_WINDOW));
      }
    }
  }

  lemma SessionEffect(s: State, e: Event, u: nat)
    requires IsSession(e)
    ensures var s' := Step(s, e);
            && Open(s', u) == Open(s, u) && s'.db.changes == s.db.changes && s'.db.clock == s.db.clock
            && s'.db.attempts == s.db.attempts
  {
    hide Revoke;
  }

  lemma SessionFlows(s: State, e: Event)
    requires IsSession(e) && Step(s, e) != s
    ensures e.f < |s.flows| && !s.flows[e.f].Counting? && !s.flows[e.f].Locking?
    ensures exists flow :: Silent(flow) && Step(s, e).flows == s.flows[e.f := flow]
  {
    hide Revoke;
    assert Silent(Step(s, e).flows[e.f]);
  }

  lemma SessionAside(s: State, e: Event, u: nat, from: int)
    requires IsSession(e)
    ensures Aside(s, Step(s, e), u, from)
  {
    hide Step;
    SessionEffect(s, e, u);
    if Step(s, e) != s {
      SessionFlows(s, e);
      var flow :| Silent(flow) && Step(s, e).flows == s.flows[e.f := flow];
      FlowReplaced(s.flows, e.f, flow, u);
    }
  }

  lemma DirectEffect(s: State, e: Event, u: nat)
    requires !IsLogin(e) && !IsSession(e) && !e.StatusUpdate? && !e.Tick?
    ensures var s' := Step(s, e);
            && Open(s', u) == Open(s, u) && s'.db.changes == s.db.changes && s'.db.clock == s.db.clock
            && s'.db.attempts == s.db.attempts
  {
    hide Revoke;
    hide CodesOf;
  }

  lemma DirectFlows(s: State, e: Event)
    requires !IsLogin(e) && !IsSession(e)
    ensures Step(s, e).flows == s.flows || exists flow :: Silent(flow) && Step(s, e).flows == s.flows + [flow]
  {
    hide Revoke;
    hide CodesOf;
    if (e.RefreshRead? || e.ResetRead?) && Step(s, e) != s { assert Silent(Step(s, e).flows[|s.flows|]); }
  }

  lemma DirectAside(s: State, e: Event, u: nat, from: int)
    requires !IsLogin(e) && !IsSession(e) && !e.StatusUpdate? && !e.Tick?
    ensures Aside(s, Step(s, e), u, from)
  {
    hide Step;
    DirectEffect(s, e, u);
    DirectFlows(s, e);
    if Step(s, e).flows != s.flows {
      var flow :| Silent(flow) && Step(s, e).flows == s.flows + [flow];
      FlowAdded(s.flows, flow, u);
    }
  }

  // ---- Steps that do ----

  lemma WrongPassword(s: State, f: nat, password: nat, u: nat, from: int, k: nat)
    requires WindowOk(s, u, from, k) && FlightOf(s, u) <= k
    requires FlowOf(s, f).Authenticating? && FlowOf(s, f).user < |s.db.users|
    requires FlowOf(s, f).seen.password != password
    ensures WindowOk(Step(s, LoginCheck(f, password)), u, from, k)
  {
    hide SessionStep;
    hide DirectStep;
    var v := FlowOf(s, f).user;
    FlowReplaced(s.flows, f, Counting(v), u);
    Parts(s.flows, u);
    Parts(Step(s, LoginCheck(f, password)).flows, u);
    SumAppend(s.db.attempts, Attempt(v, false, s.db.clock), FailedIn(u, from, from + LOCK_WINDOW));
  }

  /** The window counted at the failure covers every later part of a window that is still running. */
  lemma CountCovers(attempts: seq<Attempt>, u: nat, from: int, now: int)
    requires now <= from + LOCK_WINDOW
    requires forall i :: 0 <= i < |attempts| ==> attempts[i].at <= now
    ensures Sum(attempts, FailedIn(u, from, from + LOCK_WINDOW)) <= Sum(attempts, FailedIn(u, now - LOCK_WINDOW, now))
  {
    SumLe(attempts, attempts, FailedIn(u, from, from + LOCK_WINDOW), FailedIn(u, now - LOCK_WINDOW, now));
  }

  lemma {:induction false} AllowedAtLeast(k: nat, r: int)
    ensures Allowed(k, r) >= 4
  {
    if r > 0 { AllowedAtLeast(k, r - 1); }
  }

  lemma {:induction false} AllowedIs(k: nat, r: nat)
    ensures Allowed(k, r) + k == 4 + k * (1 + r)
  {
    if r > 0 {
      AllowedIs(k, r - 1);
      assert k * (1 + r) == k * r + k;
    }
  }

  lemma ReactivationsCount(s: State, u: nat, from: int)
    ensures Reactivations(s, u, from) >= 0
  {
    SumNonNegative(s.db.changes, ReactivatedIn(u, from, from + LOCK_WINDOW));
  }

  lemma RightPassword(s: State, f: nat, password: nat, u: nat, from: int)
    requires FlowOf(s, f).Authenticating? && FlowOf(s, f).user < |s.db.users|
    requires FlowOf(s, f).seen.password == password
    ensures Aside(s, Step(s, LoginCheck(f, password)), u, from)
  {
    hide SessionStep;
    hide DirectStep;
    var flow := FlowOf(s, f);
    FlowReplaced(s.flows, f, Step(s, LoginCheck(f, password)).flows[f], u);
    SumAppend(s.db.attempts, Attempt(flow.user, true, s.db.clock), FailedIn(u, from, from + LOCK_WINDOW));
  }

  lemma LoginDated(s: State, e: Event)
    requires Dated(s) && (e.LoginCheck? || e.LoginCount? || e.LoginLock?)
    ensures Dated(Step(s, e))
  {
    hide SessionStep;
    hide DirectStep;
  }

  lemma LoginCheckKeeps(s: State, f: nat, password: nat, u: nat, from: int, k: nat)
    requires WindowOk(s, u, from, k) && FlightOf(s, u) <= k
    ensures WindowOk(Step(s, LoginCheck(f, password)), u, from, k)
  {
    var flow := FlowOf(s, f);
    if flow.Authenticating? && flow.user < |s.db.users| {
      hide Step;
      if flow.seen.password != password {
        WrongPassword(s, f, password, u, from, k);
      } else {
        RightPassword(s, f, password, u, from);
        AsideKeeps(s, Step(s, LoginCheck(f, password)), u, from, k);
      }
    }
  }

  /** A count below the threshold clears the failure: what it counted includes all of a window still running. */
  lemma CountKeeps(s: State, f: nat, u: nat, from: int, k: nat)
    requires WindowOk(s, u, from, k) && Dated(s)
    ensures WindowOk(Step(s, LoginCount(f)), u, from, k)
  {
    hide SessionStep;
    hide DirectStep;
    if FlowOf(s, f).Counting? {
      FlowReplaced(s.flows, f, Step(s, LoginCount(f)).flows[f], u);
      Parts(Step(s, LoginCount(f)).flows, u);
      AllowedAtLeast(k, Reactivations(s, u, from));
      if s.db.clock <= from + LOCK_WINDOW { CountCovers(s.db.attempts, u, from, s.db.clock); }
    }
  }

  lemma LockKeeps(s: State, f: nat, u: nat, from: int, k: nat)
    requires WindowOk(s, u, from, k) && FlightOf(s, u) <= k
    ensures WindowOk(Step(s, LoginLock(f)), u, from, k)
  {
    hide SessionStep;
    hide DirectStep;
    Parts(s.flows, u);
    if FlowOf(s, f).Locking? && FlowOf(s, f).user < |s.db.users| { FlowReplaced(s.flows, f, Ended(false), u); }
  }

  lemma LoginReadKeeps(s: State, v: nat, device: nat, u: nat, from: int, k: nat)
    requires WindowOk(s, u, from, k) && Dated(s)
    ensures WindowOk(Step(s, LoginRead(v, device)), u, from, k) && Dated(Step(s, LoginRead(v, device)))
  {
    if v < |s.db.users| && s.db.users[v].status == ACTIVE {
      FlowAdded(s.flows, Authenticating(v, s.db.users[v], device), u);
    }
  }

  lemma StatusEffect(s: State, admin: nat, v: nat, status: UserStatus, u: nat)
    requires Step(s, StatusUpdate(admin, v, status)) != s
    ensures var s' := Step(s, StatusUpdate(admin, v, status));
            && s'.flows == s.flows && s'.db.attempts == s.db.attempts && s'.db.clock == s.db.clock
            && s'.db.changes == s.db.changes + [StatusChange(v, status, s.db.clock)]
            && v < |s.db.users| && Open(s', u) == (if u == v then status == ACTIVE else Open(s, u))
            && (u == v && status == ACTIVE ==> !Open(s, u))
  {
    hide Revoke;
  }

  lemma StatusKeeps(s: State, admin: nat, v: nat, status: UserStatus, u: nat, from: int, k: nat)
    requires WindowOk(s, u, from, k) && Dated(s) && FlightOf(s, u) <= k
    ensures WindowOk(Step(s, StatusUpdate(admin, v, status)), u, from, k)
    ensures Dated(Step(s, StatusUpdate(admin, v, status)))
  {
    hide Step;
    var s' := Step(s, StatusUpdate(admin, v, status));
    if s' != s {
      StatusEffect(s, admin, v, status, u);
      SumAppend(s.db.changes, StatusChange(v, status, s.db.clock), ReactivatedIn(u, from, from + LOCK_WINDOW));
      ReactivationsCount(s, u, from);
      AllowedAtLeast(k, Reactivations(s, u, from));
      Parts(s.flows, u);
      if from > s.db.clock { NothingYet(s, u, from); }
    }
  }

  lemma NothingYet(s: State, u: nat, from: int)
    requires Dated(s) && from > s.db.clock
    ensures Failures(s, u, from) <= 0
  {
    var none := (a: Attempt) => 0;
    SumLe(s.db.attempts, s.db.attempts, FailedIn(u, from, from + LOCK_WINDOW), none);
    SumAtMost(s.db.attempts, none, none, 0);
  }

  lemma TickKeeps(s: State, now: int, u: nat, from: int, k: nat)
    requires WindowOk(s, u, from, k) && Dated(s)
    ensures WindowOk(Step(s, Tick(now)), u, from, k) && Dated(Step(s, Tick(now)))
  {
  }

  lemma StepKeeps(s: State, e: Event, u: nat, from: int, k: nat)
    requires WindowOk(s, u, from, k) && Dated(s) && FlightOf(s, u) <= k
    ensures WindowOk(Step(s, e), u, from, k) && Dated(Step(s, e))
  {
    hide Step;
    match e
    case LoginRead(v, device) => LoginReadKeeps(s, v, device, u, from, k);
    case LoginCheck(f, password) => LoginCheckKeeps(s, f, password, u, from, k); LoginDated(s, e);
    case LoginCount(f) => CountKeeps(s, f, u, from, k); LoginDated(s, e);
    case LoginLock(f) => LockKeeps(s, f, u, from, k); LoginDated(s, e);
    case StatusUpdate(admin, v, status) => StatusKeeps(s, admin, v, status, u, from, k);
    case Tick(now) => TickKeeps(s, now, u, from, k);
    case _ =>
      if IsLogin(e) { LoginAside(s, e, u, from); }
      else if IsSession(e) { SessionAside(s, e, u, from); }
      else { DirectAside(s, e, u, from); }
      AsideKeeps(s, Step(s, e), u, from, k);
  }

  // ---- Runs ----

  lemma {:induction false} RunKeeps(s: State, es: seq<Event>, u: nat, from: int, k: nat)
    requires s.db.attempts == [] && s.db.changes == [] && s.flows == [] && AtMost(k, u, s, es)
    ensures WindowOk(After(s, es), u, from, k) && Dated(After(s, es))
  {
    if es != [] {
      RunKeeps(s, es[..|es| - 1], u, from, k);
      StepKeeps(After(s, es[..|es| - 1]), es[|es| - 1], u, from, k);
    } else {
      AllowedAtLeast(k, Reactivations(s, u, from));
    }
  }

  /** Administrative reactivations of a user from one moment to another, counted one by one. */
  ghost function ReactivationsBetween(changes: seq<StatusChange>, user: nat, from: int, to: int): int {
    if changes == [] then 0
    else
      var c := changes[|changes| - 1];
      ReactivationsBetween(changes[..|changes| - 1], user, from, to)
      + if c.user == user && c.to == ACTIVE && from <= c.at && c.at <= to then 1 else 0
  }

  lemma {:induction false} ReactivationsCounted(changes: seq<StatusChange>, user: nat, from: int, to: int)
    ensures Sum(changes, ReactivatedIn(user, from, to)) == ReactivationsBetween(changes, user, from, to)
  {
    if changes != [] { ReactivationsCounted(changes[..|changes| - 1], user, from, to); }
  }

  /** The failed attempts in the closed 15 minutes from a moment on, and the reactivations in them. */
  ghost function FailuresFrom(s: State, u: nat, from: int): int {
    FailuresBetween(s.db.attempts, u, from, from + 900_000)
  }

  ghost function ReactivationsFrom(s: State, u: nat, from: int): int {
    ReactivationsBetween(s.db.changes, u, from, from + 900_000)
  }

  lemma WindowCounted(s: State, u: nat, from: int)
    ensures Failures(s, u, from) == FailuresFrom(s, u, from)
    ensures Reactivations(s, u, from) == ReactivationsFrom(s, u, from)
  {
    FailuresCount(s.db.attempts, u, from, from + LOCK_WINDOW);
    ReactivationsCounted(s.db.changes, u, from, from + LOCK_WINDOW);
  }

  /** With at most k logins of a user in flight, from reading the user row to setting the lock, any closed
      15-minute window holds at most 4 + k * (1 + r) failed attempts of the user, where r counts the
      administrative reactivations in that window. */
  lemma {:induction false} FailedAttemptsBounded(s: State, es: seq<Event>, u: nat, from: int, k: nat)
    requires s.db.attempts == [] && s.db.changes == [] && s.flows == [] && AtMost(k, u, s, es)
    ensures FailuresFrom(After(s, es), u, from) <= 4 + k * (1 + ReactivationsFrom(After(s, es), u, from))
  {
    hide Step;
    WindowCounted(After(s, es), u, from);
    RunKeeps(s, es, u, from, k);
    ReactivationsCount(After(s, es), u, from);
    AllowedIs(k, Reactivations(After(s, es), u, from));
  }

  /** One login at a time: at most 5 + r, so five failures lock the account until it is reactivated. */
  lemma {:induction false} SequentialLoginsLockAtFive(s: State, es: seq<Event>, u: nat, from: int)
    requires s.db.attempts == [] && s.db.changes == [] && s.flows == [] && AtMost(1, u, s, es)
    ensures FailuresFrom(After(s, es), u, from) <= 5 + ReactivationsFrom(After(s, es), u, from)
  {
    FailedAttemptsBounded(s, es, u, from, 1);
  }
}
