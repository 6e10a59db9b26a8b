/** What opens the door: which events start a login, which password one passes with, and what a change of the
    password, the role or the status makes of a user. */
module Credentials {
  import opened Sums
  import opened AuthTables
  import opened Sessions
  import opened SessionSafety

  // ---- Which events change a password ----

  /** The password event e sets for user u, if it does. */
  ghost function PasswordSet(s: State, e: Event, u: nat): Option<nat> {
    match e
    case PasswordChange(user, current, password) =>
      if user == u && u < |s.db.users| && s.db.users[u].password == current && current != password then Some(password)
      else None
    case ResetUse(f) =>
      if f < |s.flows| && s.flows[f].Resetting? && ResetGood(s.db, s.flows[f].tag, u) then Some(s.flows[f].password)
      else None
    case _ => None
  }

  ghost predicate ResetGood(db: Db, tag: nat, u: nat) {
    && tag in db.resets && db.resets[tag].used.None? && db.resets[tag].expires > db.clock
    && db.resets[tag].user == u && u < |db.users|
  }

  /** A user's password is after any event what the event sets, and otherwise what it was. A change raises the version
      by one and leaves role, status and MFA fields as they were; no other user's row changes. */
  lemma {:induction false} PasswordAfter(s: State, e: Event, u: nat)
    requires u < |s.db.users|
    ensures u < |Step(s, e).db.users|
    ensures var v, w := s.db.users[u], Step(s, e).db.users[u];
            match PasswordSet(s, e, u)
            case Some(password) =>
              && w == v.(password := password, version := v.version + 1)
              && |Step(s, e).db.users| == |s.db.users|
              && forall x :: 0 <= x < |s.db.users| && x != u ==> Step(s, e).db.users[x] == s.db.users[x]
            case None => w.password == v.password
  {
    if IsLogin(e) { LoginPassword(s, e, u); }
    else if IsSession(e) { SessionPassword(s, e, u); }
    else { DirectPassword(s, e, u); }
  }

  lemma LoginPassword(s: State, e: Event, u: nat)
    requires u < |s.db.users| && IsLogin(e)
    ensures u < |Step(s, e).db.users| && Step(s, e).db.users[u].password == s.db.users[u].password
  {
    hide TooManyFailures, CodeUsable, ChallengeValid;
  }

  lemma SessionPassword(s: State, e: Event, u: nat)
    requires u < |s.db.users| && IsSession(e)
    ensures u < |Step(s, e).db.users|
    ensures if PasswordSet(s, e, u).Some? then
              Step(s, e).db.users == s.db.users[u := s.db.users[u].(password := PasswordSet(s, e, u).value,
                                                                    version := s.db.users[u].version + 1)]
            else Step(s, e).db.users[u].password == s.db.users[u].password
  {
    hide Revoke;
  }

  lemma DirectPassword(s: State, e: Event, u: nat)
    requires u < |s.db.users| && !IsLogin(e) && !IsSession(e)
    ensures u < |Step(s, e).db.users|
    ensures if PasswordSet(s, e, u).Some? then
              Step(s, e).db.users == s.db.users[u := s.db.users[u].(password := PasswordSet(s, e, u).value,
                                                                    version := s.db.users[u].version + 1)]
            else Step(s, e).db.users[u].password == s.db.users[u].password
  {
    hide Revoke, CodesOf, ResetsOf, Usable;
    if !e.PasswordChange? { OtherPassword(s, e, u); }
  }

  lemma OtherPassword(s: State, e: Event, u: nat)
    requires u < |s.db.users| && !IsLogin(e) && !IsSession(e) && !e.PasswordChange?
    ensures u < |Step(s, e).db.users| && Step(s, e).db.users[u].password == s.db.users[u].password
  {
    hide Revoke, CodesOf, ResetsOf, Usable;
    if IsMfa(e) { MfaPassword(s, e, u); }
  }

  lemma MfaPassword(s: State, e: Event, u: nat)
    requires u < |s.db.users| && IsMfa(e)
    ensures u < |Step(s, e).db.users| && Step(s, e).db.users[u].password == s.db.users[u].password
  {
    hide Revoke, CodesOf, FreshTags;
  }

  /** No event of the run sets the password of u. */
  ghost predicate PasswordLeft(s: State, es: seq<Event>, u: nat) {
    es == [] || (PasswordLeft(s, es[..|es| - 1], u) && PasswordSet(After(s, es[..|es| - 1]), es[|es| - 1], u).None?)
  }

  lemma {:induction false} PasswordStays(s: State, es: seq<Event>, u: nat)
    requires u < |s.db.users| && PasswordLeft(s, es, u)
    ensures u < |After(s, es).db.users| && After(s, es).db.users[u].password == s.db.users[u].password
  {
    hide Step;
    if es != [] {
      PasswordStays(s, es[..|es| - 1], u);
      PasswordAfter(After(s, es[..|es| - 1]), es[|es| - 1], u);
    }
  }

  // ---- Which password a login passes with ----

  /** The request whose local state an event moves. */
  function FlowMoved(e: Event): Option<nat> {
    match e
    case LoginCheck(f, _) => Some(f)
    case LoginCount(f) => Some(f)
    case LoginLock(f) => Some(f)
    case RecoveryUse(f) => Some(f)
    case SignAccess(f) => Some(f)
    case RevokeOld(f) => Some(f)
    case CreateToken(f) => Some(f)
    case RefreshRotate(f) => Some(f)
    case RefreshSign(f) => Some(f)
    case Drop(f) => Some(f)
    case ResetUse(f) => Some(f)
    case _ => None
  }

  lemma FlowStays(s: State, e: Event, f: nat)
    requires f < |s.flows| && FlowMoved(e) != Some(f)
    ensures f < |Step(s, e).flows| && Step(s, e).flows[f] == s.flows[f]
  {
    if IsLogin(e) { LoginLeaves(s, e, f); }
    else if IsSession(e) { SessionLeaves(s, e, f); }
    else { DirectMovesNothing(s, e, f); }
  }

  lemma LoginLeaves(s: State, e: Event, f: nat)
    requires IsLogin(e) && f < |s.flows| && FlowMoved(e) != Some(f)
    ensures f < |Step(s, e).flows| && Step(s, e).flows[f] == s.flows[f]
  {
    hide TooManyFailures, CodeUsable, ChallengeValid;
  }

  lemma SessionLeaves(s: State, e: Event, f: nat)
    requires IsSession(e) && f < |s.flows| && FlowMoved(e) != Some(f)
    ensures f < |Step(s, e).flows| && Step(s, e).flows[f] == s.flows[f]
  {
    hide Revoke, Rotate, UseReset;
  }

  lemma {:induction false} FlowStaysOver(s: State, es: seq<Event>, f: nat)
    requires f < |s.flows| && forall i :: 0 <= i < |es| ==> FlowMoved(es[i]) != Some(f)
    ensures f < |After(s, es).flows| && After(s, es).flows[f] == s.flows[f]
  {
    hide Step;
    if es != [] {
      FlowStaysOver(s, es[..|es| - 1], f);
      FlowStays(After(s, es[..|es| - 1]), es[|es| - 1], f);
    }
  }

  /** A login that has read an active user's row is compared with the password of that row, whatever runs in between:
      the right one leads on to a session or a challenge, any other to a recorded failure. */
  lemma {:induction false} CheckComparesRead(s: State, u: nat, device: nat, es: seq<Event>, guess: nat)
    requires u < |s.db.users| && s.db.users[u].status == ACTIVE
    requires forall i :: 0 <= i < |es| ==> FlowMoved(es[i]) != Some(|s.flows|)
    ensures var f, t := |s.flows|, After(Step(s, LoginRead(u, device)), es);
            var checked := Step(t, LoginCheck(f, guess));
            && f < |checked.flows|
            && if guess != s.db.users[u].password then
                 checked.flows[f] == Counting(u)
                 && checked.db == t.db.(attempts := t.db.attempts + [Attempt(u, false, t.db.clock)])
               else if s.db.users[u].mfaEnabled then
                 checked.flows[f] == Ended(true)
                 && checked.db == t.db.(claims := t.db.claims + [Challenge(u, device, s.db.users[u].version)])
               else
                 checked.flows[f] == Issuing(u, s.db.users[u].role, device)
                 && checked.db == t.db.(attempts := t.db.attempts + [Attempt(u, true, t.db.clock)])
  {
    var reading := Step(s, LoginRead(u, device));
    assert reading.flows == s.flows + [Authenticating(u, s.db.users[u], device)];
    FlowStaysOver(reading, es, |s.flows|);
    RunRows(reading, es);
  }

  /** After a change or a reset of a password, until the next one, every login that reads the user's row passes exactly
      with the new password. */
  lemma {:induction false} LoginPassesIffNewPassword(s: State, e: Event, es: seq<Event>, u: nat, device: nat,
                                                     between: seq<Event>, guess: nat)
    requires u < |s.db.users| && PasswordSet(s, e, u).Some? && PasswordLeft(Step(s, e), es, u)
    requires var t := After(Step(s, e), es);
             && u < |t.db.users| && t.db.users[u].status == ACTIVE
             && forall i :: 0 <= i < |between| ==> FlowMoved(between[i]) != Some(|t.flows|)
    ensures var t := After(Step(s, e), es);
            var checked := Step(After(Step(t, LoginRead(u, device)), between), LoginCheck(|t.flows|, guess));
            && |t.flows| < |checked.flows|
            && (checked.flows[|t.flows|] == Counting(u) <==> guess != PasswordSet(s, e, u).value)
            && (checked.flows[|t.flows|] in {Ended(true), Issuing(u, t.db.users[u].role, device)}
                <==> guess == PasswordSet(s, e, u).value)
  {
    hide Step;
    PasswordAfter(s, e, u);
    PasswordStays(Step(s, e), es, u);
    CheckComparesRead(After(Step(s, e), es), u, device, between, guess);
  }

  // ---- What starts a request ----

  /** A password login starts exactly for an active user, with the row as it is then. */
  lemma LoginStartsIff(s: State, u: nat, device: nat)
    ensures Step(s, LoginRead(u, device))
         == if u < |s.db.users| && s.db.users[u].status == ACTIVE
            then s.(flows := s.flows + [Authenticating(u, s.db.users[u], device)]) else s
  {
  }

  /** A challenge works at the version its active user is at, while MFA is on. */
  ghost predicate AtVersion(db: Db, c: nat) {
    && c < |db.claims| && db.claims[c].Challenge? && db.claims[c].user < |db.users|
    && var user := db.users[db.claims[c].user];
       user.status == ACTIVE && user.mfaEnabled && user.version == db.claims[c].version
  }

  /** A second factor is accepted exactly on such a challenge, with the right code for a stored secret, or with an
      unused recovery code of that user. */
  lemma SecondFactorStartsIff(s: State, c: nat, codeValid: bool, tag: nat)
    ensures !AtVersion(s.db, c) ==> Step(s, MfaVerify(c, codeValid)) == s && Step(s, RecoveryRead(c, tag)) == s
    ensures AtVersion(s.db, c) ==>
              var db, u, device := s.db, s.db.claims[c].user, s.db.claims[c].device;
              && Step(s, MfaVerify(c, codeValid))
                 == (if db.users[u].secret.Some? && codeValid
                     then State(db.(attempts := db.attempts + [Attempt(u, true, db.clock)]),
                                s.flows + [Issuing(u, db.users[u].role, device)])
                     else s)
              && Step(s, RecoveryRead(c, tag))
                 == (if tag in db.codes && db.codes[tag].user == u && db.codes[tag].used.None?
                     then s.(flows := s.flows + [Recovering(tag, u, db.users[u].role, device)])
                     else s)
  {
  }

  /** A refresh starts exactly for a live, unexpired token of an active user, and a reset exactly for an unused,
      unexpired reset token. */
  lemma TokenStartsIff(s: State, t: nat, tag: nat, password: nat)
    ensures var db := s.db;
            && Step(s, RefreshRead(t))
               == (if t < |db.tokens| && db.tokens[t].revoked.None? && db.tokens[t].expires > db.clock
                      && db.tokens[t].user < |db.users| && db.users[db.tokens[t].user].status == ACTIVE
                   then
                     var user := db.users[db.tokens[t].user];
                     s.(flows := s.flows + [Refreshing(t, db.tokens[t].user, user.role, user.version)])
                   else s)
            && Step(s, ResetRead(tag, password))
               == (if tag in db.resets && db.resets[tag].used.None? && db.resets[tag].expires > db.clock
                   then s.(flows := s.flows + [Resetting(tag, password)]) else s)
  {
  }

  /** A recovery login goes on exactly if its code is still unused, and then the code is used and the login recorded. */
  lemma RecoveryGoesOnIff(s: State, f: nat)
    requires f < |s.flows| && s.flows[f].Recovering?
    ensures var flow, db, t := s.flows[f], s.db, Step(s, RecoveryUse(f));
            if flow.tag in db.codes && db.codes[flow.tag].user == flow.user && db.codes[flow.tag].used.None? then
              && t.flows == s.flows[f := Issuing(flow.user, flow.role, flow.device)]
              && t.db == db.(codes := db.codes[flow.tag := Code(flow.user, Some(db.clock))],
                             attempts := db.attempts + [Attempt(flow.user, true, db.clock)])
            else t == s.(flows := s.flows[f := Ended(false)])
  {
  }

  /** A new user is an active customer without MFA. */
  lemma NewUser(s: State, password: nat)
    ensures Step(s, Register(password))
         == s.(db := s.db.(users := s.db.users + [User(password, CUSTOMER, ACTIVE, 0, false, None)]))
  {
  }
}
