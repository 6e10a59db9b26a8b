/** What a login in flight can still do after an event that ends every session of its user. */
module EndedSessions {
  import opened Sums
  import opened AuthTables
  import opened Sessions
  import opened SessionSafety

  /** A login of the user that has read the row, or the code, and not yet created its token. */
  predicate LoggingIn(flow: Flow, u: nat) {
    (flow.Authenticating? || flow.Recovering? || flow.Issuing? || flow.Revoking? || flow.Creating?) && flow.user == u
  }

  /** One that can still end in a token: no second factor is asked for, or its recovery code is still unused. */
  predicate CanFinish(db: Db, flow: Flow, u: nat) {
    && LoggingIn(flow, u)
    && (flow.Authenticating? ==> !flow.seen.mfaEnabled)
    && (flow.Recovering? ==> CodeUsable(db, u, flow.tag))
  }

  predicate Begins(s: State, e: Event, u: nat) {
    |Step(s, e).flows| > |s.flows| && LoggingIn(Step(s, e).flows[|s.flows|], u)
  }

  /** No login of the user starts in the run. */
  ghost predicate NoNewLogin(s: State, es: seq<Event>, u: nat) {
    es == [] || (NoNewLogin(s, es[..|es| - 1], u) && !Begins(After(s, es[..|es| - 1]), es[|es| - 1], u))
  }

  ghost predicate HoldsToken(db: Db, u: nat) {
    exists t: nat :: t < |db.tokens| && db.tokens[t].user == u && Usable(db, t)
  }

  // ---- Without a login that can finish there is no way back ----

  ghost predicate AllRevoked(tokens: seq<Token>, u: nat) {
    forall t :: 0 <= t < |tokens| && tokens[t].user == u ==> tokens[t].revoked.Some?
  }

  ghost predicate NoWayBack(s: State, u: nat) {
    AllRevoked(s.db.tokens, u) && forall f :: 0 <= f < |s.flows| ==> !CanFinish(s.db, s.flows[f], u)
  }

  lemma TokensStayRevoked(s: State, e: Event, u: nat)
    requires NoWayBack(s, u)
    ensures AllRevoked(Step(s, e).db.tokens, u)
  {
    if e.CreateToken? {
      if e.f < |s.flows| { assert !CanFinish(s.db, s.flows[e.f], u); }
    } else if !e.RefreshRotate? {
      hide Step;
      TokensRevoked(s, e);
    }
  }

  lemma FlowStaysOff(s: State, e: Event, f: nat, u: nat)
    requires f < |s.flows| && f < |Step(s, e).flows|
    requires !CanFinish(s.db, s.flows[f], u) && Step(s, e).flows[f] != s.flows[f]
    ensures !CanFinish(Step(s, e).db, Step(s, e).flows[f], u)
  {
    if IsLogin(e) { LoginStaysOff(s, e, f, u); } else { SessionStaysOff(s, e, f, u); }
  }

  lemma LoginStaysOff(s: State, e: Event, f: nat, u: nat)
    requires IsLogin(e) && f < |s.flows| && f < |Step(s, e).flows|
    requires !CanFinish(s.db, s.flows[f], u) && Step(s, e).flows[f] != s.flows[f]
    ensures !CanFinish(Step(s, e).db, Step(s, e).flows[f], u)
  {
    hide TooManyFailures;
  }

  lemma SessionStaysOff(s: State, e: Event, f: nat, u: nat)
    requires !IsLogin(e) && f < |s.flows| && f < |Step(s, e).flows|
    requires !CanFinish(s.db, s.flows[f], u) && Step(s, e).flows[f] != s.flows[f]
    ensures !CanFinish(Step(s, e).db, Step(s, e).flows[f], u)
  {
    if !IsSession(e) { DirectMovesNothing(s, e, f); }
    SessionFlowMoves(s, e, f, u);
  }

  /** Of these steps only those that issue a session leave a login behind, and they start from one. */
  lemma SessionFlowMoves(s: State, e: Event, f: nat, u: nat)
    requires IsSession(e) && f < |s.flows| && f < |Step(s, e).flows| && Step(s, e).flows[f] != s.flows[f]
    ensures var flow := Step(s, e).flows[f];
            && !flow.Authenticating? && !flow.Recovering? && !flow.Issuing?
            && (LoggingIn(flow, u) ==> (s.flows[f].Issuing? || s.flows[f].Revoking?) && s.flows[f].user == u)
  {
    hide Revoke, UseReset, Rotate;
  }

  /** A spent, deleted or foreign code does not become usable. */
  lemma CodeStaysOff(before: Db, after: Db, u: nat, tag: nat)
    requires TagsEvolve(before, after) && tag in before.issued && !CodeUsable(before, u, tag)
    ensures !CodeUsable(after, u, tag)
  {
  }

  lemma {:induction false} NoWayBackKept(s: State, e: Event, u: nat)
    requires Inv(s) && NoWayBack(s, u) && !Begins(s, e, u)
    ensures NoWayBack(Step(s, e), u)
  {
    hide Step;
    TokensStayRevoked(s, e, u);
    StepEvolves(s, e);
    var after := Step(s, e);
    forall f | 0 <= f < |after.flows| ensures !CanFinish(after.db, after.flows[f], u) {
      if f < |s.flows| {
        assert !CanFinish(s.db, s.flows[f], u) && FlowOk(s.db, s.flows[f]);
        if after.flows[f] != s.flows[f] { FlowStaysOff(s, e, f, u); }
        else if s.flows[f].Recovering? && s.flows[f].user == u { CodeStaysOff(s.db, after.db, u, s.flows[f].tag); }
      } else {
        FlowStarts(s, e);
      }
    }
  }

  lemma {:induction false} NoWayBackInRuns(s: State, es: seq<Event>, u: nat)
    requires Inv(s) && NoWayBack(s, u) && NoNewLogin(s, es, u)
    ensures NoWayBack(After(s, es), u)
  {
    hide Step;
    if es != [] {
      var n := |es| - 1;
      NoWayBackInRuns(s, es[..n], u);
      RunInv(s, es[..n]);
      NoWayBackKept(After(s, es[..n]), es[n], u);
    }
  }

  // ---- One that can finish does ----

  lemma {:induction false} NoNewLoginConcat(s: State, es: seq<Event>, fs: seq<Event>, u: nat)
    requires NoNewLogin(s, es, u) && NoNewLogin(After(s, es), fs, u)
    ensures NoNewLogin(s, es + fs, u)
  {
    hide Step;
    if fs == [] {
      assert es + fs == es;
    } else {
      var n := |fs| - 1;
      assert (es + fs)[..|es + fs| - 1] == es + fs[..n];
      AfterConcat(s, es, fs[..n]);
      NoNewLoginConcat(s, es, fs[..n], u);
    }
  }

  lemma First(s: State, e: Event, es: seq<Event>, u: nat)
    requires !Begins(s, e, u) && NoNewLogin(Step(s, e), es, u)
    ensures NoNewLogin(s, [e] + es, u) && After(s, [e] + es) == After(Step(s, e), es)
  {
    hide Step;
    assert [e][..0] == [];
    assert After(s, [e]) == Step(s, e) && NoNewLogin(s, [e], u);
    AfterConcat(s, [e], es);
    NoNewLoginConcat(s, [e], es, u);
  }

  /** The next step of a login that can finish. */
  function NextStep(flow: Flow, f: nat): Event
    requires flow.Authenticating? || flow.Recovering? || flow.Issuing? || flow.Revoking?
  {
    match flow
    case Authenticating(_, seen, _) => LoginCheck(f, seen.password)
    case Recovering(_, _, _, _) => RecoveryUse(f)
    case Issuing(_, _, _) => SignAccess(f)
    case Revoking(_, _) => RevokeOld(f)
  }

  function Distance(flow: Flow): nat {
    if flow.Creating? then 0 else if flow.Revoking? then 1 else if flow.Issuing? then 2 else 3
  }

  lemma StepCloser(s: State, f: nat, u: nat)
    requires f < |s.flows| && CanFinish(s.db, s.flows[f], u) && !s.flows[f].Creating?
    requires u < |s.db.users| && s.db.users[u].status == ACTIVE
    ensures var e := NextStep(s.flows[f], f); var t := Step(s, e);
            && |t.flows| == |s.flows| && CanFinish(t.db, t.flows[f], u)
            && Distance(t.flows[f]) < Distance(s.flows[f])
            && u < |t.db.users| && t.db.users[u].status == ACTIVE
  {
  }

  lemma {:induction false} Finish(s: State, f: nat, u: nat) returns (es: seq<Event>)
    requires f < |s.flows| && CanFinish(s.db, s.flows[f], u)
    requires u < |s.db.users| && s.db.users[u].status == ACTIVE
    ensures NoNewLogin(s, es, u) && HoldsToken(After(s, es).db, u)
    decreases Distance(s.flows[f])
  {
    if s.flows[f].Creating? {
      var t := Step(s, CreateToken(f));
      assert Usable(t.db, |s.db.tokens|);
      First(s, CreateToken(f), [], u);
      es := [CreateToken(f)] + [];
    } else {
      hide Step;
      var e := NextStep(s.flows[f], f);
      StepCloser(s, f, u);
      var fs := Finish(Step(s, e), f, u);
      First(s, e, fs, u);
      es := [e] + fs;
    }
  }

  lemma Reactivates(s: State, u: nat)
    requires u < |s.db.users| && s.db.users[u].status != ACTIVE
    ensures var t := Step(s, StatusUpdate(u, u, ACTIVE));
            && t.flows == s.flows && t.db.codes == s.db.codes
            && |t.db.users| == |s.db.users| && t.db.users[u].status == ACTIVE
  {
  }

  lemma FinishAnyway(s: State, f: nat, u: nat) returns (es: seq<Event>)
    requires f < |s.flows| && CanFinish(s.db, s.flows[f], u) && u < |s.db.users|
    ensures NoNewLogin(s, es, u) && HoldsToken(After(s, es).db, u)
  {
    if s.db.users[u].status == ACTIVE {
      es := Finish(s, f, u);
    } else {
      hide Step;
      Reactivates(s, u);
      var fs := Finish(Step(s, StatusUpdate(u, u, ACTIVE)), f, u);
      First(s, StatusUpdate(u, u, ACTIVE), fs, u);
      es := [StatusUpdate(u, u, ACTIVE)] + fs;
    }
  }

  /** After an event that ends every session of a user, a run in which no login of theirs starts can still give
      them a usable refresh token if and only if a login in flight at the event can finish. */
  lemma SessionAfterTheEndIff(s: State, e: Event, u: nat)
    requires Inv(s) && EndsSessions(s, e, u) && u < |s.db.users|
    ensures var t := Step(s, e);
            (exists es :: NoNewLogin(t, es, u) && HoldsToken(After(t, es).db, u))
            <==> (exists f :: 0 <= f < |t.flows| && CanFinish(t.db, t.flows[f], u))
  {
    hide Step;
    var t := Step(s, e);
    InvKept(s, e);
    TokensRevoked(s, e);
    StepEvolves(s, e);
    if f: nat :| f < |t.flows| && CanFinish(t.db, t.flows[f], u) {
      var es := FinishAnyway(t, f, u);
    } else {
      assert NoWayBack(t, u);
      forall es | NoNewLogin(t, es, u) ensures !HoldsToken(After(t, es).db, u) {
        NoWayBackInRuns(t, es, u);
      }
    }
  }

  /** The three statements that issue a session leave a usable refresh token and an accepted access token. */
  lemma IssuingFinishes(s: State, f: nat, u: nat, device: nat)
    requires u < |s.db.users| && s.db.users[u].status == ACTIVE
    requires f < |s.flows| && s.flows[f] == Issuing(u, s.db.users[u].role, device)
    ensures var done := Step(Step(Step(s, SignAccess(f)), RevokeOld(f)), CreateToken(f));
            && HoldsToken(done.db, u) && |done.db.claims| == |s.db.claims| + 1
            && Accepts(done.db, done.db.claims[|s.db.claims|]) && done.db.claims[|s.db.claims|].user == u
  {
    var s1 := Step(s, SignAccess(f));
    assert s1.flows[f] == Revoking(u, device);
    var s2 := Step(s1, RevokeOld(f));
    assert s2.flows[f] == Creating(u, device);
    assert Usable(Step(s2, CreateToken(f)).db, |s2.db.tokens|);
  }

  /** A login that has read the row before its password is changed is compared with the old password, and ends in
      a refresh token and an access token that both work. */
  lemma LoginOutlivesPasswordChange(s: State, u: nat, device: nat, password: nat)
    requires u < |s.db.users| && s.db.users[u].status == ACTIVE && !s.db.users[u].mfaEnabled
    requires s.db.users[u].password != password
    ensures var f, current := |s.flows|, s.db.users[u].password;
            var reading := Step(s, LoginRead(u, device));
            var changed := Step(reading, PasswordChange(u, current, password));
            var checked := Step(changed, LoginCheck(f, current));
            var done := Step(Step(Step(checked, SignAccess(f)), RevokeOld(f)), CreateToken(f));
            && EndsSessions(reading, PasswordChange(u, current, password), u)
            && HoldsToken(done.db, u) && |done.db.claims| == |s.db.claims| + 1
            && Accepts(done.db, done.db.claims[|s.db.claims|]) && done.db.claims[|s.db.claims|].user == u
  {
    var f, v := |s.flows|, s.db.users[u];
    var changed := Step(Step(s, LoginRead(u, device)), PasswordChange(u, v.password, password));
    assert changed.flows[f] == Authenticating(u, v, device);
    IssuingFinishes(Step(changed, LoginCheck(f, v.password)), f, u, device);
  }
}
