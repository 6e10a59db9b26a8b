/** How many live refresh tokens one device of a user can have: a login revokes the old ones and creates the
    new one in two separate statements. */
module DeviceSessions {
  import opened Sums
  import opened AuthTables
  import opened Sessions
  import opened SessionSafety

  /** 1 for a login that has revoked the device's old tokens and not yet created its own. */
  function Between(u: nat, d: nat): Flow -> int {
    (flow: Flow) => if flow.Creating? && flow.user == u && flow.device == d then 1 else 0
  }

  ghost function LiveTokens(s: State, u: nat, d: nat): int { Sum(s.db.tokens, Live(OfDevice(u, d))) }

  ghost function InBetween(s: State, u: nat, d: nat): int { Sum(s.flows, Between(u, d)) }

  ghost predicate AtMost(k: nat, u: nat, d: nat, s: State, es: seq<Event>) {
    && InBetween(After(s, es), u, d) <= k
    && (es == [] || AtMost(k, u, d, s, es[..|es| - 1]))
  }

  lemma RevokingLowers(tokens: seq<Token>, f: Filter, now: int, u: nat, d: nat)
    ensures Sum(Revoke(tokens, f, now), Live(OfDevice(u, d))) <= Sum(tokens, Live(OfDevice(u, d)))
    ensures f == OfDevice(u, d) ==> Sum(Revoke(tokens, f, now), Live(OfDevice(u, d))) <= 0
  {
    SumLe(Revoke(tokens, f, now), tokens, Live(OfDevice(u, d)), Live(OfDevice(u, d)));
    if f == OfDevice(u, d) {
      var none := (t: Token) => 0;
      SumLe(Revoke(tokens, f, now), tokens, Live(OfDevice(u, d)), none);
      SumAtMost(tokens, none, none, 0);
    }
  }

  lemma RotatingKeeps(db: Db, t: nat, u: nat, d: nat)
    requires Rotate(db, t).Some?
    ensures Sum(Rotate(db, t).value.tokens, Live(OfDevice(u, d))) == Sum(db.tokens, Live(OfDevice(u, d)))
  {
    var row := db.tokens[t];
    var revoked := row.(revoked := Some(db.clock));
    SumUpdate(db.tokens, t, revoked, Live(OfDevice(u, d)));
    SumAppend(db.tokens[t := revoked], Token(row.user, row.device, db.clock + REFRESH_LIFETIME, None, Some(t)),
              Live(OfDevice(u, d)));
  }

  /** Live tokens plus logins about to create one. */
  ghost function Claims(s: State, u: nat, d: nat): int { LiveTokens(s, u, d) + InBetween(s, u, d) }

  lemma SessionStepFlows(s: State, e: Event, u: nat, d: nat)
    requires IsSession(e) && !e.RevokeOld? && !e.CreateToken?
    ensures InBetween(Step(s, e), u, d) <= InBetween(s, u, d)
  {
    hide Revoke;
    if Step(s, e) != s { SumUpdate(s.flows, e.f, Step(s, e).flows[e.f], Between(u, d)); }
  }

  lemma RevokeOldClaims(s: State, f: nat, u: nat, d: nat)
    ensures Claims(Step(s, RevokeOld(f)), u, d) <= Claims(s, u, d)
            || Claims(Step(s, RevokeOld(f)), u, d) <= InBetween(Step(s, RevokeOld(f)), u, d)
  {
    var flow := FlowOf(s, f);
    if flow.Revoking? {
      SumUpdate(s.flows, f, Creating(flow.user, flow.device), Between(u, d));
      RevokingLowers(s.db.tokens, OfDevice(flow.user, flow.device), s.db.clock, u, d);
    }
  }

  lemma CreateClaims(s: State, f: nat, u: nat, d: nat)
    ensures Claims(Step(s, CreateToken(f)), u, d) == Claims(s, u, d)
  {
    var flow := FlowOf(s, f);
    if flow.Creating? {
      SumUpdate(s.flows, f, Ended(true), Between(u, d));
      SumAppend(s.db.tokens, Token(flow.user, Some(flow.device), s.db.clock + REFRESH_LIFETIME, None, None),
                Live(OfDevice(u, d)));
    }
  }

  lemma NoTokenCreated(s: State, e: Event, u: nat, d: nat)
    requires !e.CreateToken? && !e.RefreshRotate?
    ensures LiveTokens(Step(s, e), u, d) <= LiveTokens(s, u, d)
  {
    hide Step;
    TokensRevoked(s, e);
    match RevokedBy(s, e)
    case Some(f) => RevokingLowers(s.db.tokens, f, s.db.clock, u, d);
    case None =>
  }

  lemma SessionStepClaims(s: State, e: Event, u: nat, d: nat)
    requires IsSession(e)
    ensures Claims(Step(s, e), u, d) <= Claims(s, u, d)
            || Claims(Step(s, e), u, d) <= InBetween(Step(s, e), u, d)
  {
    match e
    case RevokeOld(f) => RevokeOldClaims(s, f, u, d);
    case CreateToken(f) => CreateClaims(s, f, u, d);
    case RefreshRotate(f) =>
      SessionStepFlows(s, e, u, d);
      if FlowOf(s, f).Refreshing? && Rotate(s.db, FlowOf(s, f).t).Some? { RotatingKeeps(s.db, FlowOf(s, f).t, u, d); }
    case _ =>
      SessionStepFlows(s, e, u, d);
      NoTokenCreated(s, e, u, d);
  }

  lemma OtherStepClaims(s: State, e: Event, u: nat, d: nat)
    requires !IsSession(e)
    ensures Claims(Step(s, e), u, d) <= Claims(s, u, d)
  {
    OtherStepFlows(s, e, u, d);
    NoTokenCreated(s, e, u, d);
  }

  lemma OtherStepFlows(s: State, e: Event, u: nat, d: nat)
    requires !IsSession(e)
    ensures InBetween(Step(s, e), u, d) <= InBetween(s, u, d)
  {
    if IsLogin(e) { LoginFlows(s, e, u, d); } else { DirectFlows(s, e, u, d); }
  }

  lemma LoginFlows(s: State, e: Event, u: nat, d: nat)
    requires IsLogin(e)
    ensures InBetween(Step(s, e), u, d) <= InBetween(s, u, d)
  {
    hide Step;
    if Step(s, e) != s {
      LoginChanges(s, e);
      if e.LoginCheck? || e.LoginCount? || e.LoginLock? || e.RecoveryUse? {
        var flow: Flow :| !flow.Creating? && Step(s, e).flows == s.flows[e.f := flow];
        SumUpdate(s.flows, e.f, flow, Between(u, d));
      } else {
        var flow: Flow :| !flow.Creating? && Step(s, e).flows == s.flows + [flow];
        SumAppend(s.flows, flow, Between(u, d));
      }
    }
  }

  /** The login steps change or add one flow, which is not yet at creating its token. */
  lemma LoginChanges(s: State, e: Event)
    requires IsLogin(e) && Step(s, e) != s
    ensures if e.LoginCheck? || e.LoginCount? || e.LoginLock? || e.RecoveryUse? then
              e.f < |s.flows| && exists flow: Flow :: !flow.Creating? && Step(s, e).flows == s.flows[e.f := flow]
            else exists flow: Flow :: !flow.Creating? && Step(s, e).flows == s.flows + [flow]
  {
    var s' := Step(s, e);
    if e.LoginCheck? || e.LoginCount? || e.LoginLock? || e.RecoveryUse? {
      assert !s'.flows[e.f].Creating?;
    } else {
      assert !s'.flows[|s.flows|].Creating?;
    }
  }

  lemma DirectFlows(s: State, e: Event, u: nat, d: nat)
    requires !IsLogin(e) && !IsSession(e)
    ensures InBetween(Step(s, e), u, d) <= InBetween(s, u, d)
  {
    if e.RefreshRead? || e.ResetRead? {
      if Step(s, e) != s { SumAppend(s.flows, Step(s, e).flows[|s.flows|], Between(u, d)); }
    } else {
      assert Step(s, e).flows == s.flows;
    }
  }

  /** The unrevoked tokens of a user's device, counted one by one. */
  ghost function LiveOn(tokens: seq<Token>, u: nat, d: nat): int {
    if tokens == [] then 0
    else
      var token := tokens[|tokens| - 1];
      LiveOn(tokens[..|tokens| - 1], u, d)
      + if token.user == u && token.device == Some(d) && token.revoked.None? then 1 else 0
  }

  lemma {:induction false} LiveCounted(tokens: seq<Token>, u: nat, d: nat)
    ensures Sum(tokens, Live(OfDevice(u, d))) == LiveOn(tokens, u, d)
  {
    if tokens != [] { LiveCounted(tokens[..|tokens| - 1], u, d); }
  }

  /** If at most k logins of a device are ever between revoking and creating at once, and it starts with at
      most one live refresh token, it never has more than k, whatever refreshes, logouts, resets, role and
      status changes and other revocations run in between. */
  lemma {:induction false} LiveTokensBounded(s: State, es: seq<Event>, u: nat, d: nat, k: nat)
    requires k >= 1 && s.flows == [] && LiveOn(s.db.tokens, u, d) <= 1 && AtMost(k, u, d, s, es)
    ensures LiveOn(After(s, es).db.tokens, u, d) <= k
  {
    hide Step;
    LiveCounted(s.db.tokens, u, d);
    LiveCounted(After(s, es).db.tokens, u, d);
    ClaimsBounded(s, es, u, d, k);
  }

  lemma {:induction false} ClaimsBounded(s: State, es: seq<Event>, u: nat, d: nat, k: nat)
    requires k >= 1 && s.flows == [] && LiveTokens(s, u, d) <= 1 && AtMost(k, u, d, s, es)
    ensures Claims(After(s, es), u, d) <= k && LiveTokens(After(s, es), u, d) <= k
  {
    if es != [] {
      var before, e := After(s, es[..|es| - 1]), es[|es| - 1];
      ClaimsBounded(s, es[..|es| - 1], u, d, k);
      if IsSession(e) { SessionStepClaims(before, e, u, d); } else { OtherStepClaims(before, e, u, d); }
    }
    SumNonNegative(After(s, es).flows, Between(u, d));
  }

  // ---- The bound is reached ----

  lemma {:induction false} AtMostConcat(k: nat, u: nat, d: nat, s: State, es: seq<Event>, fs: seq<Event>)
    requires AtMost(k, u, d, s, es) && AtMost(k, u, d, After(s, es), fs)
    ensures AtMost(k, u, d, s, es + fs)
  {
    AfterConcat(s, es, fs);
    if fs == [] {
      assert es + fs == es;
    } else {
      var n := |fs| - 1;
      assert (es + fs)[..|es + fs| - 1] == es + fs[..n];
      AtMostConcat(k, u, d, s, es, fs[..n]);
    }
  }

  lemma One(k: nat, u: nat, d: nat, s: State, es: seq<Event>, e: Event)
    requires AtMost(k, u, d, s, es) && InBetween(Step(After(s, es), e), u, d) <= k
    ensures After(s, es + [e]) == Step(After(s, es), e) && AtMost(k, u, d, s, es + [e])
  {
    assert (es + [e])[..|es|] == es;
  }

  /** One active user without MFA, and no token of the device yet. */
  ghost predicate Scene(s: State) {
    && |s.db.users| == 1 && s.db.users[0].status == ACTIVE && !s.db.users[0].mfaEnabled
    && LiveTokens(s, 0, 0) == 0
  }

  /** A login run up to the point where the old tokens are revoked. */
  lemma {:induction false} LoginUpToRevoke(s: State, k: nat) returns (es: seq<Event>)
    requires Scene(s) && InBetween(s, 0, 0) + 1 <= k
    ensures After(s, es).flows == s.flows + [Creating(0, 0)] && Scene(After(s, es)) && AtMost(k, 0, 0, s, es)
  {
    var f, v := |s.flows|, s.db.users[0];
    var s1 := Step(s, LoginRead(0, 0));
    var s2 := Step(s1, LoginCheck(f, v.password));
    var s3 := Step(s2, SignAccess(f));
    var s4 := Step(s3, RevokeOld(f));
    assert s1.flows == s.flows + [Authenticating(0, v, 0)];
    assert s2.flows == s.flows + [Issuing(0, v.role, 0)];
    assert s3.flows == s.flows + [Revoking(0, 0)];
    assert s4.flows == s.flows + [Creating(0, 0)];
    SumAppend(s.flows, Authenticating(0, v, 0), Between(0, 0));
    SumAppend(s.flows, Issuing(0, v.role, 0), Between(0, 0));
    SumAppend(s.flows, Revoking(0, 0), Between(0, 0));
    SumAppend(s.flows, Creating(0, 0), Between(0, 0));
    RevokingLowers(s.db.tokens, OfDevice(0, 0), s.db.clock, 0, 0);
    SumNonNegative(s4.db.tokens, Live(OfDevice(0, 0)));
    One(k, 0, 0, s, [], LoginRead(0, 0));
    One(k, 0, 0, s, [] + [LoginRead(0, 0)], LoginCheck(f, v.password));
    One(k, 0, 0, s, [] + [LoginRead(0, 0)] + [LoginCheck(f, v.password)], SignAccess(f));
    es := [] + [LoginRead(0, 0)] + [LoginCheck(f, v.password)] + [SignAccess(f)];
    One(k, 0, 0, s, es, RevokeOld(f));
    es := es + [RevokeOld(f)];
  }

  /** n more logins stop between revoking and creating. */
  lemma {:induction false} Overlap(s: State, n: nat, k: nat) returns (es: seq<Event>)
    requires Scene(s) && InBetween(s, 0, 0) + n <= k
    ensures Scene(After(s, es)) && AtMost(k, 0, 0, s, es) && |After(s, es).flows| == |s.flows| + n
    ensures s.flows <= After(s, es).flows
    ensures forall f :: |s.flows| <= f < |s.flows| + n ==> After(s, es).flows[f] == Creating(0, 0)
    decreases n
  {
    if n == 0 {
      es := [];
    } else {
      var fs := LoginUpToRevoke(s, k);
      var s1 := After(s, fs);
      SumAppend(s.flows, Creating(0, 0), Between(0, 0));
      var gs := Overlap(s1, n - 1, k);
      es := fs + gs;
      AfterConcat(s, fs, gs);
      AtMostConcat(k, 0, 0, s, fs, gs);
      assert s1.flows[|s.flows|] == Creating(0, 0);
    }
  }

  lemma CreateOne(s: State, f: nat)
    requires f < |s.flows| && s.flows[f] == Creating(0, 0)
    ensures var s' := Step(s, CreateToken(f));
            && s'.flows == s.flows[f := Ended(true)]
            && LiveTokens(s', 0, 0) == LiveTokens(s, 0, 0) + 1 && InBetween(s', 0, 0) == InBetween(s, 0, 0) - 1
  {
    SumUpdate(s.flows, f, Ended(true), Between(0, 0));
    SumAppend(s.db.tokens, Token(0, Some(0), s.db.clock + REFRESH_LIFETIME, None, None), Live(OfDevice(0, 0)));
  }

  /** The waiting logins from f on create their tokens. */
  lemma CreateAll(s: State, f: nat, k: nat) returns (es: seq<Event>)
    requires f <= |s.flows| && (forall g :: f <= g < |s.flows| ==> s.flows[g] == Creating(0, 0))
    requires InBetween(s, 0, 0) <= k
    ensures AtMost(k, 0, 0, s, es) && LiveTokens(After(s, es), 0, 0) == LiveTokens(s, 0, 0) + |s.flows| - f
    decreases |s.flows| - f
  {
    if f == |s.flows| {
      es := [];
    } else {
      CreateOne(s, f);
      One(k, 0, 0, s, [], CreateToken(f));
      var fs := [] + [CreateToken(f)];
      var gs := CreateAll(After(s, fs), f + 1, k);
      es := fs + gs;
      AfterConcat(s, fs, gs);
      AtMostConcat(k, 0, 0, s, fs, gs);
    }
  }

  /** For every k there is a run, never more than k logins in between at once, that leaves k live tokens. */
  lemma BoundIsReached(k: nat) returns (s: State, es: seq<Event>)
    ensures Initial(s) && AtMost(k, 0, 0, s, es) && LiveOn(After(s, es).db.tokens, 0, 0) == k
  {
    s := State(Db([User(1, CUSTOMER, ACTIVE, 0, false, None)], [], map[], map[], {}, [], [], [], 0), []);
    var fs := Overlap(s, k, k);
    var t := After(s, fs);
    AllCount(t.flows);
    var gs := CreateAll(t, 0, k);
    es := fs + gs;
    AfterConcat(s, fs, gs);
    AtMostConcat(k, 0, 0, s, fs, gs);
    LiveCounted(After(s, es).db.tokens, 0, 0);
  }

  lemma {:induction false} AllCount(flows: seq<Flow>)
    ensures Sum(flows, Between(0, 0)) <= |flows|
  {
    if flows != [] { AllCount(flows[..|flows| - 1]); }
  }

  /** A device keeps to one live refresh token in every run exactly when its logins never overlap there. */
  lemma OneTokenIffLoginsAlone(k: nat)
    requires k >= 1
    ensures (forall s, es, u, d :: Initial(s) && AtMost(k, u, d, s, es) ==>
              LiveOn(After(s, es).db.tokens, u, d) <= 1)
       <==> k == 1
  {
    if k == 1 {
      forall s, es, u, d | Initial(s) && AtMost(k, u, d, s, es) ensures LiveOn(After(s, es).db.tokens, u, d) <= 1 {
        LiveTokensBounded(s, es, u, d, 1);
      }
    } else {
      var s, es := BoundIsReached(k);
      assert LiveOn(After(s, es).db.tokens, 0, 0) > 1;
    }
  }
}
