/** What holds of sessions, one-time credentials and signed tokens over every interleaved run. */
module SessionSafety {
  import opened Sums
  import opened AuthTables
  import opened Sessions

  // ---- The invariant ----

  ghost predicate ParentOk(tokens: seq<Token>, j: nat)
    requires j < |tokens|
  {
    tokens[j].parent.Some? ==>
      var p := tokens[j].parent.value;
      p < j && tokens[p].revoked.Some? && tokens[p].user == tokens[j].user && tokens[p].device == tokens[j].device
  }

  /** A token is replaced only once it is revoked, by a token of the same user and device, and only once. */
  ghost predicate Lineage(tokens: seq<Token>) {
    && (forall j :: 0 <= j < |tokens| ==> ParentOk(tokens, j))
    && (forall i, j :: 0 <= i < j < |tokens| && tokens[i].parent.Some? ==> tokens[i].parent != tokens[j].parent)
  }

  /** A version read at some earlier moment. */
  predicate VersionKnown(users: seq<User>, user: nat, version: nat) {
    user < |users| && version <= users[user].version
  }

  ghost predicate FlowOk(db: Db, flow: Flow) {
    match flow
    case Authenticating(user, seen, _) => VersionKnown(db.users, user, seen.version)
    case Refreshing(t, user, _, version) => VersionKnown(db.users, user, version) && t < |db.tokens|
    case Rotated(user, _, version) => VersionKnown(db.users, user, version)
    case Recovering(tag, _, _, _) => tag in db.issued
    case Counting(user) => user < |db.users|
    case Locking(user) => user < |db.users|
    case _ => true
  }

  ghost predicate ClaimsKnown(db: Db) {
    forall c :: 0 <= c < |db.claims| ==> VersionKnown(db.users, db.claims[c].user, db.claims[c].version)
  }

  ghost predicate MfaOk(db: Db, u: nat)
    requires u < |db.users|
  {
    if db.users[u].mfaEnabled then db.users[u].secret.Some? && |CodesOf(db.codes, u)| == 10
    else CodesOf(db.codes, u) == {}
  }

  ghost predicate OneResetEach(resets: map<nat, Reset>) {
    forall a, b :: a in resets && b in resets && a != b ==> resets[a].user != resets[b].user
  }

  ghost predicate CodesOwned(db: Db) {
    forall tag :: tag in db.codes ==> db.codes[tag].user < |db.users|
  }

  ghost predicate Inv(s: State) {
    && Issued(s.db) && Lineage(s.db.tokens) && ClaimsKnown(s.db) && CodesOwned(s.db)
    && (forall u :: 0 <= u < |s.db.users| ==> MfaOk(s.db, u))
    && OneResetEach(s.db.resets)
    && (forall f :: 0 <= f < |s.flows| ==> FlowOk(s.db, s.flows[f]))
  }

  /** Users may exist, with MFA off; nothing else does yet. */
  ghost predicate Initial(s: State) {
    && s.db.tokens == [] && s.db.resets == map[] && s.db.codes == map[] && s.db.attempts == []
    && s.db.changes == [] && s.db.claims == [] && s.flows == []
    && forall u :: 0 <= u < |s.db.users| ==> !s.db.users[u].mfaEnabled
  }

  // ---- Tokens ----

  lemma RevokeLineage(tokens: seq<Token>, f: Filter, now: int)
    requires Lineage(tokens)
    ensures Lineage(Revoke(tokens, f, now))
  {
    var after := Revoke(tokens, f, now);
    forall j | 0 <= j < |after| ensures ParentOk(after, j) { assert ParentOk(tokens, j); }
  }

  lemma RotateLineage(db: Db, t: nat)
    requires Lineage(db.tokens) && Rotate(db, t).Some?
    ensures Lineage(Rotate(db, t).value.tokens)
  {
    var after := Rotate(db, t).value.tokens;
    forall j | 0 <= j < |after| ensures ParentOk(after, j) {
      if j < |db.tokens| { assert ParentOk(db.tokens, j); }
    }
    forall i | 0 <= i < |db.tokens| && db.tokens[i].parent.Some? ensures db.tokens[i].parent != Some(t) {
      assert ParentOk(db.tokens, i);
    }
  }

  lemma AddLineage(tokens: seq<Token>, token: Token)
    requires Lineage(tokens) && token.parent.None?
    ensures Lineage(tokens + [token])
  {
    forall j | 0 <= j < |tokens + [token]| ensures ParentOk(tokens + [token], j) {
      if j < |tokens| { assert ParentOk(tokens, j); }
    }
  }

  lemma {:induction false} LineageKept(s: State, e: Event)
    requires Lineage(s.db.tokens)
    ensures Lineage(Step(s, e).db.tokens)
  {
    if e.CreateToken? {
      if FlowOf(s, e.f).Creating? {
        var flow := FlowOf(s, e.f);
        AddLineage(s.db.tokens, Token(flow.user, Some(flow.device), s.db.clock + REFRESH_LIFETIME, None, None));
      }
    } else if e.RefreshRotate? {
      if FlowOf(s, e.f).Refreshing? && Rotate(s.db, FlowOf(s, e.f).t).Some? { RotateLineage(s.db, FlowOf(s, e.f).t); }
    } else {
      TokensRevoked(s, e);
      if RevokedBy(s, e).Some? { RevokeLineage(s.db.tokens, RevokedBy(s, e).value, s.db.clock); }
    }
  }

  // ---- MFA and reset rows ----

  lemma ReplaceCodesMfa(db: Db, u: nat, tags: set<nat>)
    requires Issued(db) && FreshTags(db, tags)
    ensures CodesOf(ReplaceCodes(db, u, tags).codes, u) == tags
    ensures forall w: nat :: w != u ==> CodesOf(ReplaceCodes(db, u, tags).codes, w) == CodesOf(db.codes, w)
  {
    var after := ReplaceCodes(db, u, tags).codes;
    forall w: nat | w != u ensures CodesOf(after, w) == CodesOf(db.codes, w) {
      assert forall tag :: tag in CodesOf(db.codes, w) ==> tag in db.codes && tag !in tags;
    }
  }

  lemma UseCodeMfa(db: Db, u: nat, tag: nat, w: nat)
    requires UseCode(db, u, tag).Some?
    ensures CodesOf(UseCode(db, u, tag).value.codes, w) == CodesOf(db.codes, w)
  {
  }

  lemma DropCodesMfa(codes: map<nat, Code>, u: nat)
    ensures CodesOf(codes - CodesOf(codes, u), u) == {}
    ensures forall w: nat :: w != u ==> CodesOf(codes - CodesOf(codes, u), w) == CodesOf(codes, w)
  {
  }

  /** The users' MFA fields and the codes of everyone are as before. */
  ghost predicate MfaSame(before: Db, after: Db) {
    && |before.users| <= |after.users|
    && (forall u :: 0 <= u < |before.users| ==>
         && before.users[u].mfaEnabled == after.users[u].mfaEnabled && before.users[u].secret == after.users[u].secret
         && CodesOf(before.codes, u) == CodesOf(after.codes, u))
    && (forall u :: |before.users| <= u < |after.users| ==> !after.users[u].mfaEnabled && CodesOf(after.codes, u) == {})
  }

  ghost predicate AllMfaOk(db: Db) {
    CodesOwned(db) && forall u :: 0 <= u < |db.users| ==> MfaOk(db, u)
  }

  lemma MfaSameKept(before: Db, after: Db)
    requires AllMfaOk(before) && MfaSame(before, after) && CodesOwned(after)
    ensures AllMfaOk(after)
  {
    forall u | 0 <= u < |after.users| ensures MfaOk(after, u) {
      if u < |before.users| { assert MfaOk(before, u); }
    }
  }

  lemma LoginMfa(s: State, e: Event)
    requires AllMfaOk(s.db) && IsLogin(e)
    ensures AllMfaOk(Step(s, e).db)
  {
    var after := Step(s, e).db;
    if e.RecoveryUse? && FlowOf(s, e.f).Recovering? && UseCode(s.db, FlowOf(s, e.f).user, FlowOf(s, e.f).tag).Some? {
      forall w: nat ensures CodesOf(after.codes, w) == CodesOf(s.db.codes, w) {
        UseCodeMfa(s.db, FlowOf(s, e.f).user, FlowOf(s, e.f).tag, w);
      }
    } else {
      assert after.codes == s.db.codes;
    }
    MfaSameKept(s.db, after);
  }

  lemma SessionMfa(s: State, e: Event)
    requires AllMfaOk(s.db) && IsSession(e)
    ensures AllMfaOk(Step(s, e).db)
  {
    hide Step;
    SessionMfaSame(s, e);
    MfaSameKept(s.db, Step(s, e).db);
  }

  lemma SessionMfaSame(s: State, e: Event)
    requires CodesOwned(s.db) && IsSession(e)
    ensures MfaSame(s.db, Step(s, e).db) && CodesOwned(Step(s, e).db)
  {
    hide Revoke, CodesOf;
    assert Step(s, e).db.codes == s.db.codes;
  }

  lemma DirectMfa(s: State, e: Event)
    requires Issued(s.db) && AllMfaOk(s.db) && !IsLogin(e) && !IsSession(e)
    ensures AllMfaOk(Step(s, e).db)
  {
    hide Step;
    var after := Step(s, e).db;
    if IsMfa(e) {
      if after != s.db { MfaChange(s, e); }
    } else {
      DirectMfaSame(s, e);
      MfaSameKept(s.db, after);
    }
  }

  lemma DirectMfaSame(s: State, e: Event)
    requires CodesOwned(s.db) && !IsLogin(e) && !IsSession(e) && !IsMfa(e)
    ensures MfaSame(s.db, Step(s, e).db) && CodesOwned(Step(s, e).db)
  {
    hide Step;
    DirectCodes(s, e);
    forall u | |s.db.users| <= u < |Step(s, e).db.users| ensures CodesOf(s.db.codes, u) == {} {}
  }

  lemma DirectCodes(s: State, e: Event)
    requires !IsLogin(e) && !IsSession(e) && !IsMfa(e)
    ensures var before, after := s.db, Step(s, e).db;
            && after.codes == before.codes && |before.users| <= |after.users|
            && (forall u :: 0 <= u < |before.users| ==>
                 after.users[u].mfaEnabled == before.users[u].mfaEnabled
                 && after.users[u].secret == before.users[u].secret)
            && (forall u :: |before.users| <= u < |after.users| ==> !after.users[u].mfaEnabled)
  {
    hide Revoke, ResetsOf, CodesOf, Usable, ResetUsable;
  }

  lemma MfaChange(s: State, e: Event)
    requires Issued(s.db) && AllMfaOk(s.db) && Step(s, e).db != s.db
    requires e.MfaSetup? || e.MfaSetupVerify? || e.MfaRegenerate? || e.MfaDisable?
    ensures AllMfaOk(Step(s, e).db)
  {
    match e
    case MfaSetup(user, secret) => SetupKeepsMfa(s.db, user, secret);
    case MfaSetupVerify(user, _, tags) => NewCodesKeepMfa(s.db, user, tags);
    case MfaRegenerate(user, _, _, tags) =>
      assert SetUser(s.db, user, s.db.users[user].(mfaEnabled := true)).users == s.db.users;
      NewCodesKeepMfa(s.db, user, tags);
    case MfaDisable(user, password, codeValid) => DisableKeepsMfa(s.db, user, password, codeValid);
  }

  lemma SetupKeepsMfa(db: Db, u: nat, secret: nat)
    requires AllMfaOk(db) && SetupMfa(db, u, secret).Some?
    ensures AllMfaOk(SetupMfa(db, u, secret).value)
  {
    forall w | 0 <= w < |db.users| ensures MfaOk(SetupMfa(db, u, secret).value, w) { assert MfaOk(db, w); }
  }

  lemma NewCodesKeepMfa(db: Db, u: nat, tags: set<nat>)
    requires AllMfaOk(db) && Issued(db) && FreshTags(db, tags)
    requires u < |db.users| && db.users[u].secret.Some?
    ensures AllMfaOk(ReplaceCodes(SetUser(db, u, db.users[u].(mfaEnabled := true)), u, tags))
  {
    var set1 := SetUser(db, u, db.users[u].(mfaEnabled := true));
    ReplaceCodesMfa(set1, u, tags);
    forall w | 0 <= w < |db.users| ensures MfaOk(ReplaceCodes(set1, u, tags), w) { assert MfaOk(db, w); }
  }

  lemma DisableKeepsMfa(db: Db, u: nat, password: nat, codeValid: bool)
    requires AllMfaOk(db) && DisableMfa(db, u, password, codeValid).Some?
    ensures AllMfaOk(DisableMfa(db, u, password, codeValid).value)
  {
    DropCodesMfa(db.codes, u);
    forall w | 0 <= w < |db.users| ensures MfaOk(DisableMfa(db, u, password, codeValid).value, w) {
      assert MfaOk(db, w);
    }
  }

  lemma ResetsKept(s: State, e: Event)
    requires OneResetEach(s.db.resets)
    ensures OneResetEach(Step(s, e).db.resets)
  {
    if IsLogin(e) { LoginResets(s, e); } else if !e.Forgot? && !e.ResetUse? { ResetsUntouched(s, e); }
  }

  lemma LoginResets(s: State, e: Event)
    requires IsLogin(e)
    ensures Step(s, e).db.resets == s.db.resets
  {
  }

  lemma ResetsUntouched(s: State, e: Event)
    requires !IsLogin(e) && !e.Forgot? && !e.ResetUse?
    ensures Step(s, e).db.resets == s.db.resets
  {
    hide Revoke, CodesOf, ResetsOf;
  }

  // ---- Versions ----

  /** Every signed token and every snapshot carries a version some user has reached. */
  ghost predicate Known(s: State) {
    && ClaimsKnown(s.db)
    && (forall f :: 0 <= f < |s.flows| ==> FlowOk(s.db, s.flows[f]))
  }

  lemma KnownLater(before: Db, after: Db, flow: Flow)
    requires UsersEvolve(before.users, after.users) && |before.tokens| <= |after.tokens|
    requires before.issued <= after.issued && FlowOk(before, flow)
    ensures FlowOk(after, flow)
  {
  }

  lemma {:induction false} FlowsKept(s: State, e: Event)
    requires Issued(s.db) && Known(s)
    ensures forall f :: 0 <= f < |Step(s, e).flows| ==> FlowOk(Step(s, e).db, Step(s, e).flows[f])
  {
    hide Step;
    var after := Step(s, e);
    StepEvolves(s, e);
    forall f | 0 <= f < |after.flows| ensures FlowOk(after.db, after.flows[f]) {
      if f < |s.flows| {
        assert FlowOk(s.db, s.flows[f]);
        KnownLater(s.db, after.db, s.flows[f]);
        if after.flows[f] != s.flows[f] { FlowMoves(s, e, f); }
      } else {
        FlowStarts(s, e);
      }
    }
  }

  lemma {:induction false} FlowMoves(s: State, e: Event, f: nat)
    requires f < |s.flows| && FlowOk(s.db, s.flows[f])
    requires f < |Step(s, e).flows| && Step(s, e).flows[f] != s.flows[f]
    ensures FlowOk(s.db, Step(s, e).flows[f])
  {
    if IsLogin(e) { LoginMoves(s, e, f); } else { SessionMoves(s, e, f); }
  }

  lemma LoginMoves(s: State, e: Event, f: nat)
    requires IsLogin(e) && f < |s.flows| && FlowOk(s.db, s.flows[f])
    requires f < |Step(s, e).flows| && Step(s, e).flows[f] != s.flows[f]
    ensures FlowOk(s.db, Step(s, e).flows[f])
  {
  }

  lemma SessionMoves(s: State, e: Event, f: nat)
    requires !IsLogin(e) && f < |s.flows| && FlowOk(s.db, s.flows[f])
    requires f < |Step(s, e).flows| && Step(s, e).flows[f] != s.flows[f]
    ensures FlowOk(s.db, Step(s, e).flows[f])
  {
    if IsSession(e) { IssuingMoves(s, e, f); } else { DirectMovesNothing(s, e, f); }
  }

  lemma IssuingMoves(s: State, e: Event, f: nat)
    requires IsSession(e) && f < |s.flows| && FlowOk(s.db, s.flows[f])
    requires f < |Step(s, e).flows| && Step(s, e).flows[f] != s.flows[f]
    ensures FlowOk(s.db, Step(s, e).flows[f])
  {
    hide Revoke, UseReset, Rotate;
  }

  lemma DirectMovesNothing(s: State, e: Event, f: nat)
    requires !IsLogin(e) && !IsSession(e) && f < |s.flows|
    ensures f < |Step(s, e).flows| && Step(s, e).flows[f] == s.flows[f]
  {
    hide Revoke, CodesOf, ResetsOf;
  }

  lemma FlowStarts(s: State, e: Event)
    requires Issued(s.db) && |Step(s, e).flows| > |s.flows|
    ensures Step(s, e).flows[..|s.flows|] == s.flows && |Step(s, e).flows| == |s.flows| + 1
    ensures FlowOk(Step(s, e).db, Step(s, e).flows[|s.flows|])
  {
    if IsLogin(e) { LoginStarts(s, e); } else { ReadStarts(s, e); }
  }

  lemma LoginStarts(s: State, e: Event)
    requires Issued(s.db) && IsLogin(e) && |Step(s, e).flows| > |s.flows|
    ensures Step(s, e).flows[..|s.flows|] == s.flows && |Step(s, e).flows| == |s.flows| + 1
    ensures FlowOk(Step(s, e).db, Step(s, e).flows[|s.flows|])
  {
  }

  lemma ReadStarts(s: State, e: Event)
    requires !IsLogin(e) && |Step(s, e).flows| > |s.flows|
    ensures Step(s, e).flows[..|s.flows|] == s.flows && |Step(s, e).flows| == |s.flows| + 1
    ensures FlowOk(Step(s, e).db, Step(s, e).flows[|s.flows|])
  {
    hide Revoke;
  }

  lemma {:induction false} StepEvolves(s: State, e: Event)
    requires Issued(s.db)
    ensures Evolves(s.db, Step(s, e).db) && Issued(Step(s, e).db)
  {
    if IsLogin(e) { LoginEvolves(s, e); }
    else if IsSession(e) { SessionEvolves(s, e); }
    else { DirectEvolves(s, e); }
  }

  /** Only three events sign, and each signs a version its flow or the user row carries. */
  lemma ClaimAdded(s: State, e: Event)
    requires forall f :: 0 <= f < |s.flows| ==> FlowOk(s.db, s.flows[f])
    ensures Step(s, e).db.claims == s.db.claims
            || exists c :: Step(s, e).db.claims == s.db.claims + [c] && VersionKnown(s.db.users, c.user, c.version)
  {
    if e.LoginCheck? {
      var flow := FlowOf(s, e.f);
      if flow.Authenticating? {
        assert FlowOk(s.db, flow);
        assert VersionKnown(s.db.users, flow.user, flow.seen.version);
      }
    } else if e.SignAccess? || e.RefreshSign? {
      assert FlowOk(s.db, FlowOf(s, e.f));
      if Step(s, e).db.claims != s.db.claims {
        assert Step(s, e).db.claims == s.db.claims + [Step(s, e).db.claims[|s.db.claims|]];
      }
    } else {
      NothingSigned(s, e);
    }
  }

  lemma NothingSigned(s: State, e: Event)
    requires !e.LoginCheck? && !e.SignAccess? && !e.RefreshSign?
    ensures Step(s, e).db.claims == s.db.claims
  {
    if IsLogin(e) { LoginSignsNothing(s, e); }
    else if IsSession(e) { SessionSignsNothing(s, e); }
    else { DirectSignsNothing(s, e); }
  }

  lemma LoginSignsNothing(s: State, e: Event)
    requires IsLogin(e) && !e.LoginCheck?
    ensures Step(s, e).db.claims == s.db.claims
  {
    hide TooManyFailures, CodeUsable;
  }

  lemma SessionSignsNothing(s: State, e: Event)
    requires IsSession(e) && !e.SignAccess? && !e.RefreshSign?
    ensures Step(s, e).db.claims == s.db.claims
  {
    hide Revoke, ResetUsable;
  }

  lemma DirectSignsNothing(s: State, e: Event)
    requires !IsLogin(e) && !IsSession(e)
    ensures Step(s, e).db.claims == s.db.claims
  {
    hide Revoke, CodesOf, ResetsOf, Usable, ResetUsable;
  }

  lemma {:induction false} ClaimsKept(s: State, e: Event)
    requires Issued(s.db) && Known(s)
    ensures ClaimsKnown(Step(s, e).db)
  {
    StepEvolves(s, e);
    ClaimAdded(s, e);
  }

  lemma InvKept(s: State, e: Event)
    requires Inv(s)
    ensures Inv(Step(s, e))
  {
    StepEvolves(s, e);
    LineageKept(s, e);
    assert AllMfaOk(s.db);
    if IsLogin(e) { LoginMfa(s, e); }
    else if IsSession(e) { SessionMfa(s, e); }
    else { DirectMfa(s, e); }
    assert AllMfaOk(Step(s, e).db);
    ResetsKept(s, e);
    FlowsKept(s, e);
    ClaimsKept(s, e);
  }

  /** In every state of every run: lineage, MFA rows, reset rows and versions are as the invariant says. */
  lemma {:induction false} RunInv(s: State, es: seq<Event>)
    requires Inv(s)
    ensures Inv(After(s, es))
  {
    if es != [] {
      RunInv(s, es[..|es| - 1]);
      InvKept(After(s, es[..|es| - 1]), es[|es| - 1]);
    }
  }

  lemma InitialInv(s: State)
    requires Initial(s)
    ensures Inv(s)
  {
    forall u | 0 <= u < |s.db.users| ensures MfaOk(s.db, u) { assert CodesOf(s.db.codes, u) == {}; }
  }

  // ---- Main results ----

  /** Once a step has raised a user's version, every token signed for that user before it, access or MFA
      challenge, is rejected in all later states of every run, whatever else changes back. */
  lemma {:induction false} BumpInvalidatesForever(s: State, e: Event, es: seq<Event>, c: nat)
    requires Inv(s) && c < |s.db.claims|
    requires var u := s.db.claims[c].user;
             u < |s.db.users| && u < |Step(s, e).db.users|
             && s.db.users[u].version < Step(s, e).db.users[u].version
    ensures !Accepts(After(Step(s, e), es).db, s.db.claims[c])
    ensures !ChallengeValid(After(Step(s, e), es).db, s.db.claims[c])
  {
    StepEvolves(s, e);
    RunEvolves(Step(s, e), es);
    assert VersionKnown(s.db.users, s.db.claims[c].user, s.db.claims[c].version);
  }

  /** The same from the token's side: an access token below its user's version never works again. */
  lemma {:induction false} StaleStaysStale(s: State, es: seq<Event>, c: Claim)
    requires Inv(s) && c.user < |s.db.users| && c.version < s.db.users[c.user].version
    ensures !Accepts(After(s, es).db, c) && !ChallengeValid(After(s, es).db, c)
  {
    RunEvolves(s, es);
  }

  /** Which operations raise the version: every credential, role, status, lock and revoke-all change. */
  lemma ChangesBump(db: Db, u: nat, admin: nat, current: nat, password: nat, role: Role, status: UserStatus, tag: nat)
    requires u < |db.users|
    ensures var v := db.users[u].version + 1;
            && (ChangePassword(db, u, current, password).Some? ==>
                 ChangePassword(db, u, current, password).value.users[u].version == v)
            && (UpdateRole(db, admin, u, role).Some? ==> UpdateRole(db, admin, u, role).value.users[u].version == v)
            && (UpdateStatus(db, admin, u, status).Some? ==>
                 UpdateStatus(db, admin, u, status).value.users[u].version == v)
            && RevokeAll(db, u).value.users[u].version == v
            && (UseReset(db, tag, password).Some? && db.resets[tag].user == u ==>
                 UseReset(db, tag, password).value.users[u].version == v)
            && Lock(db, u).users[u].version == v
  {
  }

  /** Nothing the user held before works any more: every token signed for them is below their version, every
      refresh token of theirs is revoked. */
  ghost predicate SignedOut(before: Db, after: Db, u: nat) {
    && ClaimsDead(before, after, u)
    && |before.tokens| <= |after.tokens|
    && forall t :: 0 <= t < |before.tokens| && before.tokens[t].user == u ==> after.tokens[t].revoked.Some?
  }

  ghost predicate ClaimsDead(before: Db, after: Db, u: nat) {
    && u < |after.users|
    && forall c :: 0 <= c < |before.claims| && before.claims[c].user == u ==>
         before.claims[c].version < after.users[u].version
  }

  lemma BumpKillsClaims(s: State, after: Db, u: nat)
    requires Inv(s) && u < |s.db.users| && u < |after.users| && s.db.users[u].version < after.users[u].version
    ensures ClaimsDead(s.db, after, u)
  {
    forall c | 0 <= c < |s.db.claims| && s.db.claims[c].user == u
      ensures s.db.claims[c].version < after.users[u].version
    {
      assert VersionKnown(s.db.users, s.db.claims[c].user, s.db.claims[c].version);
    }
  }

  /** Whoever is signed out stays so: in every later state none of those tokens is accepted or usable. */
  lemma {:induction false} SignedOutForever(before: Db, s: State, es: seq<Event>, u: nat)
    requires Inv(s) && SignedOut(before, s.db, u)
    ensures SignedOut(before, After(s, es).db, u)
    ensures forall c :: 0 <= c < |before.claims| && before.claims[c].user == u ==>
              !Accepts(After(s, es).db, before.claims[c]) && !ChallengeValid(After(s, es).db, before.claims[c])
    ensures forall t :: 0 <= t < |before.tokens| && before.tokens[t].user == u ==> !Usable(After(s, es).db, t)
  {
    hide Step;
    RunEvolves(s, es);
  }

  /** A step of a request whose flow is kept apart from the others' keeps the invariant. */
  lemma OwnStep(t: State, own: Flow, e: Event)
    requires Inv(t) && FlowOk(t.db, own)
    requires t.flows <= Step(Begin(t, own, t.db), e).flows
    ensures Inv(State(Step(Begin(t, own, t.db), e).db, t.flows))
  {
    hide Step;
    var both := Begin(t, own, t.db);
    forall f | 0 <= f < |both.flows| ensures FlowOk(both.db, both.flows[f]) {
      if f < |t.flows| { assert FlowOk(t.db, t.flows[f]); }
    }
    assert Inv(both);
    InvKept(both, e);
    var after := Step(both, e);
    forall f | 0 <= f < |t.flows| ensures FlowOk(after.db, t.flows[f]) {
      assert FlowOk(after.db, after.flows[f]) && after.flows[f] == t.flows[f];
    }
  }

  /** What a guarded update can win: the right to rotate a token, a recovery code, a reset token. */
  datatype Prize = TokenRotated(t: nat) | CodeConsumed(tag: nat) | ResetConsumed(tag: nat)

  function Won(s: State, e: Event): Option<Prize> {
    match e
    case RefreshRotate(f) =>
      var flow := FlowOf(s, f);
      if flow.Refreshing? && Rotate(s.db, flow.t).Some? then Some(TokenRotated(flow.t)) else None
    case RecoveryUse(f) =>
      var flow := FlowOf(s, f);
      if flow.Recovering? && UseCode(s.db, flow.user, flow.tag).Some? then Some(CodeConsumed(flow.tag)) else None
    case ResetUse(f) =>
      var flow := FlowOf(s, f);
      if flow.Resetting? && UseReset(s.db, flow.tag, flow.password).Some? then Some(ResetConsumed(flow.tag)) else None
    case _ => None
  }

  /** The prize is gone: the row is marked, or the tag was issued and deleted. */
  predicate Spent(db: Db, p: Prize) {
    match p
    case TokenRotated(t) => t < |db.tokens| && db.tokens[t].revoked.Some?
    case CodeConsumed(tag) => tag in db.issued && (tag !in db.codes || db.codes[tag].used.Some?)
    case ResetConsumed(tag) => tag in db.issued && (tag !in db.resets || db.resets[tag].used.Some?)
  }

  lemma SpentStays(before: Db, after: Db, p: Prize)
    requires Evolves(before, after) && Spent(before, p)
    ensures Spent(after, p)
  {
  }

  lemma WinSpends(s: State, e: Event)
    requires Inv(s) && Won(s, e).Some?
    ensures !Spent(s.db, Won(s, e).value) && Spent(Step(s, e).db, Won(s, e).value)
  {
  }

  /** A revoked token, a used, replaced or deleted code, and a used or superseded reset token never succeed
      again in any later state. */
  lemma {:induction false} SpentNeverWins(s: State, es: seq<Event>, e: Event, p: Prize)
    requires Inv(s) && Spent(s.db, p)
    ensures Won(After(s, es), e) != Some(p)
    ensures p.TokenRotated? ==> !Usable(After(s, es).db, p.t)
    ensures p.CodeConsumed? ==> forall u :: !CodeUsable(After(s, es).db, u, p.tag)
    ensures p.ResetConsumed? ==> !ResetUsable(After(s, es).db, p.tag)
  {
    RunEvolves(s, es);
    RunInv(s, es);
    SpentStays(s.db, After(s, es).db, p);
    if Won(After(s, es), e) == Some(p) { WinSpends(After(s, es), e); }
  }

  lemma {:induction false} AfterConcat(s: State, es: seq<Event>, fs: seq<Event>)
    ensures After(s, es + fs) == After(After(s, es), fs)
  {
    if fs == [] {
      assert es + fs == es;
    } else {
      var n := |fs| - 1;
      assert (es + fs)[..|es + fs| - 1] == es + fs[..n];
      AfterConcat(s, es, fs[..n]);
    }
  }

  lemma WonThenLost(s: State, e: Event, fs: seq<Event>, e': Event)
    requires Inv(s) && Won(s, e).Some?
    ensures Won(After(Step(s, e), fs), e') != Won(s, e)
  {
    InvKept(s, e);
    WinSpends(s, e);
    SpentNeverWins(Step(s, e), fs, e', Won(s, e).value);
  }

  lemma AfterVia(s: State, es: seq<Event>, i: nat, j: nat)
    requires i < j <= |es|
    ensures After(s, es[..j]) == After(Step(After(s, es[..i]), es[i]), es[i + 1..j])
  {
    var next := es[..i] + [es[i]];
    assert next[..|next| - 1] == es[..i];
    assert es[..j] == next + es[i + 1..j];
    AfterConcat(s, next, es[i + 1..j]);
  }

  /** In any interleaving of requests, each refresh token is rotated, each recovery code consumed and each
      reset token used by at most one of them. */
  lemma {:induction false} AtMostOneWinner(s: State, es: seq<Event>, i: nat, j: nat)
    requires Inv(s) && i < j < |es| && Won(After(s, es[..i]), es[i]).Some?
    ensures Won(After(s, es[..j]), es[j]) != Won(After(s, es[..i]), es[i])
  {
    RunInv(s, es[..i]);
    AfterVia(s, es, i, j);
    WonThenLost(After(s, es[..i]), es[i], es[i + 1..j], es[j]);
  }

  /** A successful rotation keeps the number of live tokens of every user and of every device. */
  lemma RotationKeepsLive(db: Db, t: nat, f: Filter)
    requires Rotate(db, t).Some? && (f.OfUser? || f.OfDevice?)
    ensures Sum(Rotate(db, t).value.tokens, Live(f)) == Sum(db.tokens, Live(f))
  {
    var row := db.tokens[t];
    var revoked := row.(revoked := Some(db.clock));
    var next := Token(row.user, row.device, db.clock + REFRESH_LIFETIME, None, Some(t));
    SumUpdate(db.tokens, t, revoked, Live(f));
    SumAppend(db.tokens[t := revoked], next, Live(f));
  }

  function Unused(codes: map<nat, Code>, u: nat): set<nat> {
    set tag | tag in codes && codes[tag].user == u && codes[tag].used.None?
  }

  /** A recovery login uses up exactly one unused code of its user, and none of anyone else's. */
  lemma RecoveryUsesOneCode(db: Db, u: nat, tag: nat)
    requires UseCode(db, u, tag).Some?
    ensures var after := UseCode(db, u, tag).value.codes;
            && tag in Unused(db.codes, u) && |Unused(after, u)| == |Unused(db.codes, u)| - 1
            && forall w: nat :: w != u ==> Unused(after, w) == Unused(db.codes, w)
  {
    assert Unused(UseCode(db, u, tag).value.codes, u) == Unused(db.codes, u) - {tag};
  }

  /** The events that end every session of a user at once, when they succeed. */
  predicate EndsSessions(s: State, e: Event, u: nat) { RevokedBy(s, e) == Some(OfUser(u)) }

  /** Which events those are: revoke-all, a password change or reset, locking or suspending by an administrator,
      disabling MFA. */
  lemma WhatEndsSessions(s: State, u: nat, admin: nat, current: nat, password: nat, status: UserStatus,
                         codeValid: bool, f: nat)
    ensures u < |s.db.users| ==> EndsSessions(s, RevokeAllSessions(u), u)
    ensures ChangePassword(s.db, u, current, password).Some? ==>
              EndsSessions(s, PasswordChange(u, current, password), u)
    ensures UpdateStatus(s.db, admin, u, status).Some? && status != ACTIVE ==>
              EndsSessions(s, StatusUpdate(admin, u, status), u)
    ensures DisableMfa(s.db, u, current, codeValid).Some? ==> EndsSessions(s, MfaDisable(u, current, codeValid), u)
    ensures Won(s, ResetUse(f)).Some? && s.db.resets[FlowOf(s, f).tag].user == u ==> EndsSessions(s, ResetUse(f), u)
  {
  }

  /** After such an event no refresh token the user had is usable in any later state. */
  lemma {:induction false} EndedSessionsStayEnded(s: State, e: Event, es: seq<Event>, u: nat, t: nat)
    requires Inv(s) && EndsSessions(s, e, u) && t < |s.db.tokens| && s.db.tokens[t].user == u
    ensures !Usable(After(Step(s, e), es).db, t)
  {
    hide Step;
    TokensRevoked(s, e);
    InvKept(s, e);
    SpentNeverWins(Step(s, e), es, Drop(0), TokenRotated(t));
  }
}
