/** Any number of authentication requests in flight. Each event is one statement or one database transaction;
    a multi-step request keeps its local variables in a flow. */
module Sessions {
  import opened Sums
  import opened AuthTables

  datatype Flow =
    | Authenticating(user: nat, seen: User, device: nat)
    // A wrong password has been recorded and is still to be counted; then the account is still to be locked.
    | Counting(user: nat)
    | Locking(user: nat)
    | Issuing(user: nat, role: Role, device: nat)
    | Revoking(user: nat, device: nat)
    | Creating(user: nat, device: nat)
    | Refreshing(t: nat, user: nat, role: Role, version: nat)
    | Rotated(user: nat, role: Role, version: nat)
    | Recovering(tag: nat, user: nat, role: Role, device: nat)
    | Resetting(tag: nat, password: nat)
    | Ended(ok: bool)

  datatype State = State(db: Db, flows: seq<Flow>)

  datatype Event =
    // A password login: the user row is read, then the password compared. A wrong one is recorded, then the
    // failures are counted, then the account may be locked; after a right one the session is issued.
    | LoginRead(user: nat, device: nat)
    | LoginCheck(f: nat, password: nat)
    | LoginCount(f: nat)
    | LoginLock(f: nat)
    | MfaVerify(claim: nat, codeValid: bool)
    | RecoveryRead(claim: nat, tag: nat)
    | RecoveryUse(f: nat)
    | SignAccess(f: nat)
    | RevokeOld(f: nat)
    | CreateToken(f: nat)
    // A refresh: read, rotate, sign.
    | RefreshRead(t: nat)
    | RefreshRotate(f: nat)
    | RefreshSign(f: nat)
    | Drop(f: nat)
    // A password reset: read the token, then consume it.
    | ResetRead(tag: nat, password: nat)
    | ResetUse(f: nat)
    | Logout(t: nat)
    | RevokeSession(user: nat, t: nat)
    | RevokeDevice(user: nat, device: nat)
    | RevokeAllSessions(user: nat)
    | PasswordChange(user: nat, current: nat, password: nat)
    | Forgot(user: nat, tag: nat)
    | RoleUpdate(admin: nat, user: nat, role: Role)
    | StatusUpdate(admin: nat, user: nat, status: UserStatus)
    | MfaSetup(user: nat, secret: nat)
    | MfaSetupVerify(user: nat, codeValid: bool, tags: set<nat>)
    | MfaRegenerate(user: nat, password: nat, codeValid: bool, tags: set<nat>)
    | MfaDisable(user: nat, password: nat, codeValid: bool)
    | Register(password: nat)
    | Tick(now: int)

  function FlowOf(s: State, f: nat): Flow { if f < |s.flows| then s.flows[f] else Ended(false) }

  function Goto(s: State, f: nat, next: Flow, db: Db): State {
    if f < |s.flows| then State(db, s.flows[f := next]) else s
  }

  function Begin(s: State, flow: Flow, db: Db): State { State(db, s.flows + [flow]) }

  /** An operation that is refused changes nothing. */
  function Try(s: State, db: Option<Db>): State { if db.Some? then s.(db := db.value) else s }

  function LoginCheckStep(s: State, f: nat, password: nat): State {
    match FlowOf(s, f)
    case Authenticating(user, seen, device) =>
      if user >= |s.db.users| then s
      else if seen.password != password then Goto(s, f, Counting(user), Attempted(s.db, user, false))
      else if seen.mfaEnabled then Goto(s, f, Ended(true), Sign(s.db, Challenge(user, device, seen.version)))
      else Goto(s, f, Issuing(user, seen.role, device), Attempted(s.db, user, true))
    case _ => s
  }

  function LoginCountStep(s: State, f: nat): State {
    match FlowOf(s, f)
    case Counting(user) => Goto(s, f, if TooManyFailures(s.db, user) then Locking(user) else Ended(false), s.db)
    case _ => s
  }

  function LoginLockStep(s: State, f: nat): State {
    match FlowOf(s, f)
    case Locking(user) => if user < |s.db.users| then Goto(s, f, Ended(false), Lock(s.db, user)) else s
    case _ => s
  }

  function RecoveryUseStep(s: State, f: nat): State {
    match FlowOf(s, f)
    case Recovering(tag, user, role, device) =>
      var used := UseCode(s.db, user, tag);
      if used.Some? then Goto(s, f, Issuing(user, role, device), Attempted(used.value, user, true))
      else Goto(s, f, Ended(false), s.db)
    case _ => s
  }

  /** The login steps up to a session being issued. */
  function LoginStep(s: State, e: Event): State {
    var db := s.db;
    match e
    case LoginRead(user, device) =>
      if user < |db.users| && db.users[user].status == ACTIVE
      then Begin(s, Authenticating(user, db.users[user], device), db) else s
    case LoginCheck(f, password) => LoginCheckStep(s, f, password)
    case LoginCount(f) => LoginCountStep(s, f)
    case LoginLock(f) => LoginLockStep(s, f)
    case MfaVerify(c, codeValid) =>
      if c < |db.claims| && ChallengeValid(db, db.claims[c]) && db.users[db.claims[c].user].secret.Some? && codeValid
      then Begin(s, Issuing(db.claims[c].user, db.users[db.claims[c].user].role, db.claims[c].device),
                 Attempted(db, db.claims[c].user, true))
      else s
    case RecoveryRead(c, tag) =>
      if c < |db.claims| && ChallengeValid(db, db.claims[c]) && CodeUsable(db, db.claims[c].user, tag)
      then Begin(s, Recovering(tag, db.claims[c].user, db.users[db.claims[c].user].role, db.claims[c].device), db)
      else s
    case RecoveryUse(f) => RecoveryUseStep(s, f)
    case _ => s
  }

  /** Issuing and rotating: the steps of a request that already has a flow. A request that stops after recording
      a wrong password is never dropped: it stays in flight, so that what is said of logins in flight covers it. */
  function SessionStep(s: State, e: Event): State {
    match e
    case SignAccess(f) =>
      (match FlowOf(s, f)
       case Issuing(user, role, device) =>
         if user < |s.db.users|
         then Goto(s, f, Revoking(user, device), Sign(s.db, Access(user, role, s.db.users[user].version)))
         else Goto(s, f, Ended(false), s.db)
       case _ => s)
    case RevokeOld(f) =>
      (match FlowOf(s, f)
       case Revoking(user, device) =>
         Goto(s, f, Creating(user, device), RevokeTokens(s.db, OfDevice(user, device)))
       case _ => s)
    case CreateToken(f) =>
      (match FlowOf(s, f)
       case Creating(user, device) => Goto(s, f, Ended(true), AddToken(s.db, user, device))
       case _ => s)
    case RefreshRotate(f) =>
      (match FlowOf(s, f)
       case Refreshing(t, user, role, version) =>
         var rotated := Rotate(s.db, t);
         if rotated.Some? then Goto(s, f, Rotated(user, role, version), rotated.value)
         else Goto(s, f, Ended(false), s.db)
       case _ => s)
    case RefreshSign(f) =>
      (match FlowOf(s, f)
       case Rotated(user, role, version) => Goto(s, f, Ended(true), Sign(s.db, Access(user, role, version)))
       case _ => s)
    case ResetUse(f) =>
      (match FlowOf(s, f)
       case Resetting(tag, password) =>
         var used := UseReset(s.db, tag, password);
         Goto(s, f, Ended(used.Some?), if used.Some? then used.value else s.db)
       case _ => s)
    case Drop(f) => if FlowOf(s, f).Counting? || FlowOf(s, f).Locking? then s else Goto(s, f, Ended(false), s.db)
    case _ => s
  }

  /** Reads that open a flow, and operations that are one step. */
  function DirectStep(s: State, e: Event): State {
    var db := s.db;
    match e
    case RefreshRead(t) =>
      if Usable(db, t)
      then
        var user := db.users[db.tokens[t].user];
        Begin(s, Refreshing(t, db.tokens[t].user, user.role, user.version), db)
      else s
    case ResetRead(tag, password) => if ResetUsable(db, tag) then Begin(s, Resetting(tag, password), db) else s
    case Logout(t) => s.(db := RevokeTokens(db, OfToken(t)))
    case RevokeSession(user, t) => s.(db := RevokeTokens(db, OfUserToken(user, t)))
    case RevokeDevice(user, device) => s.(db := RevokeTokens(db, OfDevice(user, device)))
    case RevokeAllSessions(user) => Try(s, RevokeAll(db, user))
    case PasswordChange(user, current, password) => Try(s, ChangePassword(db, user, current, password))
    case Forgot(user, tag) => Try(s, ForgotPassword(db, user, tag))
    case RoleUpdate(admin, user, role) => Try(s, UpdateRole(db, admin, user, role))
    case StatusUpdate(admin, user, status) => Try(s, UpdateStatus(db, admin, user, status))
    case MfaSetup(user, secret) => Try(s, SetupMfa(db, user, secret))
    case MfaSetupVerify(user, codeValid, tags) => Try(s, VerifySetup(db, user, codeValid, tags))
    case MfaRegenerate(user, password, codeValid, tags) => Try(s, RegenerateCodes(db, user, password, codeValid, tags))
    case MfaDisable(user, password, codeValid) => Try(s, DisableMfa(db, user, password, codeValid))
    case Register(password) =>
      s.(db := db.(users := db.users + [User(password, CUSTOMER, ACTIVE, 0, false, None)]))
    case Tick(now) => if now >= db.clock then s.(db := db.(clock := now)) else s
    case _ => s
  }

  predicate IsLogin(e: Event) {
    || e.LoginRead? || e.LoginCheck? || e.LoginCount? || e.LoginLock?
    || e.MfaVerify? || e.RecoveryRead? || e.RecoveryUse?
  }

  predicate IsSession(e: Event) {
    e.SignAccess? || e.RevokeOld? || e.CreateToken? || e.RefreshRotate? || e.RefreshSign? || e.ResetUse? || e.Drop?
  }

  function Step(s: State, e: Event): State {
    if IsLogin(e) then LoginStep(s, e) else if IsSession(e) then SessionStep(s, e) else DirectStep(s, e)
  }

  predicate IsMfa(e: Event) { e.MfaSetup? || e.MfaSetupVerify? || e.MfaRegenerate? || e.MfaDisable? }

  /** Which tokens an event other than a creation or rotation revokes. */
  function RevokedBy(s: State, e: Event): Option<Filter> {
    var db := s.db;
    match e
    case RevokeOld(f) =>
      if FlowOf(s, f).Revoking? then Some(OfDevice(FlowOf(s, f).user, FlowOf(s, f).device)) else None
    case ResetUse(f) =>
      if FlowOf(s, f).Resetting? && UseReset(db, FlowOf(s, f).tag, FlowOf(s, f).password).Some?
      then Some(OfUser(db.resets[FlowOf(s, f).tag].user)) else None
    case Logout(t) => Some(OfToken(t))
    case RevokeSession(user, t) => Some(OfUserToken(user, t))
    case RevokeDevice(user, device) => Some(OfDevice(user, device))
    case RevokeAllSessions(user) => if RevokeAll(db, user).Some? then Some(OfUser(user)) else None
    case PasswordChange(user, current, password) =>
      if ChangePassword(db, user, current, password).Some? then Some(OfUser(user)) else None
    case StatusUpdate(admin, user, status) =>
      if UpdateStatus(db, admin, user, status).Some? && status != ACTIVE then Some(OfUser(user)) else None
    case MfaDisable(user, password, codeValid) =>
      if DisableMfa(db, user, password, codeValid).Some? then Some(OfUser(user)) else None
    case _ => None
  }

  lemma TokensRevoked(s: State, e: Event)
    requires !e.CreateToken? && !e.RefreshRotate?
    ensures Step(s, e).db.tokens
         == if RevokedBy(s, e).Some? then Revoke(s.db.tokens, RevokedBy(s, e).value, s.db.clock) else s.db.tokens
  {
    if IsLogin(e) { LoginTokens(s, e); }
    else if IsSession(e) { SessionTokens(s, e); }
    else { DirectTokens(s, e); }
  }

  lemma LoginTokens(s: State, e: Event)
    requires IsLogin(e)
    ensures Step(s, e).db.tokens == s.db.tokens
  {
  }

  lemma SessionTokens(s: State, e: Event)
    requires IsSession(e) && !e.CreateToken? && !e.RefreshRotate?
    ensures Step(s, e).db.tokens
         == if RevokedBy(s, e).Some? then Revoke(s.db.tokens, RevokedBy(s, e).value, s.db.clock) else s.db.tokens
  {
  }

  lemma DirectTokens(s: State, e: Event)
    requires !IsLogin(e) && !IsSession(e)
    ensures Step(s, e).db.tokens
         == if RevokedBy(s, e).Some? then Revoke(s.db.tokens, RevokedBy(s, e).value, s.db.clock) else s.db.tokens
  {
  }

  ghost function After(s: State, es: seq<Event>): State {
    if es == [] then s else Step(After(s, es[..|es| - 1]), es[|es| - 1])
  }

  // ---- What no event ever undoes ----

  /** Tokens are only added, nothing but `revoked` changes, and that is written once. */
  ghost predicate TokensEvolve(before: seq<Token>, after: seq<Token>) {
    && |before| <= |after|
    && forall i :: 0 <= i < |before| ==>
         && after[i] == before[i].(revoked := after[i].revoked)
         && (before[i].revoked.Some? ==> after[i].revoked == before[i].revoked)
  }

  /** Users stay and their versions never decrease. */
  ghost predicate UsersEvolve(before: seq<User>, after: seq<User>) {
    && |before| <= |after|
    && forall u :: 0 <= u < |before| ==> before[u].version <= after[u].version
  }

  /** A code or reset token that is gone stays gone, and one that is used stays used. */
  ghost predicate TagsEvolve(before: Db, after: Db) {
    && before.issued <= after.issued
    && (forall tag :: tag in before.issued && tag !in before.codes ==> tag !in after.codes)
    && (forall tag :: tag in before.codes && tag in after.codes ==>
         && after.codes[tag].user == before.codes[tag].user
         && (before.codes[tag].used.Some? ==> after.codes[tag] == before.codes[tag]))
    && (forall tag :: tag in before.issued && tag !in before.resets ==> tag !in after.resets)
    && (forall tag :: tag in before.resets && tag in after.resets && before.resets[tag].used.Some? ==>
         after.resets[tag] == before.resets[tag])
  }

  ghost predicate Evolves(before: Db, after: Db) {
    && TokensEvolve(before.tokens, after.tokens)
    && UsersEvolve(before.users, after.users)
    && TagsEvolve(before, after)
    && before.clock <= after.clock
  }

  /** Every stored code and reset token was issued. */
  ghost predicate Issued(db: Db) {
    && (forall tag :: tag in db.codes ==> tag in db.issued)
    && (forall tag :: tag in db.resets ==> tag in db.issued)
  }

  lemma RevokeEvolves(tokens: seq<Token>, f: Filter, now: int)
    ensures TokensEvolve(tokens, Revoke(tokens, f, now))
  {
  }

  lemma EvolvesTransitive(a: Db, b: Db, c: Db)
    requires Issued(a) && Evolves(a, b) && Evolves(b, c)
    ensures Evolves(a, c)
  {
    forall i | 0 <= i < |a.tokens|
      ensures c.tokens[i] == a.tokens[i].(revoked := c.tokens[i].revoked)
      ensures a.tokens[i].revoked.Some? ==> c.tokens[i].revoked == a.tokens[i].revoked
    {
      assert b.tokens[i] == a.tokens[i].(revoked := b.tokens[i].revoked);
    }
  }

  lemma LoginTags(s: State, e: Event)
    requires Issued(s.db) && IsLogin(e)
    ensures TagsEvolve(s.db, Step(s, e).db) && Issued(Step(s, e).db) && Step(s, e).db.clock == s.db.clock
  {
    hide TooManyFailures;
  }

  lemma LoginEvolves(s: State, e: Event)
    requires Issued(s.db) && IsLogin(e)
    ensures Evolves(s.db, Step(s, e).db) && Issued(Step(s, e).db)
  {
    hide Step;
    LoginRows(s, e);
    LoginTags(s, e);
  }

  lemma SessionTags(s: State, e: Event)
    requires Issued(s.db) && IsSession(e)
    ensures TagsEvolve(s.db, Step(s, e).db) && Issued(Step(s, e).db) && Step(s, e).db.clock == s.db.clock
  {
    hide Revoke;
  }

  lemma SessionEvolves(s: State, e: Event)
    requires Issued(s.db) && IsSession(e)
    ensures Evolves(s.db, Step(s, e).db) && Issued(Step(s, e).db)
  {
    hide Step;
    SessionRows(s, e);
    SessionTags(s, e);
  }

  lemma NewCodesEvolve(db: Db, u: nat, tags: set<nat>)
    requires Issued(db) && FreshTags(db, tags)
    ensures TagsEvolve(db, ReplaceCodes(db, u, tags)) && Issued(ReplaceCodes(db, u, tags))
  {
  }

  lemma CodesReplaced(s: State, e: Event)
    requires (e.MfaSetupVerify? || e.MfaRegenerate?) && Step(s, e) != s
    ensures FreshTags(s.db, e.tags)
    ensures var replaced := ReplaceCodes(s.db, e.user, e.tags);
            Step(s, e).db.codes == replaced.codes && Step(s, e).db.issued == replaced.issued
            && Step(s, e).db.resets == s.db.resets
  {
    hide Revoke, CodesOf;
  }

  lemma MfaEvolves(s: State, e: Event)
    requires Issued(s.db) && IsMfa(e)
    ensures TagsEvolve(s.db, Step(s, e).db) && Issued(Step(s, e).db)
  {
    if (e.MfaSetupVerify? || e.MfaRegenerate?) && Step(s, e) != s {
      CodesReplaced(s, e);
      NewCodesEvolve(s.db, e.user, e.tags);
    }
  }

  lemma OtherEvolves(s: State, e: Event)
    requires Issued(s.db) && !IsLogin(e) && !IsSession(e) && !IsMfa(e)
    ensures TagsEvolve(s.db, Step(s, e).db) && Issued(Step(s, e).db)
  {
    hide Revoke, CodesOf;
  }

  lemma {:induction false} DirectEvolves(s: State, e: Event)
    requires Issued(s.db) && !IsLogin(e) && !IsSession(e)
    ensures Evolves(s.db, Step(s, e).db) && Issued(Step(s, e).db)
  {
    DirectRows(s, e);
    assert s.db.clock <= Step(s, e).db.clock;
    if IsMfa(e) { MfaEvolves(s, e); } else { OtherEvolves(s, e); }
  }

  lemma {:induction false} RunEvolves(s: State, es: seq<Event>)
    requires Issued(s.db)
    ensures Evolves(s.db, After(s, es).db) && Issued(After(s, es).db)
  {
    if es != [] {
      var before := After(s, es[..|es| - 1]);
      var e := es[|es| - 1];
      RunEvolves(s, es[..|es| - 1]);
      if IsLogin(e) { LoginEvolves(before, e); }
      else if IsSession(e) { SessionEvolves(before, e); }
      else { DirectEvolves(before, e); }
      EvolvesTransitive(s.db, before.db, Step(before, e).db);
    }
  }

  ghost predicate RowsStay(before: Db, after: Db) {
    TokensEvolve(before.tokens, after.tokens) && UsersEvolve(before.users, after.users)
  }

  lemma LoginRows(s: State, e: Event)
    requires IsLogin(e)
    ensures RowsStay(s.db, Step(s, e).db)
  {
  }

  lemma SessionRows(s: State, e: Event)
    requires IsSession(e)
    ensures RowsStay(s.db, Step(s, e).db)
  {
  }

  lemma DirectRows(s: State, e: Event)
    requires !IsLogin(e) && !IsSession(e)
    ensures RowsStay(s.db, Step(s, e).db)
  {
    DirectTokens(s, e);
    if RevokedBy(s, e).Some? { RevokeEvolves(s.db.tokens, RevokedBy(s, e).value, s.db.clock); }
  }

  lemma RowsTransitive(a: Db, b: Db, c: Db)
    requires RowsStay(a, b) && RowsStay(b, c)
    ensures RowsStay(a, c)
  {
    forall i | 0 <= i < |a.tokens|
      ensures c.tokens[i] == a.tokens[i].(revoked := c.tokens[i].revoked)
      ensures a.tokens[i].revoked.Some? ==> c.tokens[i].revoked == a.tokens[i].revoked
    {
      assert b.tokens[i] == a.tokens[i].(revoked := b.tokens[i].revoked);
    }
  }

  /** From any state at all: user and token rows stay, versions only grow, revocations are written once. */
  lemma {:induction false} RunRows(s: State, es: seq<Event>)
    ensures RowsStay(s.db, After(s, es).db)
  {
    if es != [] {
      var before, e := After(s, es[..|es| - 1]), es[|es| - 1];
      RunRows(s, es[..|es| - 1]);
      if IsLogin(e) { LoginRows(before, e); }
      else if IsSession(e) { SessionRows(before, e); }
      else { DirectRows(before, e); }
      RowsTransitive(s.db, before.db, Step(before, e).db);
    }
  }
}
