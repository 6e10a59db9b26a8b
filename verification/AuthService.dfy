/** The authentication, MFA, user-administration and device handlers as written, over shared tables. Wherever a
    handler reads first and writes later, the events of other requests in between are a parameter. */
module AuthService {
  import opened Sums
  import opened AuthTables
  import opened Sessions
  import opened SessionSafety

  datatype LoginReply = Refused | MfaRequired | SignedIn

  /** What other requests do at each point where a login has read or written and is to write next. */
  datatype Pauses = Pauses(
    beforeCheck: seq<Event>,
    beforeCount: seq<Event>,
    beforeLock: seq<Event>,
    beforeSign: seq<Event>,
    beforeRevoke: seq<Event>,
    beforeCreate: seq<Event>)

  // ---- Where a login leaves the tables ----

  /** A session issued over three statements, with other requests between them. */
  ghost function SessionIssued(s: State, user: nat, role: Role, device: nat, p: Pauses): State
    requires user < |s.db.users|
  {
    RunRows(s, p.beforeSign);
    var signing := After(s, p.beforeSign);
    var signed := signing.db.(claims := signing.db.claims + [Access(user, role, signing.db.users[user].version)]);
    var revoking := After(signing.(db := signed), p.beforeRevoke);
    var revoked := revoking.db.(tokens := DeviceRevoked(revoking.db.tokens, user, device, revoking.db.clock));
    var creating := After(revoking.(db := revoked), p.beforeCreate);
    var token := Token(user, Some(device), creating.db.clock + 604_800_000, None, None);
    creating.(db := creating.db.(tokens := creating.db.tokens + [token]))
  }

  ghost function DeviceRevoked(tokens: seq<Token>, user: nat, device: nat, now: int): seq<Token> {
    seq(|tokens|, t requires 0 <= t < |tokens| =>
      if tokens[t].user == user && tokens[t].device == Some(device) && tokens[t].revoked.None?
      then tokens[t].(revoked := Some(now)) else tokens[t])
  }

  ghost function Passed(s: State, user: nat): State {
    s.(db := s.db.(attempts := s.db.attempts + [Attempt(user, true, s.db.clock)]))
  }

  /** A wrong password recorded, the failures counted, and the account locked if they are too many. */
  ghost function LoginFailed(s: State, user: nat, p: Pauses): State
    requires user < |s.db.users|
  {
    var recorded := s.(db := s.db.(attempts := s.db.attempts + [Attempt(user, false, s.db.clock)]));
    var counting := After(recorded, p.beforeCount);
    RunRows(recorded, p.beforeCount);
    if FailuresBetween(counting.db.attempts, user, counting.db.clock - 900_000, counting.db.clock) < 5 then counting
    else
      RunRows(counting, p.beforeLock);
      var locking := After(counting, p.beforeLock);
      var seen := locking.db.users[user];
      var locked := seen.(status := LOCKED, version := seen.version + 1);
      locking.(db := locking.db.(users := locking.db.users[user := locked]))
  }

  // ---- What the other handlers look for and leave ----

  /** Of the tokens with these numbers, those still live are revoked now, and no other row changes. */
  ghost predicate RevokedWhere(before: seq<Token>, after: seq<Token>, now: int, hit: set<nat>) {
    && |after| == |before|
    && forall t: nat :: t < |before| ==>
         after[t] == if t in hit && before[t].revoked.None? then before[t].(revoked := Some(now)) else before[t]
  }

  ghost function TokensOf(tokens: seq<Token>, user: nat): set<nat> {
    set t: nat | t < |tokens| && tokens[t].user == user
  }

  ghost predicate RefreshWorks(db: Db, t: nat) {
    && t < |db.tokens| && db.tokens[t].revoked.None? && db.tokens[t].expires > db.clock
    && db.tokens[t].user < |db.users| && db.users[db.tokens[t].user].status == ACTIVE
  }

  ghost predicate ResetWorks(db: Db, tag: nat) {
    tag in db.resets && db.resets[tag].used.None? && db.resets[tag].expires > db.clock
  }

  ghost predicate CodeWorks(db: Db, user: nat, tag: nat) {
    tag in db.codes && db.codes[tag].user == user && db.codes[tag].used.None?
  }

  ghost predicate ChallengeWorks(db: Db, c: Claim) {
    && c.Challenge? && c.user < |db.users| && db.users[c.user].status == ACTIVE && db.users[c.user].mfaEnabled
    && db.users[c.user].version == c.version
  }

  ghost function LiveOf(tokens: seq<Token>, user: nat): set<int> {
    set t | 0 <= t < |tokens| && tokens[t].user == user && tokens[t].revoked.None?
  }

  lemma {:induction false} CountsLive(tokens: seq<Token>, user: nat)
    ensures Sum(tokens, Live(OfUser(user))) == |LiveOf(tokens, user)|
  {
    if tokens != [] {
      var n := |tokens| - 1;
      CountsLive(tokens[..n], user);
      LastLive(tokens, user);
      assert n !in LiveOf(tokens[..n], user);
    }
  }

  lemma LastLive(tokens: seq<Token>, user: nat)
    requires tokens != []
    ensures var n := |tokens| - 1;
            LiveOf(tokens, user)
            == LiveOf(tokens[..n], user) + if tokens[n].user == user && tokens[n].revoked.None? then {n} else {}
  {
    var n := |tokens| - 1;
    forall t ensures t in LiveOf(tokens, user)
                <==> t in LiveOf(tokens[..n], user) || (t == n && tokens[n].user == user && tokens[n].revoked.None?)
    {
      if 0 <= t < n { assert tokens[..n][t] == tokens[t]; }
    }
  }

  // ---- The session invariant at every statement ----

  lemma AttemptsAside(s: State, attempts: seq<Attempt>)
    requires Inv(s)
    ensures Inv(s.(db := s.db.(attempts := attempts)))
  {
    var after := s.db.(attempts := attempts);
    forall u | 0 <= u < |after.users| ensures MfaOk(after, u) { assert MfaOk(s.db, u); }
    forall f | 0 <= f < |s.flows| ensures FlowOk(after, s.flows[f]) { assert FlowOk(s.db, s.flows[f]); }
  }

  lemma SignKeeps(s: State, user: nat, role: Role, device: nat)
    requires Inv(s) && user < |s.db.users|
    ensures Inv(s.(db := Sign(s.db, Access(user, role, s.db.users[user].version))))
  {
    OwnStep(s, Issuing(user, role, device), SignAccess(|s.flows|));
  }

  lemma RevokeKeeps(s: State, user: nat, device: nat)
    requires Inv(s)
    ensures Inv(s.(db := RevokeTokens(s.db, OfDevice(user, device))))
  {
    OwnStep(s, Revoking(user, device), RevokeOld(|s.flows|));
  }

  lemma CreateKeeps(s: State, user: nat, device: nat)
    requires Inv(s)
    ensures Inv(s.(db := AddToken(s.db, user, device)))
  {
    OwnStep(s, Creating(user, device), CreateToken(|s.flows|));
  }

  lemma LockKeeps(s: State, user: nat)
    requires Inv(s) && user < |s.db.users|
    ensures Inv(s.(db := Lock(s.db, user)))
  {
    OwnStep(s, Locking(user), LoginLock(|s.flows|));
  }

  lemma ChallengeKeeps(s: State, user: nat, device: nat, seen: User)
    requires Inv(s) && VersionKnown(s.db.users, user, seen.version) && seen.mfaEnabled
    ensures Inv(s.(db := Sign(s.db, Challenge(user, device, seen.version))))
  {
    OwnStep(s, Authenticating(user, seen, device), LoginCheck(|s.flows|, seen.password));
  }

  lemma RotateKeeps(s: State, t: nat, user: nat, role: Role, version: nat)
    requires Inv(s) && VersionKnown(s.db.users, user, version) && Rotate(s.db, t).Some?
    ensures Inv(s.(db := Rotate(s.db, t).value))
  {
    OwnStep(s, Refreshing(t, user, role, version), RefreshRotate(|s.flows|));
  }

  lemma ResetKeeps(s: State, tag: nat, password: nat)
    requires Inv(s) && UseReset(s.db, tag, password).Some?
    ensures var after := UseReset(s.db, tag, password).value;
            Inv(s.(db := after)) && SignedOut(s.db, after, s.db.resets[tag].user)
  {
    OwnStep(s, Resetting(tag, password), ResetUse(|s.flows|));
    BumpKillsClaims(s, UseReset(s.db, tag, password).value, s.db.resets[tag].user);
  }

  lemma CodeKeeps(s: State, user: nat, tag: nat)
    requires Inv(s) && UseCode(s.db, user, tag).Some?
    ensures Inv(s.(db := UseCode(s.db, user, tag).value)) && Spent(UseCode(s.db, user, tag).value, CodeConsumed(tag))
  {
    OwnStep(s, Recovering(tag, user, CUSTOMER, 0), RecoveryUse(|s.flows|));
    var used := UseCode(s.db, user, tag).value;
    AttemptsAside(State(Attempted(used, user, true), s.flows), used.attempts);
  }

  lemma SignOldKeeps(s: State, user: nat, role: Role, version: nat)
    requires Inv(s) && VersionKnown(s.db.users, user, version)
    ensures Inv(s.(db := Sign(s.db, Access(user, role, version))))
  {
    OwnStep(s, Rotated(user, role, version), RefreshSign(|s.flows|));
  }

  /** A step that ends every session of a user and raises the version leaves nothing of theirs working. */
  lemma EndKeeps(s: State, e: Event, u: nat)
    requires Inv(s) && EndsSessions(s, e, u)
    requires u < |s.db.users| && u < |Step(s, e).db.users| && s.db.users[u].version < Step(s, e).db.users[u].version
    ensures Inv(Step(s, e)) && SignedOut(s.db, Step(s, e).db, u)
  {
    hide Step;
    InvKept(s, e);
    TokensRevoked(s, e);
    BumpKillsClaims(s, Step(s, e).db, u);
  }

  lemma CodesReplacedFor(db: Db, user: nat, tags: set<nat>)
    requires Issued(db) && FreshTags(db, tags)
    ensures Unused(ReplaceCodes(db, user, tags).codes, user) == tags
    ensures forall tag :: tag in CodesOf(db.codes, user) ==> Spent(ReplaceCodes(db, user, tags), CodeConsumed(tag))
  {
    var after := ReplaceCodes(db, user, tags).codes;
    assert forall tag :: tag in Unused(after, user) ==> tag in tags;
    assert forall tag :: tag in tags ==> tag in Unused(after, user);
  }

  /** A single-statement handler does one event of the machine. */
  lemma StepKeeps(s: State, e: Event, after: Db)
    requires Inv(s) && Step(s, e) == s.(db := after)
    ensures Inv(s.(db := after))
  {
    hide Step;
    InvKept(s, e);
  }

  lemma RevokedKeeps(s: State, f: Filter)
    requires Inv(s) && (f.OfToken? || f.OfUserToken? || f.OfDevice?)
    ensures Inv(s.(db := RevokeTokens(s.db, f)))
  {
    match f
    case OfToken(t) => StepKeeps(s, Logout(t), RevokeTokens(s.db, f));
    case OfUserToken(user, t) => StepKeeps(s, RevokeSession(user, t), RevokeTokens(s.db, f));
    case OfDevice(user, device) => StepKeeps(s, RevokeDevice(user, device), RevokeTokens(s.db, f));
  }

  lemma RevokeAllKeeps(s: State, user: nat)
    requires Inv(s) && RevokeAll(s.db, user).Some?
    ensures var after := RevokeAll(s.db, user).value; Inv(s.(db := after)) && SignedOut(s.db, after, user)
  {
    EndKeeps(s, RevokeAllSessions(user), user);
  }

  lemma ChangeKeeps(s: State, user: nat, current: nat, password: nat)
    requires Inv(s) && ChangePassword(s.db, user, current, password).Some?
    ensures var after := ChangePassword(s.db, user, current, password).value;
            Inv(s.(db := after)) && SignedOut(s.db, after, user)
  {
    EndKeeps(s, PasswordChange(user, current, password), user);
  }

  lemma ForgotKeeps(s: State, user: nat, tag: nat)
    requires Inv(s) && ForgotPassword(s.db, user, tag).Some?
    ensures var after := ForgotPassword(s.db, user, tag).value;
            && Inv(s.(db := after))
            && forall earlier :: earlier in ResetsOf(s.db.resets, user) ==> Spent(after, ResetConsumed(earlier))
  {
    StepKeeps(s, Forgot(user, tag), ForgotPassword(s.db, user, tag).value);
  }

  lemma RoleKeeps(s: State, admin: nat, user: nat, role: Role)
    requires Inv(s) && UpdateRole(s.db, admin, user, role).Some?
    ensures var after := UpdateRole(s.db, admin, user, role).value;
            Inv(s.(db := after)) && ClaimsDead(s.db, after, user)
  {
    StepKeeps(s, RoleUpdate(admin, user, role), UpdateRole(s.db, admin, user, role).value);
    BumpKillsClaims(s, UpdateRole(s.db, admin, user, role).value, user);
  }

  lemma StatusKeeps(s: State, admin: nat, user: nat, status: UserStatus)
    requires Inv(s) && UpdateStatus(s.db, admin, user, status).Some?
    ensures var after := UpdateStatus(s.db, admin, user, status).value;
            && Inv(s.(db := after)) && ClaimsDead(s.db, after, user)
            && (status != ACTIVE ==> SignedOut(s.db, after, user))
  {
    var e := StatusUpdate(admin, user, status);
    if status == ACTIVE {
      StepKeeps(s, e, UpdateStatus(s.db, admin, user, status).value);
      BumpKillsClaims(s, UpdateStatus(s.db, admin, user, status).value, user);
    } else {
      EndKeeps(s, e, user);
    }
  }

  lemma SetupKeeps(s: State, user: nat, secret: nat)
    requires Inv(s) && SetupMfa(s.db, user, secret).Some?
    ensures Inv(s.(db := SetupMfa(s.db, user, secret).value))
  {
    StepKeeps(s, MfaSetup(user, secret), SetupMfa(s.db, user, secret).value);
  }

  lemma VerifyKeeps(s: State, user: nat, codeValid: bool, tags: set<nat>)
    requires Inv(s) && VerifySetup(s.db, user, codeValid, tags).Some?
    ensures var after := VerifySetup(s.db, user, codeValid, tags).value;
            Inv(s.(db := after)) && Unused(after.codes, user) == tags
  {
    StepKeeps(s, MfaSetupVerify(user, codeValid, tags), VerifySetup(s.db, user, codeValid, tags).value);
    CodesReplacedFor(s.db, user, tags);
  }

  lemma RegenerateKeeps(s: State, user: nat, password: nat, codeValid: bool, tags: set<nat>)
    requires Inv(s) && RegenerateCodes(s.db, user, password, codeValid, tags).Some?
    ensures var after := RegenerateCodes(s.db, user, password, codeValid, tags).value;
            && Inv(s.(db := after)) && Unused(after.codes, user) == tags
            && forall tag :: tag in CodesOf(s.db.codes, user) ==> Spent(after, CodeConsumed(tag))
  {
    StepKeeps(s, MfaRegenerate(user, password, codeValid, tags),
              RegenerateCodes(s.db, user, password, codeValid, tags).value);
    CodesReplacedFor(s.db, user, tags);
  }

  /** MFA off leaves no usable refresh token, no code that could ever work and no valid challenge. */
  ghost predicate SecondFactorGone(before: Db, after: Db, user: nat) {
    && (forall tag :: tag in CodesOf(before.codes, user) ==> Spent(after, CodeConsumed(tag)))
    && (forall t :: 0 <= t < |after.tokens| && after.tokens[t].user == user ==> Spent(after, TokenRotated(t)))
    && (forall c: Claim :: c.user == user ==> !ChallengeValid(after, c))
  }

  lemma DisableKeeps(s: State, user: nat, password: nat, codeValid: bool)
    requires Inv(s) && DisableMfa(s.db, user, password, codeValid).Some?
    ensures var after := DisableMfa(s.db, user, password, codeValid).value;
            Inv(s.(db := after)) && SecondFactorGone(s.db, after, user)
  {
    StepKeeps(s, MfaDisable(user, password, codeValid), DisableMfa(s.db, user, password, codeValid).value);
  }

  /** Every intermediate state of issuing a session keeps the invariant, whatever runs in between. */
  lemma IssuedKeeps(s: State, user: nat, role: Role, device: nat, p: Pauses)
    requires Inv(s) && user < |s.db.users|
    ensures Inv(SessionIssued(s, user, role, device, p))
  {
    hide Inv, Step;
    RunRows(s, p.beforeSign);
    RunInv(s, p.beforeSign);
    var signing := After(s, p.beforeSign);
    SignKeeps(signing, user, role, device);
    var signed := signing.(db := Sign(signing.db, Access(user, role, signing.db.users[user].version)));
    RunInv(signed, p.beforeRevoke);
    var revoking := After(signed, p.beforeRevoke);
    RevokeKeeps(revoking, user, device);
    DeviceRevokedIs(revoking.db.tokens, user, device, revoking.db.clock);
    var revoked := revoking.(db := RevokeTokens(revoking.db, OfDevice(user, device)));
    RunInv(revoked, p.beforeCreate);
    CreateKeeps(After(revoked, p.beforeCreate), user, device);
  }

  lemma DeviceRevokedIs(tokens: seq<Token>, user: nat, device: nat, now: int)
    ensures DeviceRevoked(tokens, user, device, now) == Revoke(tokens, OfDevice(user, device), now)
  {
  }

  lemma FailedKeeps(s: State, user: nat, p: Pauses)
    requires Inv(s) && user < |s.db.users|
    ensures Inv(LoginFailed(s, user, p))
  {
    hide Inv, Step;
    var recorded := s.(db := Attempted(s.db, user, false));
    AttemptsAside(s, recorded.db.attempts);
    RunInv(recorded, p.beforeCount);
    RunRows(recorded, p.beforeCount);
    var counting := After(recorded, p.beforeCount);
    FailuresCount(counting.db.attempts, user, counting.db.clock - LOCK_WINDOW, counting.db.clock);
    if TooManyFailures(counting.db, user) {
      RunInv(counting, p.beforeLock);
      RunRows(counting, p.beforeLock);
      LockKeeps(After(counting, p.beforeLock), user);
    }
  }

  class Backend {
    var users: seq<User>
    var tokens: seq<Token>
    var resets: map<nat, Reset>
    var codes: map<nat, Code>
    var issued: set<nat>
    var attempts: seq<Attempt>
    var changes: seq<StatusChange>
    var claims: seq<Claim>
    var clock: int
    /** Other requests in flight. */
    var others: seq<Flow>

    constructor (users: seq<User>, clock: int)
      ensures Tables() == Db(users, [], map[], map[], {}, [], [], [], clock) && others == []
    {
      this.users, this.tokens, this.resets, this.codes, this.issued := users, [], map[], map[], {};
      this.attempts, this.changes, this.claims, this.clock, this.others := [], [], [], clock, [];
    }

    function Tables(): Db
      reads this
    {
      Db(users, tokens, resets, codes, issued, attempts, changes, claims, clock)
    }

    function Now(): State
      reads this
    {
      State(Tables(), others)
    }

    /** Other requests run. */
    method Yield(es: seq<Event>)
      modifies this
      ensures Now() == After(old(Now()), es)
    {
      hide Step;
      var i := 0;
      while i < |es|
        invariant 0 <= i <= |es| && Now() == After(old(Now()), es[..i])
      {
        var next := Step(Now(), es[i]);
        assert es[..i + 1][..i] == es[..i];
        users, tokens, resets := next.db.users, next.db.tokens, next.db.resets;
        codes, issued := next.db.codes, next.db.issued;
        attempts, changes, claims, clock := next.db.attempts, next.db.changes, next.db.claims, next.db.clock;
        others := next.flows;
        i := i + 1;
      }
      assert es[..|es|] == es;
    }

    // ---- Sessions ----

    /** Sign with the version read now, revoke the device's tokens, create the new one. */
    method IssueSession(user: nat, role: Role, device: nat, p: Pauses)
      requires user < |users|
      modifies this
      ensures Now() == SessionIssued(old(Now()), user, role, device, p)
      ensures Inv(old(Now())) ==> Inv(Now())
    {
      hide Inv, Step;
      ghost var s := Now();
      RunRows(s, p.beforeSign);
      Yield(p.beforeSign);
      claims := claims + [Access(user, role, users[user].version)];
      Yield(p.beforeRevoke);
      DeviceRevokedIs(tokens, user, device, clock);
      tokens := Revoke(tokens, OfDevice(user, device), clock);
      Yield(p.beforeCreate);
      tokens := tokens + [Token(user, Some(device), clock + REFRESH_LIFETIME, None, None)];
      if Inv(s) { IssuedKeeps(s, user, role, device, p); }
    }

    /** A wrong password is recorded, then the failures are counted, then the account may be locked. */
    method RecordFailure(user: nat, p: Pauses)
      requires user < |users|
      modifies this
      ensures Now() == LoginFailed(old(Now()), user, p)
      ensures Inv(old(Now())) ==> Inv(Now())
    {
      hide Inv, Step;
      ghost var s := Now();
      attempts := attempts + [Attempt(user, false, clock)];
      RunRows(Now(), p.beforeCount);
      Yield(p.beforeCount);
      var failed := Sum(attempts, FailedIn(user, clock - LOCK_WINDOW, clock));
      FailuresCount(attempts, user, clock - LOCK_WINDOW, clock);
      if failed >= LOCK_THRESHOLD {
        RunRows(Now(), p.beforeLock);
        Yield(p.beforeLock);
        users := users[user := users[user].(status := LOCKED, version := users[user].version + 1)];
      }
      if Inv(s) { FailedKeeps(s, user, p); }
    }

    /** Only an account read as active goes on to the password; a wrong password is recorded and may lock. */
    method Login(user: nat, password: nat, device: nat, p: Pauses) returns (reply: LoginReply)
      modifies this
      ensures var s := old(Now());
              if user >= |s.db.users| || s.db.users[user].status != ACTIVE then reply == Refused && Now() == s
              else
                var seen, t := s.db.users[user], After(s, p.beforeCheck);
                && user < |t.db.users|
                && if seen.password != password then reply == Refused && Now() == LoginFailed(t, user, p)
                   else if seen.mfaEnabled then
                     && reply == MfaRequired
                     && Now() == t.(db := t.db.(claims := t.db.claims + [Challenge(user, device, seen.version)]))
                   else
                     && reply == SignedIn
                     && Now() == SessionIssued(Passed(t, user), user, seen.role, device, p)
      ensures Inv(old(Now())) ==> Inv(Now())
    {
      hide Inv, Step;
      if user >= |users| {
        return Refused;
      }
      var seen := users[user];
      if seen.status == LOCKED {
        return Refused;
      }
      if seen.status == SUSPENDED {
        return Refused;
      }
      ghost var s := Now();
      RunRows(s, p.beforeCheck);
      if Inv(s) { RunInv(s, p.beforeCheck); }
      Yield(p.beforeCheck);
      if seen.password != password {
        RecordFailure(user, p);
        return Refused;
      }
      ghost var t := Now();
      if seen.mfaEnabled {
        claims := claims + [Challenge(user, device, seen.version)];
        if Inv(t) { ChallengeKeeps(t, user, device, seen); }
        return MfaRequired;
      }
      attempts := attempts + [Attempt(user, true, clock)];
      if Inv(t) { AttemptsAside(t, attempts); }
      IssueSession(user, seen.role, device, p);
      reply := SignedIn;
    }

    /** The second factor, by a code: it takes a challenge of the version the active user is at, and the code. */
    method VerifyMfaLogin(c: Claim, codeValid: bool, beforeCode: seq<Event>, beforeRecord: seq<Event>, p: Pauses)
      returns (ok: bool)
      modifies this
      ensures var s, r := old(Now()), After(old(Now()), beforeCode);
              && (ok <==> && ChallengeWorks(s.db, c) && c.user < |r.db.users| && r.db.users[c.user].mfaEnabled
                          && r.db.users[c.user].secret.Some? && codeValid)
              && (!ok ==> Now() == if ChallengeWorks(s.db, c) then r else s)
              && (ok ==>
                   var t := After(r, beforeRecord);
                   && c.user < |t.db.users|
                   && Now() == SessionIssued(Passed(t, c.user), c.user, s.db.users[c.user].role, c.device, p))
      ensures Inv(old(Now())) ==> Inv(Now())
    {
      hide Inv, Step;
      if !c.Challenge? || c.user >= |users| {
        return false;
      }
      var user := users[c.user];
      if user.status != ACTIVE || !user.mfaEnabled || user.version != c.version {
        return false;
      }
      ghost var s := Now();
      if Inv(s) { RunInv(s, beforeCode); }
      RunRows(s, beforeCode);
      Yield(beforeCode);
      if !users[c.user].mfaEnabled || users[c.user].secret.None? || !codeValid {
        return false;
      }
      ghost var r := Now();
      if Inv(r) { RunInv(r, beforeRecord); }
      RunRows(r, beforeRecord);
      Yield(beforeRecord);
      ghost var t := Now();
      attempts := attempts + [Attempt(c.user, true, clock)];
      if Inv(t) { AttemptsAside(t, attempts); }
      IssueSession(c.user, user.role, c.device, p);
      ok := true;
    }

    /** The second factor, by a recovery code. */
    method VerifyMfaRecoveryLogin(c: Claim, tag: nat, beforeLookup: seq<Event>, beforeUse: seq<Event>,
                                  beforeRecord: seq<Event>, p: Pauses) returns (ok: bool)
      modifies this
      ensures var s, r := old(Now()), After(old(Now()), beforeLookup);
              var u := After(r, beforeUse);
              && (ok <==> ChallengeWorks(s.db, c) && CodeWorks(r.db, c.user, tag) && CodeWorks(u.db, c.user, tag))
              && (!ok ==> Now() == if !ChallengeWorks(s.db, c) then s
                                   else if CodeWorks(r.db, c.user, tag) then u else r)
              && (ok ==>
                   var used := u.(db := u.db.(codes := u.db.codes[tag := Code(c.user, Some(u.db.clock))]));
                   var t := After(used, beforeRecord);
                   && c.user < |t.db.users|
                   && Now() == SessionIssued(Passed(t, c.user), c.user, s.db.users[c.user].role, c.device, p))
      ensures Inv(old(Now())) ==> Inv(Now())
    {
      hide Inv, Step;
      if !c.Challenge? || c.user >= |users| {
        return false;
      }
      var user := users[c.user];
      if user.status != ACTIVE || !user.mfaEnabled || user.version != c.version {
        return false;
      }
      ghost var s := Now();
      if Inv(s) { RunInv(s, beforeLookup); }
      RunRows(s, beforeLookup);
      Yield(beforeLookup);
      RunRows(Now(), beforeUse);
      ok := ConsumeRecoveryCode(c.user, tag, beforeUse);
      if !ok {
        return;
      }
      ghost var used := Now();
      if Inv(used) { RunInv(used, beforeRecord); }
      RunRows(used, beforeRecord);
      Yield(beforeRecord);
      ghost var t := Now();
      attempts := attempts + [Attempt(c.user, true, clock)];
      if Inv(t) { AttemptsAside(t, attempts); }
      IssueSession(c.user, user.role, c.device, p);
    }

    /** Rotation: what was read decides who may try, the guarded update decides who wins. */
    method Refresh(t: nat, beforeRotate: seq<Event>, beforeSign: seq<Event>) returns (ok: bool)
      modifies this
      ensures var s := old(Now());
              if !Usable(s.db, t) then !ok && Now() == s
              else
                var row, user := s.db.tokens[t], s.db.users[s.db.tokens[t].user];
                var r := After(s, beforeRotate);
                var rotated := Rotate(r.db, t);
                if rotated.None? then !ok && Now() == r
                else
                  var signing := After(r.(db := rotated.value), beforeSign);
                  ok && Now() == signing.(db := Sign(signing.db, Access(row.user, user.role, user.version)))
      ensures Inv(old(Now())) ==> Inv(Now())
      ensures var s, r := old(Now()), After(old(Now()), beforeRotate);
              && (ok <==> RefreshWorks(s.db, t) && t < |r.db.tokens| && r.db.tokens[t].revoked.None?)
              && (!ok ==> Now() == if RefreshWorks(s.db, t) then r else s)
              && (ok ==>
                   var row := s.db.tokens[t];
                   var rotated := r.(db := r.db.(tokens :=
                     r.db.tokens[t := r.db.tokens[t].(revoked := Some(r.db.clock))]
                     + [Token(row.user, row.device, r.db.clock + 604_800_000, None, Some(t))]));
                   var seen, signing := s.db.users[row.user], After(rotated, beforeSign);
                   Now() == signing.(db := signing.db.(
                     claims := signing.db.claims + [Access(row.user, seen.role, seen.version)])))
    {
      hide Inv, Step;
      if t >= |tokens| {
        return false;
      }
      var stored := tokens[t];
      if stored.revoked.Some? || stored.expires <= clock {
        return false;
      }
      if stored.user >= |users| || users[stored.user].status != ACTIVE {
        return false;
      }
      var user := users[stored.user];
      ghost var s := Now();
      RunRows(s, beforeRotate);
      if Inv(s) { RunInv(s, beforeRotate); }
      Yield(beforeRotate);
      if tokens[t].revoked.Some? {
        return false;
      }
      ghost var r := Now();
      tokens := tokens[t := tokens[t].(revoked := Some(clock))]
              + [Token(stored.user, stored.device, clock + REFRESH_LIFETIME, None, Some(t))];
      if Inv(r) { RotateKeeps(r, t, stored.user, user.role, user.version); }
      ghost var rotated := Now();
      assert rotated == r.(db := Rotate(r.db, t).value);
      hide Rotate, Usable;
      RunRows(rotated, beforeSign);
      if Inv(rotated) { RunInv(rotated, beforeSign); }
      Yield(beforeSign);
      ghost var signing := Now();
      claims := claims + [Access(stored.user, user.role, user.version)];
      if Inv(signing) { SignOldKeeps(signing, stored.user, user.role, user.version); }
      ok := true;
    }

    /** The token is revoked for good. */
    method Logout(t: nat)
      modifies this`tokens
      ensures Tables() == RevokeTokens(old(Tables()), OfToken(t))
      ensures Inv(old(Now())) ==> Inv(Now())
      ensures t < |old(tokens)| ==> Spent(Tables(), TokenRotated(t))
      ensures RevokedWhere(old(tokens), tokens, clock, {t})
    {
      hide Inv, Step;
      ghost var s := Now();
      tokens := Revoke(tokens, OfToken(t), clock);
      if Inv(s) { RevokedKeeps(s, OfToken(t)); }
    }

    method RevokeSession(user: nat, t: nat) returns (found: bool)
      modifies this`tokens
      ensures Tables() == RevokeTokens(old(Tables()), OfUserToken(user, t))
      ensures found <==> Tables() != old(Tables())
      ensures Inv(old(Now())) ==> Inv(Now())
      ensures found <==> t < |old(tokens)| && old(tokens)[t].user == user && old(tokens)[t].revoked.None?
      ensures RevokedWhere(old(tokens), tokens, clock, if found then {t} else {})
    {
      hide Inv, Step;
      ghost var s := Now();
      found := t < |tokens| && tokens[t].user == user && tokens[t].revoked.None?;
      ghost var before := tokens;
      tokens := Revoke(tokens, OfUserToken(user, t), clock);
      assert found ==> tokens[t] != before[t];
      assert !found ==> tokens == before;
      if Inv(s) { RevokedKeeps(s, OfUserToken(user, t)); }
    }

    /** Everything the user held stops working; the count is what was live. */
    method RevokeAllSessions(user: nat) returns (count: int)
      requires user < |users|
      modifies this`tokens, this`users
      ensures Tables() == RevokeAll(old(Tables()), user).value
      ensures count == Sum(old(tokens), Live(OfUser(user)))
      ensures Inv(old(Now())) ==> Inv(Now()) && SignedOut(old(Tables()), Tables(), user)
      ensures count == |LiveOf(old(tokens), user)|
      ensures RevokedWhere(old(tokens), tokens, clock, TokensOf(old(tokens), user))
      ensures users == old(users)[user := old(users)[user].(version := old(users)[user].version + 1)]
    {
      hide Inv, Step, SignedOut;
      ghost var s := Now();
      count := Sum(tokens, Live(OfUser(user)));
      CountsLive(tokens, user);
      tokens := Revoke(tokens, OfUser(user), clock);
      users := users[user := users[user].(version := users[user].version + 1)];
      if Inv(s) { RevokeAllKeeps(s, user); }
    }

    method RevokeDeviceSessions(user: nat, device: nat)
      modifies this`tokens
      ensures Tables() == RevokeTokens(old(Tables()), OfDevice(user, device))
      ensures Inv(old(Now())) ==> Inv(Now())
      ensures RevokedWhere(old(tokens), tokens, clock,
                           set t: nat | t < |old(tokens)| && old(tokens)[t].user == user
                                        && old(tokens)[t].device == Some(device))
    {
      hide Inv, Step;
      ghost var s := Now();
      tokens := Revoke(tokens, OfDevice(user, device), clock);
      if Inv(s) { RevokedKeeps(s, OfDevice(user, device)); }
    }

    // ---- Passwords ----

    /** A change of password ends everything the user held. */
    method ChangePasswordOf(user: nat, current: nat, password: nat) returns (ok: bool)
      modifies this`tokens, this`users
      ensures ok == ChangePassword(old(Tables()), user, current, password).Some?
      ensures Tables() == if ok then ChangePassword(old(Tables()), user, current, password).value else old(Tables())
      ensures Inv(old(Now())) ==> Inv(Now()) && (ok ==> SignedOut(old(Tables()), Tables(), user))
      ensures ok <==> user < |old(users)| && old(users)[user].password == current && current != password
      ensures !ok ==> Now() == old(Now())
      ensures ok ==>
                && users == old(users)[user := old(users)[user].(password := password,
                                                                 version := old(users)[user].version + 1)]
                && RevokedWhere(old(tokens), tokens, clock, TokensOf(old(tokens), user))
    {
      hide Inv, Step, SignedOut;
      if current == password || user >= |users| || users[user].password != current {
        return false;
      }
      ghost var s := Now();
      users := users[user := users[user].(password := password, version := users[user].version + 1)];
      tokens := Revoke(tokens, OfUser(user), clock);
      if Inv(s) { ChangeKeeps(s, user, current, password); }
      ok := true;
    }

    /** A request replaces every earlier reset token of an active user; those never work again. */
    method Forgot(user: nat, tag: nat)
      requires tag !in issued
      modifies this`resets, this`issued
      ensures var after := ForgotPassword(old(Tables()), user, tag);
              Tables() == if after.Some? then after.value else old(Tables())
      ensures Inv(old(Now())) ==> Inv(Now())
      ensures Inv(old(Now())) && Tables() != old(Tables()) ==>
                forall earlier :: earlier in ResetsOf(old(resets), user) ==> Spent(Tables(), ResetConsumed(earlier))
      ensures var active := user < |users| && users[user].status == ACTIVE;
              && (!active ==> resets == old(resets))
              && (active ==>
                   && tag in resets && resets[tag] == Reset(user, clock + 3_600_000, None)
                   && forall other :: other != tag ==>
                        (other in resets <==> other in old(resets) && old(resets)[other].user != user)
                        && (other in resets ==> resets[other] == old(resets)[other]))
    {
      hide Inv, Step;
      if user < |users| && users[user].status == ACTIVE {
        ghost var s := Now();
        resets := resets - ResetsOf(resets, user);
        resets := resets[tag := Reset(user, clock + RESET_LIFETIME, None)];
        issued := issued + {tag};
        if Inv(s) { ForgotKeeps(s, user, tag); }
      }
    }

    /** A reset token is checked when read and again when consumed; success ends everything its user held. */
    method ResetPassword(tag: nat, password: nat, beforeUse: seq<Event>) returns (ok: bool)
      modifies this
      ensures var s := old(Now());
              if !ResetUsable(s.db, tag) then !ok && Now() == s
              else
                var r := After(s, beforeUse);
                var used := UseReset(r.db, tag, password);
                && ok == used.Some? && Now() == (if ok then r.(db := used.value) else r)
                && (Inv(s) && ok ==> SignedOut(r.db, Tables(), r.db.resets[tag].user))
      ensures Inv(old(Now())) ==> Inv(Now())
      ensures var s, r := old(Now()), After(old(Now()), beforeUse);
              && (ok <==> ResetWorks(s.db, tag) && ResetWorks(r.db, tag) && r.db.resets[tag].user < |r.db.users|)
              && (!ok ==> Now() == if ResetWorks(s.db, tag) then r else s)
              && (ok ==>
                   var user := r.db.resets[tag].user;
                   && RevokedWhere(r.db.tokens, tokens, clock, TokensOf(r.db.tokens, user))
                   && Now() == r.(db := r.db.(
                        resets := r.db.resets[tag := r.db.resets[tag].(used := Some(r.db.clock))],
                        users := r.db.users[user := r.db.users[user].(password := password,
                                                                      version := r.db.users[user].version + 1)],
                        tokens := tokens)))
    {
      hide Inv, Step, SignedOut;
      if tag !in resets || resets[tag].used.Some? || resets[tag].expires <= clock {
        return false;
      }
      ghost var s := Now();
      if Inv(s) { RunInv(s, beforeUse); }
      Yield(beforeUse);
      if tag !in resets || resets[tag].used.Some? || resets[tag].expires <= clock || resets[tag].user >= |users| {
        return false;
      }
      ghost var r := Now();
      var user := resets[tag].user;
      resets := resets[tag := resets[tag].(used := Some(clock))];
      users := users[user := users[user].(password := password, version := users[user].version + 1)];
      tokens := Revoke(tokens, OfUser(user), clock);
      if Inv(r) { ResetKeeps(r, tag, password); }
      ok := true;
    }

    // ---- Administration and the guard ----

    /** A new role ends every signed token of the user, even if the role is changed back later. */
    method UpdateRoleOf(admin: nat, user: nat, role: Role) returns (ok: bool)
      modifies this`users
      ensures ok == UpdateRole(old(Tables()), admin, user, role).Some?
      ensures Tables() == if ok then UpdateRole(old(Tables()), admin, user, role).value else old(Tables())
      ensures Inv(old(Now())) ==> Inv(Now()) && (ok ==> ClaimsDead(old(Tables()), Tables(), user))
      ensures ok <==> user < |old(users)| && !(admin == user && role != ADMIN) && old(users)[user].role != role
      ensures users == if ok then old(users)[user := old(users)[user].(role := role,
                                                                      version := old(users)[user].version + 1)]
                       else old(users)
    {
      hide Inv, Step, ClaimsDead;
      if user >= |users| || (admin == user && role != ADMIN) || users[user].role == role {
        return false;
      }
      ghost var s := Now();
      users := users[user := users[user].(role := role, version := users[user].version + 1)];
      if Inv(s) { RoleKeeps(s, admin, user, role); }
      ok := true;
    }

    /** A new status ends every signed token of the user; locking and suspending end everything they held. */
    method UpdateStatusOf(admin: nat, user: nat, status: UserStatus) returns (ok: bool)
      modifies this`users, this`tokens, this`changes
      ensures ok == UpdateStatus(old(Tables()), admin, user, status).Some?
      ensures Tables() == if ok then UpdateStatus(old(Tables()), admin, user, status).value else old(Tables())
      ensures Inv(old(Now())) ==> Inv(Now()) && (ok ==> ClaimsDead(old(Tables()), Tables(), user))
      ensures Inv(old(Now())) && ok && status != ACTIVE ==> SignedOut(old(Tables()), Tables(), user)
      ensures ok <==> user < |old(users)| && !(admin == user && status != ACTIVE) && old(users)[user].status != status
      ensures !ok ==> Now() == old(Now())
      ensures ok ==>
                && users == old(users)[user := old(users)[user].(status := status,
                                                                 version := old(users)[user].version + 1)]
                && RevokedWhere(old(tokens), tokens, clock,
                                if status in {LOCKED, SUSPENDED} then TokensOf(old(tokens), user) else {})
                && changes == old(changes) + [StatusChange(user, status, clock)]
    {
      hide Inv, Step, SignedOut, ClaimsDead;
      if user >= |users| || (admin == user && status != ACTIVE) || users[user].status == status {
        return false;
      }
      ghost var s := Now();
      users := users[user := users[user].(status := status, version := users[user].version + 1)];
      if status == LOCKED || status == SUSPENDED {
        tokens := Revoke(tokens, OfUser(user), clock);
      }
      changes := changes + [StatusChange(user, status, clock)];
      if Inv(s) { StatusKeeps(s, admin, user, status); }
      ok := true;
    }

    method CanActivate(c: Claim) returns (ok: bool)
      ensures ok == Accepts(Tables(), c)
      ensures ok <==>
                && c.Access? && c.user < |users| && users[c.user].status != LOCKED && users[c.user].status != SUSPENDED
                && users[c.user].role == c.role && users[c.user].version == c.version
    {
      if !c.Access? {
        return false;
      }
      if c.user >= |users| {
        return false;
      }
      var user := users[c.user];
      if user.status == LOCKED {
        return false;
      }
      if user.status == SUSPENDED {
        return false;
      }
      if user.role != c.role {
        return false;
      }
      ok := c.version == user.version;
    }

    // ---- Multi-factor authentication ----

    method Setup(user: nat, secret: nat) returns (ok: bool)
      modifies this`users
      ensures ok == SetupMfa(old(Tables()), user, secret).Some?
      ensures Tables() == if ok then SetupMfa(old(Tables()), user, secret).value else old(Tables())
      ensures Inv(old(Now())) ==> Inv(Now())
      ensures ok <==> user < |old(users)| && !old(users)[user].mfaEnabled
      ensures users == if ok then old(users)[user := old(users)[user].(secret := Some(secret), mfaEnabled := false)]
                       else old(users)
    {
      hide Inv, Step;
      if user >= |users| || users[user].mfaEnabled {
        return false;
      }
      ghost var s := Now();
      users := users[user := users[user].(secret := Some(secret), mfaEnabled := false)];
      if Inv(s) { SetupKeeps(s, user, secret); }
      ok := true;
    }

    /** Delete the user's codes and store ten fresh ones. */
    method ReplaceRecoveryCodes(user: nat, tags: set<nat>)
      modifies this`codes, this`issued
      ensures Tables() == ReplaceCodes(old(Tables()), user, tags)
      ensures forall tag :: tag in codes <==> tag in tags || (tag in old(codes) && old(codes)[tag].user != user)
      ensures forall tag :: tag in codes ==> codes[tag] == if tag in tags then Code(user, None) else old(codes)[tag]
    {
      codes := codes - CodesOf(codes, user);
      codes := codes + map tag | tag in tags :: Code(user, None);
      issued := issued + tags;
    }

    method VerifySetupOf(user: nat, codeValid: bool, tags: set<nat>) returns (ok: bool)
      requires FreshTags(Tables(), tags)
      modifies this`users, this`codes, this`issued
      ensures ok == VerifySetup(old(Tables()), user, codeValid, tags).Some?
      ensures Tables() == if ok then VerifySetup(old(Tables()), user, codeValid, tags).value else old(Tables())
      ensures Inv(old(Now())) ==> Inv(Now()) && (ok ==> Unused(codes, user) == tags)
      ensures ok <==> user < |old(users)| && !old(users)[user].mfaEnabled && old(users)[user].secret.Some? && codeValid
      ensures users == if ok then old(users)[user := old(users)[user].(mfaEnabled := true)] else old(users)
      ensures !ok ==> codes == old(codes)
    {
      hide Inv, Step;
      if user >= |users| || users[user].mfaEnabled || users[user].secret.None? || !codeValid {
        return false;
      }
      ghost var s := Now();
      users := users[user := users[user].(mfaEnabled := true)];
      ReplaceRecoveryCodes(user, tags);
      if Inv(s) { VerifyKeeps(s, user, codeValid, tags); }
      ok := true;
    }

    /** The old codes never work again, the new ones are the user's unused ones. */
    method Regenerate(user: nat, password: nat, codeValid: bool, tags: set<nat>) returns (ok: bool)
      requires FreshTags(Tables(), tags)
      modifies this`codes, this`issued
      ensures ok == RegenerateCodes(old(Tables()), user, password, codeValid, tags).Some?
      ensures Tables() == if ok then RegenerateCodes(old(Tables()), user, password, codeValid, tags).value
                          else old(Tables())
      ensures Inv(old(Now())) ==> Inv(Now()) && (ok ==> Unused(codes, user) == tags)
      ensures Inv(old(Now())) && ok ==>
                forall tag :: tag in CodesOf(old(codes), user) ==> Spent(Tables(), CodeConsumed(tag))
      ensures ok <==> && user < |users| && users[user].mfaEnabled && users[user].secret.Some?
                      && users[user].password == password && codeValid
      ensures !ok ==> codes == old(codes)
    {
      hide Inv, Step;
      if user >= |users| || !users[user].mfaEnabled || users[user].secret.None? {
        return false;
      }
      if users[user].password != password || !codeValid {
        return false;
      }
      ghost var s := Now();
      ReplaceRecoveryCodes(user, tags);
      if Inv(s) { RegenerateKeeps(s, user, password, codeValid, tags); }
      ok := true;
    }

    /** Every refresh token is revoked, every code is gone for good, and no challenge of the user is valid. */
    method Disable(user: nat, password: nat, codeValid: bool) returns (ok: bool)
      modifies this`users, this`codes, this`tokens
      ensures ok == DisableMfa(old(Tables()), user, password, codeValid).Some?
      ensures Tables() == if ok then DisableMfa(old(Tables()), user, password, codeValid).value else old(Tables())
      ensures Inv(old(Now())) ==> Inv(Now())
      ensures Inv(old(Now())) && ok ==> SecondFactorGone(old(Tables()), Tables(), user)
      ensures ok <==> && user < |old(users)| && old(users)[user].mfaEnabled && old(users)[user].secret.Some?
                      && old(users)[user].password == password && codeValid
      ensures !ok ==> Now() == old(Now())
      ensures ok ==>
                && users == old(users)[user := old(users)[user].(mfaEnabled := false, secret := None)]
                && (forall tag :: tag in codes <==> tag in old(codes) && old(codes)[tag].user != user)
                && (forall tag :: tag in codes ==> codes[tag] == old(codes)[tag])
                && RevokedWhere(old(tokens), tokens, clock, TokensOf(old(tokens), user))
    {
      hide Inv, Step, SecondFactorGone;
      if user >= |users| || !users[user].mfaEnabled || users[user].secret.None? {
        return false;
      }
      if users[user].password != password || !codeValid {
        return false;
      }
      ghost var s := Now();
      users := users[user := users[user].(mfaEnabled := false, secret := None)];
      codes := codes - CodesOf(codes, user);
      tokens := Revoke(tokens, OfUser(user), clock);
      if Inv(s) { DisableKeeps(s, user, password, codeValid); }
      ok := true;
    }

    /** The code is looked up, then consumed by an update that only an unused row satisfies. */
    method ConsumeRecoveryCode(user: nat, tag: nat, beforeUse: seq<Event>) returns (ok: bool)
      modifies this
      ensures var s := old(Now());
              if !CodeUsable(s.db, user, tag) then !ok && Now() == s
              else
                var r := After(s, beforeUse);
                var used := UseCode(r.db, user, tag);
                ok == used.Some? && Now() == if ok then r.(db := used.value) else r
      ensures Inv(old(Now())) ==> Inv(Now()) && (ok ==> Spent(Tables(), CodeConsumed(tag)))
      ensures var s, r := old(Now()), After(old(Now()), beforeUse);
              && (ok <==> CodeWorks(s.db, user, tag) && CodeWorks(r.db, user, tag))
              && (!ok ==> Now() == if CodeWorks(s.db, user, tag) then r else s)
              && (ok ==> Now() == r.(db := r.db.(codes := r.db.codes[tag := Code(user, Some(r.db.clock))])))
    {
      hide Inv, Step;
      if tag !in codes {
        return false;
      }
      if codes[tag].user != user || codes[tag].used.Some? {
        return false;
      }
      ghost var s := Now();
      if Inv(s) { RunInv(s, beforeUse); }
      Yield(beforeUse);
      ghost var r := Now();
      ok := tag in codes && codes[tag].user == user && codes[tag].used.None?;
      if ok {
        codes := codes[tag := codes[tag].(used := Some(clock))];
        if Inv(r) { CodeKeeps(r, user, tag); }
      }
    }
  }
}
