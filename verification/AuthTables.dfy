/** The authentication tables and the single statements and database transactions run on them.
    Hashes and signatures are injective tags: a refresh token is its row, codes and reset tokens are numbers. */
module AuthTables {
  import opened Sums

  datatype Role = CUSTOMER | BANK_EMPLOYEE | FRAUD_ANALYST | SECURITY_ANALYST | ADMIN

  datatype UserStatus = ACTIVE | LOCKED | SUSPENDED

  datatype User = User(
    password: nat,
    role: Role,
    status: UserStatus,
    version: nat,
    mfaEnabled: bool,
    secret: Option<nat>)

  /** `parent` is the token this one replaced; the database does not store it. */
  datatype Token = Token(user: nat, device: Option<nat>, expires: int, revoked: Option<int>, parent: Option<nat>)

  datatype Reset = Reset(user: nat, expires: int, used: Option<int>)

  datatype Code = Code(user: nat, used: Option<int>)

  datatype Attempt = Attempt(user: nat, successful: bool, at: int)

  /** An administrative status change, as its audit entry records it. */
  datatype StatusChange = StatusChange(user: nat, to: UserStatus, at: int)

  /** The signed tokens: they are held by clients, so every one ever signed counts. */
  datatype Claim =
    | Access(user: nat, role: Role, version: nat)
    | Challenge(user: nat, device: nat, version: nat)

  datatype Db = Db(
    users: seq<User>,
    tokens: seq<Token>,
    resets: map<nat, Reset>,
    codes: map<nat, Code>,
    issued: set<nat>,
    attempts: seq<Attempt>,
    changes: seq<StatusChange>,
    claims: seq<Claim>,
    clock: int)

  const LOCK_WINDOW := 15 * 60 * 1000
  const LOCK_THRESHOLD := 5
  const REFRESH_LIFETIME := 7 * 24 * 60 * 60 * 1000
  const RESET_LIFETIME := 60 * 60 * 1000
  const RECOVERY_CODES := 10

  // ---- Refresh tokens ----

  /** The where-clauses of the revoking updates, besides `revokedAt: null`. */
  datatype Filter =
    | OfUser(user: nat)
    | OfDevice(user: nat, device: nat)
    | OfToken(t: nat)
    | OfUserToken(user: nat, t: nat)

  predicate Matches(f: Filter, i: nat, token: Token) {
    match f
    case OfUser(user) => token.user == user
    case OfDevice(user, device) => token.user == user && token.device == Some(device)
    case OfToken(t) => i == t
    case OfUserToken(user, t) => i == t && token.user == user
  }

  /** The guarded bulk update every revoker runs: only unrevoked rows are touched. */
  function Revoke(tokens: seq<Token>, f: Filter, now: int): seq<Token> {
    seq(|tokens|, i requires 0 <= i < |tokens| =>
      if Matches(f, i, tokens[i]) && tokens[i].revoked.None? then tokens[i].(revoked := Some(now)) else tokens[i])
  }

  function RevokeTokens(db: Db, f: Filter): Db { db.(tokens := Revoke(db.tokens, f, db.clock)) }

  function AddToken(db: Db, user: nat, device: nat): Db {
    db.(tokens := db.tokens + [Token(user, Some(device), db.clock + REFRESH_LIFETIME, None, None)])
  }

  /** The row a refresh may use, as its first read sees it. */
  predicate Usable(db: Db, t: nat) {
    && t < |db.tokens| && db.tokens[t].revoked.None? && db.tokens[t].expires > db.clock
    && db.tokens[t].user < |db.users| && db.users[db.tokens[t].user].status == ACTIVE
  }

  /** The rotation transaction: revoke if still unrevoked, and only then create the successor. */
  function Rotate(db: Db, t: nat): Option<Db> {
    if t >= |db.tokens| || db.tokens[t].revoked.Some? then None
    else
      var row := db.tokens[t];
      Some(db.(tokens := db.tokens[t := row.(revoked := Some(db.clock))]
                         + [Token(row.user, row.device, db.clock + REFRESH_LIFETIME, None, Some(t))]))
  }

  function Live(f: Filter): Token -> int
    requires f.OfUser? || f.OfDevice?
  {
    (token: Token) => if Matches(f, 0, token) && token.revoked.None? then 1 else 0
  }

  // ---- Users and signed tokens ----

  function Bumped(u: User): User { u.(version := u.version + 1) }

  function SetUser(db: Db, u: nat, v: User): Db
    requires u < |db.users|
  {
    db.(users := db.users[u := v])
  }

  function Sign(db: Db, c: Claim): Db { db.(claims := db.claims + [c]) }

  /** The guard's test of an access token against the current user row; expiry can only reject more. */
  predicate Accepts(db: Db, c: Claim) {
    && c.Access? && c.user < |db.users|
    && db.users[c.user].status != LOCKED && db.users[c.user].status != SUSPENDED
    && db.users[c.user].role == c.role && db.users[c.user].version == c.version
  }

  /** The user checks before an MFA code or a recovery code is looked at. */
  predicate ChallengeValid(db: Db, c: Claim) {
    && c.Challenge? && c.user < |db.users|
    && db.users[c.user].status == ACTIVE && db.users[c.user].mfaEnabled
    && db.users[c.user].version == c.version
  }

  // ---- Login attempts and lockout ----

  /** Failed attempts of a user from one moment to another, both included. */
  function FailedIn(user: nat, from: int, to: int): Attempt -> int {
    (a: Attempt) => if a.user == user && !a.successful && from <= a.at <= to then 1 else 0
  }

  /** The failed attempts of a user from one moment to another, counted one by one. */
  ghost function FailuresBetween(attempts: seq<Attempt>, user: nat, from: int, to: int): int {
    if attempts == [] then 0
    else
      var a := attempts[|attempts| - 1];
      FailuresBetween(attempts[..|attempts| - 1], user, from, to)
      + if a.user == user && !a.successful && from <= a.at && a.at <= to then 1 else 0
  }

  lemma {:induction false} FailuresCount(attempts: seq<Attempt>, user: nat, from: int, to: int)
    ensures Sum(attempts, FailedIn(user, from, to)) == FailuresBetween(attempts, user, from, to)
  {
    if attempts != [] { FailuresCount(attempts[..|attempts| - 1], user, from, to); }
  }

  function Attempted(db: Db, user: nat, successful: bool): Db {
    db.(attempts := db.attempts + [Attempt(user, successful, db.clock)])
  }

  /** The count made after a wrong password has been recorded. */
  predicate TooManyFailures(db: Db, user: nat) {
    Sum(db.attempts, FailedIn(user, db.clock - LOCK_WINDOW, db.clock)) >= LOCK_THRESHOLD
  }

  function Lock(db: Db, user: nat): Db
    requires user < |db.users|
  {
    SetUser(db, user, Bumped(db.users[user]).(status := LOCKED))
  }

  // ---- Passwords ----

  /** The credential change shared by password change and reset: new hash, new version, no sessions. */
  function ReplacePassword(db: Db, u: nat, password: nat): Db
    requires u < |db.users|
  {
    RevokeTokens(SetUser(db, u, Bumped(db.users[u]).(password := password)), OfUser(u))
  }

  function ChangePassword(db: Db, u: nat, current: nat, password: nat): Option<Db> {
    if current == password || u >= |db.users| || db.users[u].password != current then None
    else Some(ReplacePassword(db, u, password))
  }

  function ResetsOf(resets: map<nat, Reset>, u: nat): set<nat> {
    set tag | tag in resets && resets[tag].user == u
  }

  function ForgotPassword(db: Db, u: nat, tag: nat): Option<Db> {
    if u >= |db.users| || db.users[u].status != ACTIVE || tag in db.issued then None
    else Some(db.(resets := (db.resets - ResetsOf(db.resets, u))[tag := Reset(u, db.clock + RESET_LIFETIME, None)],
                  issued := db.issued + {tag}))
  }

  predicate ResetUsable(db: Db, tag: nat) {
    tag in db.resets && db.resets[tag].used.None? && db.resets[tag].expires > db.clock
  }

  function UseReset(db: Db, tag: nat, password: nat): Option<Db> {
    if !ResetUsable(db, tag) || db.resets[tag].user >= |db.users| then None
    else
      var row := db.resets[tag];
      Some(ReplacePassword(db.(resets := db.resets[tag := row.(used := Some(db.clock))]), row.user, password))
  }

  // ---- Administration ----

  function UpdateRole(db: Db, admin: nat, u: nat, role: Role): Option<Db> {
    if u >= |db.users| || (admin == u && role != ADMIN) || db.users[u].role == role then None
    else Some(SetUser(db, u, Bumped(db.users[u]).(role := role)))
  }

  function UpdateStatus(db: Db, admin: nat, u: nat, status: UserStatus): Option<Db> {
    if u >= |db.users| || (admin == u && status != ACTIVE) || db.users[u].status == status then None
    else
      var set1 := SetUser(db, u, Bumped(db.users[u]).(status := status));
      var set2 := if status == LOCKED || status == SUSPENDED then RevokeTokens(set1, OfUser(u)) else set1;
      Some(set2.(changes := db.changes + [StatusChange(u, status, db.clock)]))
  }

  function RevokeAll(db: Db, u: nat): Option<Db> {
    if u >= |db.users| then None
    else Some(SetUser(RevokeTokens(db, OfUser(u)), u, Bumped(db.users[u])))
  }

  // ---- Multi-factor authentication ----

  function CodesOf(codes: map<nat, Code>, u: nat): set<nat> {
    set tag | tag in codes && codes[tag].user == u
  }

  /** Fresh random codes: ten, and none ever issued before. */
  predicate FreshTags(db: Db, tags: set<nat>) { |tags| == RECOVERY_CODES && tags !! db.issued }

  function ReplaceCodes(db: Db, u: nat, tags: set<nat>): Db {
    db.(codes := (db.codes - CodesOf(db.codes, u)) + (map tag | tag in tags :: Code(u, None)),
        issued := db.issued + tags)
  }

  function SetupMfa(db: Db, u: nat, secret: nat): Option<Db> {
    if u >= |db.users| || db.users[u].mfaEnabled then None
    else Some(SetUser(db, u, db.users[u].(secret := Some(secret), mfaEnabled := false)))
  }

  function VerifySetup(db: Db, u: nat, codeValid: bool, tags: set<nat>): Option<Db> {
    if u >= |db.users| || db.users[u].mfaEnabled || db.users[u].secret.None? || !codeValid || !FreshTags(db, tags)
    then None
    else Some(ReplaceCodes(SetUser(db, u, db.users[u].(mfaEnabled := true)), u, tags))
  }

  /** The checks shared by regenerating codes and disabling MFA. */
  predicate Reauthenticates(db: Db, u: nat, password: nat, codeValid: bool) {
    && u < |db.users| && db.users[u].mfaEnabled && db.users[u].secret.Some?
    && db.users[u].password == password && codeValid
  }

  function RegenerateCodes(db: Db, u: nat, password: nat, codeValid: bool, tags: set<nat>): Option<Db> {
    if !Reauthenticates(db, u, password, codeValid) || !FreshTags(db, tags) then None
    else Some(ReplaceCodes(db, u, tags))
  }

  function DisableMfa(db: Db, u: nat, password: nat, codeValid: bool): Option<Db> {
    if !Reauthenticates(db, u, password, codeValid) then None
    else
      var off := SetUser(db, u, db.users[u].(mfaEnabled := false, secret := None));
      Some(RevokeTokens(off.(codes := db.codes - CodesOf(db.codes, u)), OfUser(u)))
  }

  predicate CodeUsable(db: Db, u: nat, tag: nat) {
    tag in db.codes && db.codes[tag].user == u && db.codes[tag].used.None?
  }

  /** The guarded update that consumes a code. */
  function UseCode(db: Db, u: nat, tag: nat): Option<Db> {
    if !CodeUsable(db, u, tag) then None
    else Some(db.(codes := db.codes[tag := db.codes[tag].(used := Some(db.clock))]))
  }
}
