/** Any number of transfer and reversal requests in flight over the same tables, one database statement
    at a time: unprotected reads see committed versions, writes take row locks, and a transaction's writes
    become visible together at commit or vanish at rollback. */
module Interleaving {
  import opened Sums
  import opened Fraud
  import opened Ledger
  import opened Transfers

  /** A row version pair: what readers see, and what the lock owner has written. */
  datatype Cell<T> = Cell(committed: T, current: T, owner: Option<nat>)

  datatype Verdict = Unavailable | Scored(risk: Risk)

  /** A transfer that has passed every check made before the database transaction. */
  datatype Plan = Plan(
    user: nat,
    sender: nat,
    receiver: nat,
    amount: int,
    currency: string,
    key: Option<string>,
    fingerprint: Option<Fingerprint>,
    checkedAt: int)

  datatype Undo = Undo(user: nat, tx: nat, sender: nat, receiver: nat, amount: int)

  /** Where a request stands, with the local variables it carries. */
  datatype Phase =
    | Received(user: nat, dto: Dto, key: Option<string>)
    | Unmatched(user: nat, dto: Dto, key: Option<string>)
    | SenderRead(user: nat, dto: Dto, key: Option<string>, account: Account)
    | Validated(user: nat, dto: Dto, key: Option<string>, receiver: nat)
    | Checked(plan: Plan)
    | Opened(plan: Plan, verdict: Verdict)
    | Debited(plan: Plan, risk: Risk)
    | Paid(plan: Plan, risk: Risk)
    | Inserted(plan: Plan, row: Row)
    | Alerted(plan: Plan, row: Row)
    | ReversalReceived(user: nat, tx: nat)
    | ReversalOpened(undo: Undo)
    | ReversalDebited(undo: Undo)
    | ReversalPaid(undo: Undo)
    | ReversalMarked(undo: Undo, at: int)
    | Done(outcome: Outcome)

  datatype State = State(
    accounts: seq<Cell<Account>>,
    rows: seq<Cell<Row>>,
    alerts: seq<Alert>,
    requests: seq<Phase>,
    clock: int)

  datatype Event =
    | Submit(user: nat, dto: Dto, header: Option<string>)
    | SubmitReversal(user: nat, tx: nat)
    | Lookup(r: nat)
    | ReadSender(r: nat)
    | ReadReceiver(r: nat, found: Option<nat>)
    | CheckLimits(r: nat)
    | Analyze(r: nat, answer: Option<Inquiry>)
    | ReadOriginal(r: nat)
    | Debit(r: nat)
    | Pay(r: nat)
    | Insert(r: nat, at: int)
    | RaiseAlert(r: nat)
    | Mark(r: nat)
    | Commit(r: nat)
    | Abort(r: nat)
    | NewAccount(owner: nat, currency: string)
    | Tick(now: int)

  // ---- Row versions ----

  function Clean<T>(v: T): Cell<T> { Cell(v, v, None) }

  function Heads<T>(cells: seq<Cell<T>>): seq<T> {
    seq(|cells|, i requires 0 <= i < |cells| => cells[i].committed)
  }

  /** A statement of transaction r can write a row unless another transaction holds it. */
  predicate Free<T>(c: Cell<T>, r: nat) { c.owner.None? || c.owner == Some(r) }

  function Write<T>(cells: seq<Cell<T>>, i: nat, r: nat, v: T): seq<Cell<T>>
    requires i < |cells|
  {
    cells[i := Cell(cells[i].committed, v, Some(r))]
  }

  function Settle<T>(cells: seq<Cell<T>>, r: nat): seq<Cell<T>> {
    seq(|cells|, i requires 0 <= i < |cells| =>
      if cells[i].owner == Some(r) then Clean(cells[i].current) else cells[i])
  }

  function Restore<T>(cells: seq<Cell<T>>, r: nat): seq<Cell<T>> {
    seq(|cells|, i requires 0 <= i < |cells| =>
      if cells[i].owner == Some(r) then Clean(cells[i].committed) else cells[i])
  }

  /** What a reader outside every transaction sees. */
  function Committed(s: State): Bank { Bank(Heads(s.accounts), Heads(s.rows), s.alerts) }

  // ---- Steps ----

  function Goto(s: State, r: nat, p: Phase): State
    requires r < |s.requests|
  {
    s.(requests := s.requests[r := p])
  }

  /** An exception inside the transaction, or a crash: every write of r is undone. */
  function RollBack(s: State, r: nat, outcome: Outcome): State
    requires r < |s.requests|
  {
    Goto(s, r, Done(outcome)).(accounts := Restore(s.accounts, r), rows := Restore(s.rows, r))
  }

  function LookupStep(s: State, r: nat): Option<State>
    requires r < |s.requests|
  {
    match s.requests[r]
    case Received(user, dto, key) =>
      if key.None? then Some(Goto(s, r, Unmatched(user, dto, key)))
      else
        var found := FindKey(Committed(s).rows, key.value);
        if found.None? then Some(Goto(s, r, Unmatched(user, dto, key)))
        else Some(Goto(s, r, Done(ReplayOutcome(Committed(s), found.value, user, FingerprintOf(user, dto)))))
    case _ => None
  }

  function ReadSenderStep(s: State, r: nat): Option<State>
    requires r < |s.requests|
  {
    match s.requests[r]
    case Unmatched(user, dto, key) =>
      if dto.sender >= |s.accounts| || s.accounts[dto.sender].committed.owner != user then
        Some(Goto(s, r, Done(Failed(SenderNotFound))))
      else
        Some(Goto(s, r, SenderRead(user, dto, key, s.accounts[dto.sender].committed)))
    case _ => None
  }

  /** `found` is what the user's beneficiary resolves to, if it is theirs. */
  function ReadReceiverStep(s: State, r: nat, found: Option<nat>): Option<State>
    requires r < |s.requests|
  {
    match s.requests[r]
    case SenderRead(user, dto, key, account) =>
      if found.None? then Some(Goto(s, r, Done(Failed(BeneficiaryNotFound))))
      else if found.value >= |s.accounts| then Some(Goto(s, r, Done(Failed(ReceiverNotFound))))
      else if dto.sender == found.value then Some(Goto(s, r, Done(Failed(SameAccount))))
      else if account.currency != s.accounts[found.value].committed.currency then
        Some(Goto(s, r, Done(Failed(CurrencyMismatch))))
      else if account.balance < dto.amount then Some(Goto(s, r, Done(Failed(InsufficientBalance))))
      else Some(Goto(s, r, Validated(user, dto, key, found.value)))
    case _ => None
  }

  function PlanFor(s: State, user: nat, dto: Dto, key: Option<string>, receiver: nat): Plan
    requires dto.sender < |s.accounts|
  {
    Plan(user, dto.sender, receiver, dto.amount, s.accounts[dto.sender].committed.currency, key,
         if key.Some? then Some(FingerprintOf(user, dto)) else None, s.clock)
  }

  function CheckLimitsStep(s: State, r: nat): Option<State>
    requires r < |s.requests|
  {
    match s.requests[r]
    case Validated(user, dto, key, receiver) =>
      if dto.sender >= |s.accounts| then None
      else
        var error := LimitError(Committed(s).rows, dto.sender, dto.amount, s.clock);
        if error.Some? then Some(Goto(s, r, Done(Failed(error.value))))
        else Some(Goto(s, r, Checked(PlanFor(s, user, dto, key, receiver))))
    case _ => None
  }

  /** The engine's inputs were read at unspecified earlier moments, so only the amount is fixed. */
  function AnalyzeStep(s: State, r: nat, answer: Option<Inquiry>): Option<State>
    requires r < |s.requests|
  {
    match s.requests[r]
    case Checked(plan) =>
      if answer.None? then Some(Goto(s, r, Opened(plan, Unavailable)))
      else if answer.value.amount != plan.amount then None
      else
        var a := Assess(answer.value);
        Some(Goto(s, r, Opened(plan, Scored(Risk(a.score, a.level)))))
    case _ => None
  }

  function ReadOriginalStep(s: State, r: nat): Option<State>
    requires r < |s.requests|
  {
    match s.requests[r]
    case ReversalReceived(user, tx) =>
      if tx >= |s.rows| then Some(Goto(s, r, Done(Failed(TransactionNotFound))))
      else
        var row := s.rows[tx].committed;
        if row.sender >= |s.accounts| || s.accounts[row.sender].committed.owner != user then
          Some(Goto(s, r, Done(Failed(TransactionNotFound))))
        else if row.status == REVERSED then Some(Goto(s, r, Done(Failed(AlreadyReversed))))
        else if row.status != COMPLETED then Some(Goto(s, r, Done(Failed(NotCompleted))))
        else if row.receiver >= |s.accounts| || s.accounts[row.receiver].committed.balance < row.amount then
          Some(Goto(s, r, Done(Failed(InsufficientBalance))))
        else Some(Goto(s, r, ReversalOpened(Undo(user, tx, row.sender, row.receiver, row.amount))))
    case _ => None
  }

  /** The guarded decrement: waits for the row lock, then tests the version it locked. */
  function GuardedDebit(s: State, r: nat, a: nat, amount: int, next: Phase): Option<State>
    requires r < |s.requests|
  {
    if a >= |s.accounts| || !Free(s.accounts[a], r) then None
    else if s.accounts[a].current.balance < amount then Some(RollBack(s, r, Failed(InsufficientBalance)))
    else Some(Goto(s, r, next).(accounts := Write(s.accounts, a, r, Credited(s.accounts[a].current, -amount))))
  }

  function DebitStep(s: State, r: nat): Option<State>
    requires r < |s.requests|
  {
    match s.requests[r]
    case Opened(plan, Scored(risk)) =>
      if Flags(risk.level) then None
      else GuardedDebit(s, r, plan.sender, plan.amount, Debited(plan, risk))
    case ReversalOpened(undo) => GuardedDebit(s, r, undo.receiver, undo.amount, ReversalDebited(undo))
    case _ => None
  }

  function Increment(s: State, r: nat, a: nat, amount: int, next: Phase): Option<State>
    requires r < |s.requests|
  {
    if a >= |s.accounts| || !Free(s.accounts[a], r) then None
    else Some(Goto(s, r, next).(accounts := Write(s.accounts, a, r, Credited(s.accounts[a].current, amount))))
  }

  function PayStep(s: State, r: nat): Option<State>
    requires r < |s.requests|
  {
    match s.requests[r]
    case Debited(plan, risk) => Increment(s, r, plan.receiver, plan.amount, Paid(plan, risk))
    case ReversalDebited(undo) => Increment(s, r, undo.sender, undo.amount, ReversalPaid(undo))
    case _ => None
  }

  function RowFor(plan: Plan, status: Status, risk: Option<Risk>, at: int): Row {
    Row(plan.key, plan.fingerprint, plan.amount, plan.currency, status, plan.sender, plan.receiver, risk, at,
        None, None)
  }

  function PendingRow(p: Phase): Option<Row> {
    match p
    case Inserted(_, row) => Some(row)
    case Alerted(_, row) => Some(row)
    case _ => None
  }

  /** An uncommitted insert of the same key makes another insert wait. */
  predicate KeyHeld(s: State, r: nat, key: Option<string>) {
    key.Some? && exists q :: 0 <= q < |s.requests| && q != r && HoldsKey(s.requests[q], key)
  }

  predicate HoldsKey(p: Phase, key: Option<string>) {
    PendingRow(p).Some? && PendingRow(p).value.key == key
  }

  /** The insert: it waits behind an uncommitted duplicate key and fails on a committed one. */
  function InsertRow(s: State, r: nat, plan: Plan, row: Row): Option<State>
    requires r < |s.requests|
  {
    if !KeyFree(Committed(s).rows, plan.key) then Some(RollBack(s, r, Failed(DuplicateKey)))
    else if KeyHeld(s, r, plan.key) then None
    else Some(Goto(s, r, Inserted(plan, row)))
  }

  /** `at` is the row's creation time: some moment from the limit check up to the insert. */
  function InsertStep(s: State, r: nat, at: int): Option<State>
    requires r < |s.requests|
  {
    match s.requests[r]
    case Opened(plan, verdict) =>
      if !(plan.checkedAt <= at <= s.clock) then None
      else if verdict.Unavailable? then InsertRow(s, r, plan, RowFor(plan, REJECTED, None, at))
      else if Flags(verdict.risk.level) then InsertRow(s, r, plan, RowFor(plan, FLAGGED, Some(verdict.risk), at))
      else None
    case Paid(plan, risk) =>
      if !(plan.checkedAt <= at <= s.clock) then None
      else InsertRow(s, r, plan, RowFor(plan, COMPLETED, Some(risk), at))
    case _ => None
  }

  function RaiseAlertStep(s: State, r: nat): Option<State>
    requires r < |s.requests|
  {
    match s.requests[r]
    case Inserted(plan, row) => if row.status == FLAGGED then Some(Goto(s, r, Alerted(plan, row))) else None
    case _ => None
  }

  /** The guarded status change of a reversal. */
  function MarkStep(s: State, r: nat): Option<State>
    requires r < |s.requests|
  {
    match s.requests[r]
    case ReversalPaid(undo) =>
      if undo.tx >= |s.rows| || !Free(s.rows[undo.tx], r) then None
      else if s.rows[undo.tx].current.status != COMPLETED then Some(RollBack(s, r, Failed(ReversalConflict)))
      else
        var row := Reversed(s.rows[undo.tx].current, undo.user, s.clock);
        Some(Goto(s, r, ReversalMarked(undo, s.clock)).(rows := Write(s.rows, undo.tx, r, row)))
    case _ => None
  }

  /** The operation a request is about to commit, if all its statements have run. */
  function Ready(p: Phase): Option<Op> {
    match p
    case Inserted(plan, row) => if row.status == FLAGGED then None else Some(Record(plan.user, row))
    case Alerted(plan, row) => Some(Record(plan.user, row))
    case ReversalMarked(undo, at) => Some(Reverse(undo.user, undo.tx, at))
    case _ => None
  }

  function CommitStep(s: State, r: nat): Option<State>
    requires r < |s.requests|
  {
    var p := s.requests[r];
    if Ready(p).None? then None
    else
      var settled := s.(accounts := Settle(s.accounts, r), rows := Settle(s.rows, r));
      match p
      case Inserted(_, row) =>
        var outcome := if row.status == REJECTED then Failed(FraudServiceUnavailable) else Accepted(|s.rows|);
        Some(Goto(settled, r, Done(outcome))
             .(rows := settled.rows + [Clean(row)]))
      case Alerted(_, row) =>
        var raised :=
          if row.risk.Some? then [Alert(|s.rows|, row.risk.value.score, row.risk.value.level)] else [];
        Some(Goto(settled, r, Done(Accepted(|s.rows|)))
             .(rows := settled.rows + [Clean(row)], alerts := s.alerts + raised))
      case ReversalMarked(undo, _) => Some(Goto(settled, r, Done(Accepted(undo.tx))))
      case _ => None
  }

  function RequestOf(e: Event): Option<nat> {
    if e.Submit? || e.SubmitReversal? || e.NewAccount? || e.Tick? then None else Some(e.r)
  }

  /** The next state, or None when the event cannot happen now (wrong phase, or waiting for a lock). */
  function Step(s: State, e: Event): Option<State> {
    match e
    case Submit(user, dto, header) =>
      if dto.amount <= 0 then None
      else Some(s.(requests := s.requests + [Received(user, dto, NormalizeKey(header))]))
    case SubmitReversal(user, tx) => Some(s.(requests := s.requests + [ReversalReceived(user, tx)]))
    case NewAccount(owner, currency) => Some(s.(accounts := s.accounts + [Clean(Account(owner, currency, 0))]))
    case Tick(now) => if now >= s.clock then Some(s.(clock := now)) else None
    case _ => if e.r < |s.requests| then RequestStep(s, e) else None
  }

  function RequestStep(s: State, e: Event): Option<State>
    requires RequestOf(e).Some? && e.r < |s.requests|
  {
    match e
    case Lookup(r) => LookupStep(s, r)
    case ReadSender(r) => ReadSenderStep(s, r)
    case ReadReceiver(r, found) => ReadReceiverStep(s, r, found)
    case CheckLimits(r) => CheckLimitsStep(s, r)
    case Analyze(r, answer) => AnalyzeStep(s, r, answer)
    case ReadOriginal(r) => ReadOriginalStep(s, r)
    case Debit(r) => DebitStep(s, r)
    case Pay(r) => PayStep(s, r)
    case Insert(r, at) => InsertStep(s, r, at)
    case RaiseAlert(r) => RaiseAlertStep(s, r)
    case Mark(r) => MarkStep(s, r)
    case Commit(r) => CommitStep(s, r)
    case Abort(r) => if s.requests[r].Done? then None else Some(RollBack(s, r, RolledBack))
  }
}
