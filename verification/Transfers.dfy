/** What a transfer request carries, the limits it is held to, and the answers it can get. */
module Transfers {
  import opened Sums
  import opened Text
  import opened Ledger

  /** Amounts are whole cents. */
  const PER_TRANSFER_LIMIT := 10_000_00
  const DAILY_TRANSFER_LIMIT := 25_000_00

  const HOUR := 3_600_000
  const DAY := 24 * HOUR

  datatype Dto = Dto(sender: nat, beneficiary: nat, amount: int, description: Option<string>)

  datatype Error =
    | KeyInUse
    | KeyReused
    | SenderNotFound
    | BeneficiaryNotFound
    | ReceiverNotFound
    | SameAccount
    | CurrencyMismatch
    | InsufficientBalance
    | OverTransferLimit
    | OverDailyLimit
    | FraudServiceUnavailable
    | DuplicateKey
    | TransactionNotFound
    | AlreadyReversed
    | NotCompleted
    | ReversalConflict

  /** What the answer to a repeated request says became of the transfer. */
  datatype Message = RejectedUnavailable | FlaggedForReview | CompletedSuccessfully

  datatype Outcome =
    | Replayed(tx: nat, row: Row, message: Message)
    | Accepted(tx: nat)
    | Failed(error: Error)
    | RolledBack

  /** A missing or blank header means no key. */
  function NormalizeKey(header: Option<string>): Option<string> {
    if header.Some? && Trim(header.value) != "" then Some(Trim(header.value)) else None
  }

  function FingerprintOf(user: nat, dto: Dto): Fingerprint {
    Fingerprint(user, dto.sender, dto.beneficiary, dto.amount,
                if dto.description.Some? then Some(Trim(dto.description.value)) else None)
  }

  function Day(t: int): int { t / DAY }

  function StartOfDay(t: int): int { Day(t) * DAY }

  /** COMPLETED and FLAGGED amounts count towards the day they were created on. */
  predicate Counts(r: Row, a: nat) {
    r.sender == a && (r.status == COMPLETED || r.status == FLAGGED)
  }

  function SpentSince(a: nat, from: int): Row -> int {
    (r: Row) => if Counts(r, a) && r.createdAt >= from then r.amount else 0
  }

  function SpentOn(a: nat, day: int): Row -> int {
    (r: Row) => if Counts(r, a) && Day(r.createdAt) == day then r.amount else 0
  }

  /** The check of both limits against the committed rows. */
  function LimitError(rows: seq<Row>, a: nat, amount: int, now: int): Option<Error> {
    if amount > PER_TRANSFER_LIMIT then Some(OverTransferLimit)
    else if Sum(rows, SpentSince(a, StartOfDay(now))) + amount > DAILY_TRANSFER_LIMIT then Some(OverDailyLimit)
    else None
  }

  function FindKey(rows: seq<Row>, key: string): (found: Option<nat>)
    ensures found.Some? ==> found.value < |rows| && rows[found.value].key == Some(key)
    ensures found.None? <==> KeyFree(rows, Some(key))
  {
    if rows == [] then None
    else if rows[|rows| - 1].key == Some(key) then Some(|rows| - 1)
    else FindKey(rows[..|rows| - 1], key)
  }

  /** Anything neither rejected nor flagged is called completed. */
  function MessageOf(status: Status): Message {
    if status == REJECTED then RejectedUnavailable
    else if status == FLAGGED then FlaggedForReview
    else CompletedSuccessfully
  }

  /** The statuses a message is true of. */
  predicate Names(message: Message, status: Status) {
    match message
    case RejectedUnavailable => status == REJECTED
    case FlaggedForReview => status == FLAGGED
    case CompletedSuccessfully => status == COMPLETED
  }

  /** The answer to a request whose key already has a row. */
  function ReplayOutcome(b: Bank, tx: nat, user: nat, fingerprint: Fingerprint): Outcome
    requires tx < |b.rows|
  {
    var row := b.rows[tx];
    if row.sender >= |b.accounts| || b.accounts[row.sender].owner != user then Failed(KeyInUse)
    else if row.fingerprint != Some(fingerprint) then Failed(KeyReused)
    else Replayed(tx, row, MessageOf(row.status))
  }

  /** What an account has sent from a moment on: its COMPLETED and FLAGGED amounts. */
  ghost function SentFrom(rows: seq<Row>, a: nat, from: int): int {
    if rows == [] then 0
    else
      var row := rows[|rows| - 1];
      SentFrom(rows[..|rows| - 1], a, from)
      + if row.sender == a && (row.status == COMPLETED || row.status == FLAGGED) && row.createdAt >= from
        then row.amount else 0
  }

  lemma {:induction false} SpentSinceIsSentFrom(rows: seq<Row>, a: nat, from: int)
    ensures Sum(rows, SpentSince(a, from)) == SentFrom(rows, a, from)
  {
    if rows != [] { SpentSinceIsSentFrom(rows[..|rows| - 1], a, from); }
  }

  /** The limits in numbers: 10,000.00 for one transfer, and 25,000.00 from midnight on, COMPLETED and FLAGGED
      amounts counted. */
  lemma LimitRefusedIff(rows: seq<Row>, a: nat, amount: int, now: int)
    ensures LimitError(rows, a, amount, now) == Some(OverTransferLimit) <==> amount > 10_000_00
    ensures LimitError(rows, a, amount, now) == Some(OverDailyLimit)
       <==> amount <= 10_000_00 && SentFrom(rows, a, now - now % 86_400_000) + amount > 25_000_00
    ensures LimitError(rows, a, amount, now) in {None, Some(OverTransferLimit), Some(OverDailyLimit)}
  {
    SpentSinceIsSentFrom(rows, a, StartOfDay(now));
  }

  lemma SpentTodayIsSpentSince(rows: seq<Row>, a: nat, now: int)
    requires forall i :: 0 <= i < |rows| ==> rows[i].createdAt <= now
    ensures Sum(rows, SpentSince(a, StartOfDay(now))) == Sum(rows, SpentOn(a, Day(now)))
  {
    forall i | 0 <= i < |rows|
      ensures SpentSince(a, StartOfDay(now))(rows[i]) == SpentOn(a, Day(now))(rows[i])
    {
      SameDay(rows[i].createdAt, now);
    }
    SumEq(rows, rows, SpentSince(a, StartOfDay(now)), SpentOn(a, Day(now)));
  }

  lemma SameDay(t: int, now: int)
    requires t <= now
    ensures t >= StartOfDay(now) <==> Day(t) == Day(now)
    ensures Day(t) <= Day(now)
  {
  }

  /** A key is the header without surrounding spaces: padding never makes two requests differ, and a blank
      header is no key at all. */
  lemma KeyIgnoresPadding(before: string, key: string, after: string)
    requires AllSpace(before) && AllSpace(after) && Trimmed(key)
    ensures NormalizeKey(Some(before + key + after)) == if key == "" then None else Some(key)
    ensures NormalizeKey(None) == None
  {
    TrimPadded(before, key, after);
  }

  /** The fingerprint a request is stored with: none without a key, and otherwise what was asked for. */
  ghost predicate FingerprintIs(fingerprint: Option<Fingerprint>, user: nat, dto: Dto, key: Option<string>) {
    if key.None? then fingerprint.None?
    else fingerprint == Some(Fingerprint(user, dto.sender, dto.beneficiary, dto.amount,
                                         if dto.description.Some? then Some(Trim(dto.description.value)) else None))
  }

  /** Two requests have one fingerprint exactly when they are the same user's and ask for the same payment;
      a missing description is not a blank one. */
  lemma SameFingerprintIff(u: nat, d: Dto, v: nat, e: Dto)
    ensures FingerprintOf(u, d) == FingerprintOf(v, e)
       <==> u == v && d.sender == e.sender && d.beneficiary == e.beneficiary && d.amount == e.amount
            && d.description.Some? == e.description.Some?
            && (d.description.Some? ==> Trim(d.description.value) == Trim(e.description.value))
  {
  }
}
