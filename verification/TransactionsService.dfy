/** The transfer and reversal handlers as written: checks against the tables, the fraud inquiry, then a
    database transaction that re-checks with guarded updates and undoes its writes when it throws.
    Other requests may commit between the checks and the transaction. */
module TransactionsService {
  import opened Sums
  import opened Fraud
  import opened Ledger
  import opened Transfers

  /** `account` is the bank account with the beneficiary's account number, if one exists. */
  datatype Beneficiary = Beneficiary(owner: nat, account: Option<nat>, createdAt: int)

  /** What the handler learns from outside the money tables, and what others commit at each point where it has read
      and is to read or write next. */
  datatype Surroundings = Surroundings(
    now: int,
    newDevice: bool,
    failedLoginsLastHour: nat,
    engineAnswers: bool,
    afterLookup: seq<Op>,
    afterSender: seq<Op>,
    beforeLimits: seq<Op>,
    beforeInquiry: seq<Op>,
    beforeRecord: seq<Op>)

  /** Operations of other requests: each commits if it is enabled when its turn comes. */
  function Meanwhile(b: Bank, ops: seq<Op>): Bank
    decreases |ops|
  {
    if ops == [] then b
    else Meanwhile(if Enabled(b, ops[0]) then Apply(b, ops[0]) else b, ops[1..])
  }

  lemma {:induction false} MeanwhileStable(b: Bank, ops: seq<Op>)
    ensures Stable(b, Meanwhile(b, ops))
    decreases |ops|
  {
    if ops != [] {
      if Enabled(b, ops[0]) {
        ApplyStable(b, ops[0]);
        MeanwhileStable(Apply(b, ops[0]), ops[1..]);
        StableTransitive(b, Apply(b, ops[0]), Meanwhile(b, ops));
      } else {
        MeanwhileStable(b, ops[1..]);
      }
    }
  }

  /** Whatever others commit keeps the ledger sound and every currency's total. */
  lemma {:induction false} MeanwhileSound(opening: seq<int>, b: Bank, ops: seq<Op>, currency: string)
    requires Sound(opening, b)
    ensures Sound(opening, Meanwhile(b, ops)) && Total(Meanwhile(b, ops), currency) == Total(b, currency)
    decreases |ops|
  {
    if ops != [] {
      if Enabled(b, ops[0]) {
        SoundKept(opening, b, ops[0]);
        TotalKept(b, ops[0], currency);
        MeanwhileSound(opening, Apply(b, ops[0]), ops[1..], currency);
      } else {
        MeanwhileSound(opening, b, ops[1..], currency);
      }
    }
  }

  // ---- What the handlers promise ----

  ghost predicate HasKey(rows: seq<Row>, key: Option<string>) {
    key.Some? && exists x :: 0 <= x < |rows| && rows[x].key == key
  }

  /** The answer to a request whose key has a row: a refusal to anyone but its owner and to any other payload,
      otherwise the row, with the message for its status. */
  ghost predicate Repeats(b: Bank, user: nat, dto: Dto, key: Option<string>, outcome: Outcome) {
    exists x: nat ::
      && x < |b.rows| && key.Some? && b.rows[x].key == key
      && var row := b.rows[x];
         if row.sender >= |b.accounts| || b.accounts[row.sender].owner != user then outcome == Failed(KeyInUse)
         else if !FingerprintIs(row.fingerprint, user, dto, key) then outcome == Failed(KeyReused)
         else outcome == Replayed(x, row, if row.status == REJECTED then RejectedUnavailable
                                          else if row.status == FLAGGED then FlaggedForReview
                                          else CompletedSuccessfully)
  }

  /** What the bank asks the engine: how much, against what the account sends on average, how often it has sent in the
      last hour, and whether the beneficiary is less than a day old. */
  ghost predicate Describes(q: Inquiry, rows: seq<Row>, dto: Dto, beneficiary: Beneficiary, at: Surroundings) {
    var sent := set i | 0 <= i < |rows| && rows[i].sender == dto.sender;
    && q.amount == dto.amount && q.newDevice == at.newDevice && q.failedLoginsLastHour == at.failedLoginsLastHour
    && (q.newBeneficiary <==> at.now - beneficiary.createdAt < 86_400_000)
    && q.transactionsLastHour == |set i | i in sent && rows[i].createdAt >= at.now - 3_600_000|
    && q.hour == at.now / 3_600_000 % 24
    && (sent == {} ==> q.average == dto.amount as real)
    && (sent != {} ==> q.average * |sent| as real == TotalSent(rows, dto.sender) as real)
  }

  ghost function TotalSent(rows: seq<Row>, a: nat): int {
    if rows == [] then 0
    else TotalSent(rows[..|rows| - 1], a) + if rows[|rows| - 1].sender == a then rows[|rows| - 1].amount else 0
  }

  /** The row for a request: what was asked for, and the engine's answer to the inquiry, if it gave one. */
  ghost predicate RowFits(row: Row, user: nat, dto: Dto, key: Option<string>, currency: string,
                          beneficiary: Beneficiary, at: Surroundings, q: Inquiry) {
    && row.amount == dto.amount && row.sender == dto.sender && beneficiary.account == Some(row.receiver)
    && row.key == key && FingerprintIs(row.fingerprint, user, dto, key)
    && row.currency == currency && row.createdAt == at.now && row.reversedBy.None? && row.reversedAt.None?
    && if !at.engineAnswers then row.status == REJECTED && row.risk.None?
       else && row.status == (if ScoreOf(q) >= 60 then FLAGGED else COMPLETED)
            && row.risk.Some? && row.risk.value.score == ScoreOf(q) && LevelOf(row.risk.value.level, ScoreOf(q))
  }

  /** What becomes of a row the database transaction tries to record on top of b. */
  ghost predicate Settled(b: Bank, user: nat, row: Row, final: Bank, outcome: Outcome) {
    if row.status == COMPLETED && !(row.sender < |b.accounts| && b.accounts[row.sender].balance >= row.amount) then
      final == b && outcome == Failed(InsufficientBalance)
    else if HasKey(b.rows, row.key) then final == b && outcome == Failed(DuplicateKey)
    else Posts(b, final, user, row)
         && outcome == if row.status == REJECTED then Failed(FraudServiceUnavailable) else Accepted(|b.rows|)
  }

  /** The inquiry is made against b, and its row tried on top of b'. */
  ghost predicate Concluded(b: Bank, b': Bank, user: nat, dto: Dto, key: Option<string>, currency: string,
                            beneficiary: Beneficiary, at: Surroundings, final: Bank, outcome: Outcome) {
    exists q, row ::
      && Describes(q, b.rows, dto, beneficiary, at) && RowFits(row, user, dto, key, currency, beneficiary, at, q)
      && Settled(b', user, row, final, outcome)
  }

  /** The whole of a transfer: each check in its order, against the tables as they are when it is made. */
  ghost predicate Transferred(b: Bank, beneficiaries: map<nat, Beneficiary>, user: nat, dto: Dto, key: Option<string>,
                              at: Surroundings, final: Bank, outcome: Outcome) {
    if HasKey(b.rows, key) then final == b && Repeats(b, user, dto, key, outcome)
    else
      var b1 := Meanwhile(b, at.afterLookup);
      if dto.sender >= |b1.accounts| || b1.accounts[dto.sender].owner != user then
        final == b1 && outcome == Failed(SenderNotFound)
      else
        var sender, b2 := b1.accounts[dto.sender], Meanwhile(b1, at.afterSender);
        if dto.beneficiary !in beneficiaries || beneficiaries[dto.beneficiary].owner != user then
          final == b2 && outcome == Failed(BeneficiaryNotFound)
        else
          var beneficiary := beneficiaries[dto.beneficiary];
          if beneficiary.account.None? || beneficiary.account.value >= |b2.accounts| then
            final == b2 && outcome == Failed(ReceiverNotFound)
          else if beneficiary.account.value == dto.sender then final == b2 && outcome == Failed(SameAccount)
          else if b2.accounts[beneficiary.account.value].currency != sender.currency then
            final == b2 && outcome == Failed(CurrencyMismatch)
          else if sender.balance < dto.amount then final == b2 && outcome == Failed(InsufficientBalance)
          else
            var b3 := Meanwhile(b2, at.beforeLimits);
            if dto.amount > 10_000_00 then final == b3 && outcome == Failed(OverTransferLimit)
            else if SentFrom(b3.rows, dto.sender, at.now - at.now % 86_400_000) + dto.amount > 25_000_00 then
              final == b3 && outcome == Failed(OverDailyLimit)
            else
              var b4 := Meanwhile(b3, at.beforeInquiry);
              Concluded(b4, Meanwhile(b4, at.beforeRecord), user, dto, key, sender.currency, beneficiary, at,
                        final, outcome)
  }

  /** The whole of a reversal: read from b, its transaction on top of b'. */
  ghost predicate Returned(b: Bank, b': Bank, user: nat, tx: nat, now: int, final: Bank, outcome: Outcome) {
    if !(tx < |b.rows| && b.rows[tx].sender < |b.accounts| && b.accounts[b.rows[tx].sender].owner == user) then
      final == b && outcome == Failed(TransactionNotFound)
    else if b.rows[tx].status == REVERSED then final == b && outcome == Failed(AlreadyReversed)
    else if b.rows[tx].status != COMPLETED then final == b && outcome == Failed(NotCompleted)
    else if !Covered(b, tx) then final == b && outcome == Failed(InsufficientBalance)
    else if !Covered(b', tx) then final == b' && outcome == Failed(InsufficientBalance)
    else if !(tx < |b'.rows| && b'.rows[tx].status == COMPLETED) then
      final == b' && outcome == Failed(ReversalConflict)
    else Reverts(b', final, user, tx, now) && outcome == Accepted(tx)
  }

  /** The receiver of a transfer can give its amount back. */
  ghost predicate Covered(b: Bank, tx: nat) {
    && tx < |b.rows| && b.rows[tx].receiver < |b.accounts|
    && b.accounts[b.rows[tx].receiver].balance >= b.rows[tx].amount
  }

  // ---- The inquiry ----

  function SentBy(a: nat): Row -> int { (r: Row) => if r.sender == a then 1 else 0 }

  function SentAfter(a: nat, from: int): Row -> int {
    (r: Row) => if r.sender == a && r.createdAt >= from then 1 else 0
  }

  function AmountSentBy(a: nat): Row -> int { (r: Row) => if r.sender == a then r.amount else 0 }

  /** The average over every row the account ever sent, or the amount itself when there is none. */
  function AverageSent(rows: seq<Row>, a: nat, amount: int): real {
    var n := Sum(rows, SentBy(a));
    if n == 0 then amount as real else Sum(rows, AmountSentBy(a)) as real / n as real
  }

  function InquiryFor(b: Bank, dto: Dto, beneficiary: Beneficiary, at: Surroundings): Inquiry {
    SumNonNegative(b.rows, SentAfter(dto.sender, at.now - HOUR));
    Inquiry(dto.amount, AverageSent(b.rows, dto.sender, dto.amount), at.newDevice,
            at.now - beneficiary.createdAt < DAY, Sum(b.rows, SentAfter(dto.sender, at.now - HOUR)),
            at.failedLoginsLastHour, (at.now / HOUR) % 24)
  }

  ghost function Indices(rows: seq<Row>, a: nat, from: int): set<int> {
    set i | 0 <= i < |rows| && rows[i].sender == a && rows[i].createdAt >= from
  }

  lemma {:induction false} CountsIndices(rows: seq<Row>, a: nat, from: int)
    ensures Sum(rows, SentAfter(a, from)) == |Indices(rows, a, from)|
  {
    if rows != [] {
      var n := |rows| - 1;
      CountsIndices(rows[..n], a, from);
      LastIndex(rows, a, from);
      assert n !in Indices(rows[..n], a, from);
    }
  }

  lemma LastIndex(rows: seq<Row>, a: nat, from: int)
    requires rows != []
    ensures var n := |rows| - 1;
            Indices(rows, a, from)
            == Indices(rows[..n], a, from) + if rows[n].sender == a && rows[n].createdAt >= from then {n} else {}
  {
    var n := |rows| - 1;
    forall i ensures i in Indices(rows, a, from)
                <==> i in Indices(rows[..n], a, from) || (i == n && rows[n].sender == a && rows[n].createdAt >= from)
    {
      if 0 <= i < n { assert rows[..n][i] == rows[i]; }
    }
  }

  ghost function AllIndices(rows: seq<Row>, a: nat): set<int> { set i | 0 <= i < |rows| && rows[i].sender == a }

  lemma {:induction false} CountsSent(rows: seq<Row>, a: nat)
    ensures Sum(rows, SentBy(a)) == |AllIndices(rows, a)|
  {
    if rows != [] {
      var n := |rows| - 1;
      CountsSent(rows[..n], a);
      LastSent(rows, a);
      assert n !in AllIndices(rows[..n], a);
    }
  }

  lemma LastSent(rows: seq<Row>, a: nat)
    requires rows != []
    ensures var n := |rows| - 1;
            AllIndices(rows, a) == AllIndices(rows[..n], a) + if rows[n].sender == a then {n} else {}
  {
    var n := |rows| - 1;
    forall i ensures i in AllIndices(rows, a) <==> i in AllIndices(rows[..n], a) || (i == n && rows[n].sender == a) {
      if 0 <= i < n { assert rows[..n][i] == rows[i]; }
    }
  }

  lemma {:induction false} TotalsSent(rows: seq<Row>, a: nat)
    ensures Sum(rows, AmountSentBy(a)) == TotalSent(rows, a)
  {
    if rows != [] { TotalsSent(rows[..|rows| - 1], a); }
  }

  /** The queries behind the inquiry give what it is to describe. */
  lemma InquiryDescribes(b: Bank, dto: Dto, beneficiary: Beneficiary, at: Surroundings)
    ensures Describes(InquiryFor(b, dto, beneficiary, at), b.rows, dto, beneficiary, at)
  {
    CountsIndices(b.rows, dto.sender, at.now - HOUR);
    CountsSent(b.rows, dto.sender);
    TotalsSent(b.rows, dto.sender);
    var sent := AllIndices(b.rows, dto.sender);
    assert Indices(b.rows, dto.sender, at.now - 3_600_000)
        == set i | i in sent && b.rows[i].createdAt >= at.now - 3_600_000;
    if sent != {} { assert |sent| > 0; }
  }

  /** What recording a wanted row leaves and answers. */
  ghost predicate Recorded(b: Bank, user: nat, row: Row, b': Bank, outcome: Outcome) {
    var error := RecordError(b, row);
    if error.Some? then outcome == Failed(error.value) && b' == b
    else && Enabled(b, Record(user, row)) && b' == Apply(b, Record(user, row))
         && outcome == if row.status == REJECTED then Failed(FraudServiceUnavailable) else Accepted(|b.rows|)
  }

  /** Every ledger property and every currency's total carries over. */
  ghost predicate Faithful(b: Bank, b': Bank) {
    && (forall opening :: Sound(opening, b) ==> Sound(opening, b'))
    && (forall currency :: Total(b', currency) == Total(b, currency))
  }

  lemma MeanwhileFaithful(b: Bank, ops: seq<Op>)
    ensures Faithful(b, Meanwhile(b, ops))
  {
    forall opening | Sound(opening, b) ensures Sound(opening, Meanwhile(b, ops)) {
      MeanwhileSound(opening, b, ops, "");
    }
    forall currency ensures Total(Meanwhile(b, ops), currency) == Total(b, currency) {
      MeanwhileTotal(b, ops, currency);
    }
  }

  lemma {:induction false} MeanwhileTotal(b: Bank, ops: seq<Op>, currency: string)
    ensures Total(Meanwhile(b, ops), currency) == Total(b, currency)
    decreases |ops|
  {
    if ops != [] {
      if Enabled(b, ops[0]) {
        TotalKept(b, ops[0], currency);
        MeanwhileTotal(Apply(b, ops[0]), ops[1..], currency);
      } else {
        MeanwhileTotal(b, ops[1..], currency);
      }
    }
  }

  lemma ApplyFaithful(b: Bank, op: Op)
    requires Enabled(b, op)
    ensures Faithful(b, Apply(b, op))
  {
    forall opening | Sound(opening, b) ensures Sound(opening, Apply(b, op)) { SoundKept(opening, b, op); }
    forall currency ensures Total(Apply(b, op), currency) == Total(b, currency) { TotalKept(b, op, currency); }
  }

  lemma SameFaithful(b: Bank)
    ensures Faithful(b, b)
  {
  }

  lemma RecordedFaithful(b: Bank, user: nat, row: Row, b': Bank, outcome: Outcome)
    requires Recorded(b, user, row, b', outcome)
    ensures Faithful(b, b')
  {
    if RecordError(b, row).None? { ApplyFaithful(b, Record(user, row)); } else { SameFaithful(b); }
  }

  lemma FaithfulTransitive(b: Bank, c: Bank, d: Bank)
    requires Faithful(b, c) && Faithful(c, d)
    ensures Faithful(b, d)
  {
  }

  /** What the database transaction makes of a wanted row: the balance guard, then the unique key. */
  function RecordError(b: Bank, row: Row): Option<Error> {
    if row.status == COMPLETED && (row.sender >= |b.accounts| || b.accounts[row.sender].balance < row.amount) then
      Some(InsufficientBalance)
    else if !KeyFree(b.rows, row.key) then Some(DuplicateKey)
    else None
  }

  lemma RecordedSettles(b: Bank, user: nat, row: Row, b': Bank, outcome: Outcome)
    requires Recorded(b, user, row, b', outcome)
    ensures Settled(b, user, row, b', outcome)
  {
    if RecordError(b, row).None? {
      RecordPosts(b, user, row);
      hide Apply, Posts, Enabled;
    }
  }

  function ReversalError(b: Bank, tx: nat): Option<Error>
    requires tx < |b.rows| && b.rows[tx].receiver < |b.accounts|
  {
    if b.accounts[b.rows[tx].receiver].balance < b.rows[tx].amount then Some(InsufficientBalance)
    else if b.rows[tx].status != COMPLETED then Some(ReversalConflict)
    else None
  }

  lemma ReplayRepeats(b: Bank, x: nat, user: nat, dto: Dto, key: Option<string>)
    requires x < |b.rows| && key.Some? && b.rows[x].key == key
    ensures Repeats(b, user, dto, key, ReplayOutcome(b, x, user, FingerprintOf(user, dto)))
  {
    assert b.rows[x].key == key;
  }

  class Service {
    var accounts: seq<Account>
    var rows: seq<Row>
    var alerts: seq<Alert>
    const beneficiaries: map<nat, Beneficiary>

    constructor (accounts: seq<Account>, beneficiaries: map<nat, Beneficiary>)
      ensures Valid() && Tables() == Bank(accounts, [], []) && this.beneficiaries == beneficiaries
    {
      this.accounts, this.rows, this.alerts, this.beneficiaries := accounts, [], [], beneficiaries;
    }

    function Tables(): Bank
      reads this
    {
      Bank(accounts, rows, alerts)
    }

    ghost predicate Valid()
      reads this
    {
      RowsLegal(Tables())
    }

    // ---- Single statements ----

    method DebitGuarded(a: nat, amount: int) returns (count: nat)
      requires a < |accounts|
      modifies this`accounts
      ensures count == if old(accounts)[a].balance >= amount then 1 else 0
      ensures accounts == if count == 1 then old(accounts)[a := Credited(old(accounts)[a], -amount)] else old(accounts)
    {
      count := 0;
      if accounts[a].balance >= amount {
        accounts := accounts[a := accounts[a].(balance := accounts[a].balance - amount)];
        count := 1;
      }
    }

    method Increment(a: nat, amount: int)
      requires a < |accounts|
      modifies this`accounts
      ensures accounts == old(accounts)[a := Credited(old(accounts)[a], amount)]
    {
      accounts := accounts[a := accounts[a].(balance := accounts[a].balance + amount)];
    }

    /** An insert; the unique index on the key makes it throw. */
    method InsertRow(row: Row) returns (ok: bool)
      modifies this`rows
      ensures ok == KeyFree(old(rows), row.key)
      ensures rows == if ok then old(rows) + [row] else old(rows)
    {
      ok := KeyFree(rows, row.key);
      if ok { rows := rows + [row]; }
    }

    method MarkReversed(tx: nat, user: nat, now: int) returns (count: nat)
      requires tx < |rows|
      modifies this`rows
      ensures count == if old(rows)[tx].status == COMPLETED then 1 else 0
      ensures rows == if count == 1 then old(rows)[tx := Reversed(old(rows)[tx], user, now)] else old(rows)
    {
      count := 0;
      if rows[tx].status == COMPLETED {
        rows := rows[tx := rows[tx].(status := REVERSED, reversedBy := Some(user), reversedAt := Some(now))];
        count := 1;
      }
    }

    /** Other requests commit, one after the other. */
    method Yield(ops: seq<Op>)
      requires Valid()
      modifies this
      ensures Valid() && Tables() == Meanwhile(old(Tables()), ops)
      ensures Stable(old(Tables()), Tables()) && Faithful(old(Tables()), Tables())
    {
      hide Faithful;
      var i := 0;
      while i < |ops|
        invariant 0 <= i <= |ops| && Valid()
        invariant Meanwhile(Tables(), ops[i..]) == Meanwhile(old(Tables()), ops)
      {
        var b := Tables();
        assert ops[i..][1..] == ops[i + 1..];
        if Enabled(b, ops[i]) {
          var b' := Apply(b, ops[i]);
          LegalKept(b, ops[i]);
          accounts, rows, alerts := b'.accounts, b'.rows, b'.alerts;
        }
        i := i + 1;
      }
      MeanwhileStable(old(Tables()), ops);
      MeanwhileFaithful(old(Tables()), ops);
    }

    // ---- The database transactions ----

    /** The completed branch: debit, credit, insert; any failure undoes what was written. */
    method RecordCompleted(user: nat, row: Row) returns (outcome: Outcome)
      requires Valid() && row.status == COMPLETED && Legal(accounts, row) && Gated(row) && Graded(row)
      requires accounts[row.sender].owner == user
      modifies this
      ensures Valid() && Recorded(old(Tables()), user, row, Tables(), outcome)
    {
      hide RowsLegal;
      ghost var b := Tables();
      var saved := accounts;
      var count := DebitGuarded(row.sender, row.amount);
      if count != 1 {
        return Failed(InsufficientBalance);
      }
      Increment(row.receiver, row.amount);
      assert accounts == Move(saved, row.sender, row.receiver, row.amount);
      hide Move;
      var ok := InsertRow(row);
      if !ok {
        accounts := saved;
        return Failed(DuplicateKey);
      }
      LegalKept(b, Record(user, row));
      outcome := Accepted(|rows| - 1);
    }

    /** The flagged and rejected branches: the row and its alert, and no money. */
    method RecordWithheld(user: nat, row: Row) returns (outcome: Outcome)
      requires Valid() && row.status in {FLAGGED, REJECTED} && Legal(accounts, row) && Gated(row) && Graded(row)
      requires accounts[row.sender].owner == user
      modifies this`rows, this`alerts
      ensures Valid() && Recorded(old(Tables()), user, row, Tables(), outcome)
    {
      hide RowsLegal, Move;
      ghost var b := Tables();
      var ok := InsertRow(row);
      if !ok {
        return Failed(DuplicateKey);
      }
      if row.status == FLAGGED {
        alerts := alerts + [Alert(|rows| - 1, row.risk.value.score, row.risk.value.level)];
        outcome := Accepted(|rows| - 1);
      } else {
        outcome := Failed(FraudServiceUnavailable);
      }
      LegalKept(b, Record(user, row));
    }

    /** The reversal: debit the receiver, credit the sender, change the status; any failure undoes it all. */
    method ReverseTransaction(user: nat, tx: nat, original: Row, now: int) returns (outcome: Outcome)
      requires Valid() && tx < |rows| && RowEvolves(original, rows[tx])
      requires original.sender < |accounts| && accounts[original.sender].owner == user
      modifies this
      ensures Valid() && RowsLegal(old(Tables()))
      ensures var error := ReversalError(old(Tables()), tx);
              if error.Some? then outcome == Failed(error.value) && Tables() == old(Tables())
              else && outcome == Accepted(tx) && Enabled(old(Tables()), Ledger.Reverse(user, tx, now))
                   && Tables() == Apply(old(Tables()), Ledger.Reverse(user, tx, now))
    {
      assert Legal(accounts, rows[tx]);
      var saved := accounts;
      var count := DebitGuarded(original.receiver, original.amount);
      if count != 1 {
        return Failed(InsufficientBalance);
      }
      Increment(original.sender, original.amount);
      var marked := MarkReversed(tx, user, now);
      if marked != 1 {
        accounts := saved;
        return Failed(ReversalConflict);
      }
      LegalKept(old(Tables()), Ledger.Reverse(user, tx, now));
      outcome := Accepted(tx);
    }

    // ---- The handlers ----

    /** The fraud inquiry and what follows from its answer: exactly the wanted row is recorded on top of whatever
        others committed meanwhile, or a guard that fails leaves exactly what they committed. */
    method AssessAndRecord(user: nat, dto: Dto, key: Option<string>, currency: string, beneficiary: Beneficiary,
                           at: Surroundings) returns (outcome: Outcome)
      requires Valid() && dto.amount > 0 && beneficiary.account.Some?
      requires dto.sender < |accounts| && accounts[dto.sender].owner == user
      requires beneficiary.account.value < |accounts| && dto.sender != beneficiary.account.value
      requires currency == accounts[dto.sender].currency == accounts[beneficiary.account.value].currency
      modifies this
      ensures Valid() && Faithful(old(Tables()), Tables())
      ensures Concluded(old(Tables()), Meanwhile(old(Tables()), at.beforeRecord), user, dto, key, currency, beneficiary,
                        at, Tables(), outcome)
    {
      hide Faithful, RowsLegal, RecordError, Enabled, Meanwhile, Settled, Recorded, Describes, ScoreOf, Assess;
      var inquiry := InquiryFor(Tables(), dto, beneficiary, at);
      InquiryDescribes(Tables(), dto, beneficiary, at);
      ghost var b := Tables();
      var fingerprint := if key.Some? then Some(FingerprintOf(user, dto)) else None;
      var draft := Row(key, fingerprint, dto.amount, currency, REJECTED, dto.sender, beneficiary.account.value, None,
                       at.now, None, None);
      Yield(at.beforeRecord);
      ghost var b' := Tables();
      assert Legal(accounts, draft) && accounts[dto.sender].owner == user;
      ghost var row := draft;
      if !at.engineAnswers {
        outcome := RecordWithheld(user, draft);
      } else {
        var answer := AnalyzeTransaction(inquiry);
        AnswerInNumbers(inquiry);
        var risk := Risk(answer.score, answer.severity);
        if answer.severity == HIGH || answer.severity == CRITICAL {
          row := draft.(status := FLAGGED, risk := Some(risk));
          outcome := RecordWithheld(user, draft.(status := FLAGGED, risk := Some(risk)));
        } else {
          row := draft.(status := COMPLETED, risk := Some(risk));
          outcome := RecordCompleted(user, draft.(status := COMPLETED, risk := Some(risk)));
        }
      }
      assert RowFits(row, user, dto, key, currency, beneficiary, at, inquiry);
      RecordedSettles(b', user, row, Tables(), outcome);
      RecordedFaithful(b', user, row, Tables(), outcome);
      FaithfulTransitive(b, b', Tables());
    }

    /** A transfer is answered from its key's row if there is one, refused for the first check it fails against the
        tables as they are when it is made, and otherwise records the row it wants; whatever others commit between
        any two of its reads, every ledger property and every total carries over. */
    method Transfer(user: nat, dto: Dto, header: Option<string>, at: Surroundings) returns (outcome: Outcome)
      requires Valid() && dto.amount > 0
      modifies this
      ensures Valid() && Faithful(old(Tables()), Tables())
      ensures Transferred(old(Tables()), beneficiaries, user, dto, NormalizeKey(header), at, Tables(), outcome)
    {
      hide Faithful, RowsLegal, Meanwhile, Concluded, LimitError;
      ghost var b := Tables();
      SameFaithful(b);
      var key := NormalizeKey(header);
      if key.Some? {
        var found := FindKey(rows, key.value);
        if found.Some? {
          outcome := ReplayOutcome(Tables(), found.value, user, FingerprintOf(user, dto));
          ReplayRepeats(b, found.value, user, dto, key);
          return;
        }
      }
      Yield(at.afterLookup);
      if dto.sender >= |accounts| || accounts[dto.sender].owner != user {
        return Failed(SenderNotFound);
      }
      var sender := accounts[dto.sender];
      ghost var b1 := Tables();
      Yield(at.afterSender);
      ghost var b2 := Tables();
      FaithfulTransitive(b, b1, b2);
      if dto.beneficiary !in beneficiaries || beneficiaries[dto.beneficiary].owner != user {
        return Failed(BeneficiaryNotFound);
      }
      var beneficiary := beneficiaries[dto.beneficiary];
      if beneficiary.account.None? || beneficiary.account.value >= |accounts| {
        return Failed(ReceiverNotFound);
      }
      var receiver := beneficiary.account.value;
      if dto.sender == receiver {
        return Failed(SameAccount);
      }
      if sender.currency != accounts[receiver].currency {
        return Failed(CurrencyMismatch);
      }
      if sender.balance < dto.amount {
        return Failed(InsufficientBalance);
      }
      Yield(at.beforeLimits);
      ghost var b3 := Tables();
      FaithfulTransitive(b, b2, b3);
      var over := LimitError(rows, dto.sender, dto.amount, at.now);
      LimitRefusedIff(rows, dto.sender, dto.amount, at.now);
      if over.Some? {
        return Failed(over.value);
      }
      Yield(at.beforeInquiry);
      ghost var b4 := Tables();
      FaithfulTransitive(b, b3, b4);
      outcome := AssessAndRecord(user, dto, key, sender.currency, beneficiary, at);
      FaithfulTransitive(b, b4, Tables());
    }

    /** A reversal is refused for the first check it fails; its transaction then either commits the reversal on
        top of what others committed or leaves exactly that. */
    method Reverse(user: nat, tx: nat, at: Surroundings) returns (outcome: Outcome)
      requires Valid()
      modifies this
      ensures Valid() && Faithful(old(Tables()), Tables())
      ensures Returned(old(Tables()), Meanwhile(old(Tables()), at.beforeRecord), user, tx, at.now, Tables(), outcome)
      ensures var b, b' := old(Tables()), Meanwhile(old(Tables()), at.beforeRecord);
              outcome == Accepted(tx) <==>
                && tx < |b.rows| && b.rows[tx].sender < |b.accounts| && b.accounts[b.rows[tx].sender].owner == user
                && b.rows[tx].status == COMPLETED && tx < |b'.rows| && b'.rows[tx].status == COMPLETED
                && Covered(b, tx) && Covered(b', tx)
    {
      hide Faithful;
      ghost var b := Tables();
      SameFaithful(b);
      if tx >= |rows| || rows[tx].sender >= |accounts| || accounts[rows[tx].sender].owner != user {
        return Failed(TransactionNotFound);
      }
      var original := rows[tx];
      if original.status == REVERSED {
        return Failed(AlreadyReversed);
      }
      if original.status != COMPLETED {
        return Failed(NotCompleted);
      }
      if original.receiver >= |accounts| || accounts[original.receiver].balance < original.amount {
        return Failed(InsufficientBalance);
      }
      assert Legal(accounts, original);
      Yield(at.beforeRecord);
      assert RowEvolves(original, rows[tx]);
      assert Legal(accounts, rows[tx]);
      ghost var b' := Tables();
      outcome := ReverseTransaction(user, tx, original, at.now);
      if ReversalError(b', tx).None? {
        ApplyFaithful(b', Ledger.Reverse(user, tx, at.now));
        ReverseReverts(b', user, tx, at.now);
        hide Apply, Enabled;
      } else {
        SameFaithful(b');
      }
      FaithfulTransitive(b, b', Tables());
    }
  }
}
