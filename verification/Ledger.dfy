/** The bank's money tables, with every committed operation as one atomic step.
    A row's id is its position: the database's own ids, up to renaming. */
module Ledger {
  import opened Sums
  import opened Fraud

  datatype Account = Account(owner: nat, currency: string, balance: int)

  datatype Status = PENDING | APPROVED | COMPLETED | REJECTED | FLAGGED | REVERSED

  datatype Risk = Risk(score: int, level: RiskLevel)

  /** The hashed payload of a keyed transfer; the hash is taken to be injective. */
  datatype Fingerprint =
    Fingerprint(user: nat, sender: nat, beneficiary: nat, amount: int, description: Option<string>)

  datatype Row = Row(
    key: Option<string>,
    fingerprint: Option<Fingerprint>,
    amount: int,
    currency: string,
    status: Status,
    sender: nat,
    receiver: nat,
    risk: Option<Risk>,
    createdAt: int,
    reversedBy: Option<nat>,
    reversedAt: Option<int>)

  datatype Alert = Alert(tx: nat, score: int, level: RiskLevel)

  datatype Bank = Bank(accounts: seq<Account>, rows: seq<Row>, alerts: seq<Alert>)

  datatype Op =
    | Record(user: nat, row: Row)
    | Reverse(user: nat, tx: nat, at: int)
    | OpenAccount(owner: nat, currency: string)

  // ---- The operations ----

  function Credited(a: Account, amount: int): Account { a.(balance := a.balance + amount) }

  function Move(accounts: seq<Account>, from: nat, to: nat, amount: int): seq<Account>
    requires from < |accounts| && to < |accounts|
  {
    var debited := accounts[from := Credited(accounts[from], -amount)];
    debited[to := Credited(debited[to], amount)]
  }

  function Reversed(row: Row, user: nat, at: int): Row {
    row.(status := REVERSED, reversedBy := Some(user), reversedAt := Some(at))
  }

  predicate KeyFree(rows: seq<Row>, key: Option<string>) {
    key.Some? ==> forall i :: 0 <= i < |rows| ==> rows[i].key != key
  }

  /** The parts of a row that never change refer to two different accounts in one currency. */
  predicate Legal(accounts: seq<Account>, row: Row) {
    && row.sender < |accounts| && row.receiver < |accounts| && row.sender != row.receiver
    && accounts[row.sender].currency == accounts[row.receiver].currency == row.currency
    && row.amount > 0
    && row.key.Some? == row.fingerprint.Some?
  }

  /** Money moves only below the flag threshold; an unanswered inquiry leaves no score. */
  predicate Gated(row: Row) {
    match row.status
    case COMPLETED => row.risk.Some? && row.risk.value.score < 60
    case REVERSED => row.risk.Some? && row.risk.value.score < 60
    case FLAGGED => row.risk.Some? && row.risk.value.score >= 60
    case REJECTED => row.risk.None?
    case _ => false
  }

  predicate Graded(row: Row) {
    row.risk.Some? ==> row.risk.value.level == SeverityOf(row.risk.value.score)
  }

  predicate Enabled(b: Bank, op: Op) {
    match op
    case Record(user, row) =>
      && Legal(b.accounts, row) && Gated(row) && Graded(row) && row.status != REVERSED
      && b.accounts[row.sender].owner == user
      && KeyFree(b.rows, row.key)
      && (row.status == COMPLETED ==> b.accounts[row.sender].balance >= row.amount)
    case Reverse(user, tx, at) =>
      && tx < |b.rows| && b.rows[tx].status == COMPLETED
      && Legal(b.accounts, b.rows[tx])
      && b.accounts[b.rows[tx].sender].owner == user
      && b.accounts[b.rows[tx].receiver].balance >= b.rows[tx].amount
    case OpenAccount(_, _) => true
  }

  function Apply(b: Bank, op: Op): Bank
    requires Enabled(b, op)
  {
    match op
    case Record(user, row) =>
      Bank(if row.status == COMPLETED then Move(b.accounts, row.sender, row.receiver, row.amount) else b.accounts,
           b.rows + [row],
           if row.status == FLAGGED then b.alerts + [Alert(|b.rows|, row.risk.value.score, row.risk.value.level)]
           else b.alerts)
    case Reverse(user, tx, at) =>
      var row := b.rows[tx];
      Bank(Move(b.accounts, row.receiver, row.sender, row.amount), b.rows[tx := Reversed(row, user, at)], b.alerts)
    case OpenAccount(owner, currency) =>
      b.(accounts := b.accounts + [Account(owner, currency, 0)])
  }

  /** A row is recorded: a COMPLETED one takes its amount from the sender and gives it to the receiver, a FLAGGED one
      raises an alert, and nothing else changes. */
  ghost predicate Posts(b: Bank, c: Bank, user: nat, row: Row) {
    && row.sender < |b.accounts| && row.receiver < |b.accounts| && row.sender != row.receiver
    && b.accounts[row.sender].owner == user
    && b.accounts[row.sender].currency == b.accounts[row.receiver].currency == row.currency
    && (row.status == COMPLETED ==> b.accounts[row.sender].balance >= row.amount)
    && c.rows == b.rows + [row] && |c.accounts| == |b.accounts|
    && (forall a :: 0 <= a < |b.accounts| ==>
         c.accounts[a] == b.accounts[a].(balance := b.accounts[a].balance
           - (if row.status == COMPLETED && a == row.sender then row.amount else 0)
           + (if row.status == COMPLETED && a == row.receiver then row.amount else 0)))
    && (row.status != FLAGGED ==> c.alerts == b.alerts)
    && (row.status == FLAGGED ==>
         row.risk.Some? && c.alerts == b.alerts + [Alert(|b.rows|, row.risk.value.score, row.risk.value.level)])
  }

  lemma RecordPosts(b: Bank, user: nat, row: Row)
    requires Enabled(b, Record(user, row))
    ensures Posts(b, Apply(b, Record(user, row)), user, row)
  {
  }

  /** A transfer is reversed: its amount goes back from the receiver to the sender, the row names who reversed it and
      when, and nothing else changes. */
  ghost predicate Reverts(b: Bank, c: Bank, user: nat, tx: nat, at: int) {
    && tx < |b.rows| && b.rows[tx].status == COMPLETED
    && var row := b.rows[tx];
       && row.sender < |b.accounts| && b.accounts[row.sender].owner == user
       && row.receiver < |b.accounts| && row.sender != row.receiver
       && b.accounts[row.receiver].balance >= row.amount
       && c.rows == b.rows[tx := row.(status := REVERSED, reversedBy := Some(user), reversedAt := Some(at))]
       && c.alerts == b.alerts && |c.accounts| == |b.accounts|
       && forall a :: 0 <= a < |b.accounts| ==>
            c.accounts[a] == b.accounts[a].(balance := b.accounts[a].balance
              + (if a == row.sender then row.amount else 0) - (if a == row.receiver then row.amount else 0))
  }

  lemma ReverseReverts(b: Bank, user: nat, tx: nat, at: int)
    requires Enabled(b, Reverse(user, tx, at))
    ensures Reverts(b, Apply(b, Reverse(user, tx, at)), user, tx, at)
  {
  }

  /** Every operation of the log is enabled in the state the earlier ones left. */
  ghost predicate Plays(b: Bank, log: seq<Op>)
    decreases |log|, 0
  {
    log == [] || (Plays(b, log[..|log| - 1]) && Enabled(Replay(b, log[..|log| - 1]), log[|log| - 1]))
  }

  ghost function Replay(b: Bank, log: seq<Op>): Bank
    requires Plays(b, log)
    decreases |log|, 1
  {
    if log == [] then b else Apply(Replay(b, log[..|log| - 1]), log[|log| - 1])
  }

  lemma {:induction false} PlaysPrefix(b: Bank, log: seq<Op>, n: nat)
    requires Plays(b, log) && n <= |log|
    ensures Plays(b, log[..n])
  {
    if n < |log| {
      assert log[..|log| - 1][..n] == log[..n];
      PlaysPrefix(b, log[..|log| - 1], n);
    } else {
      assert log[..n] == log;
    }
  }

  /** The state after n operations of a log. */
  ghost function At(b: Bank, log: seq<Op>, n: nat): Bank
    requires Plays(b, log) && n <= |log|
  {
    PlaysPrefix(b, log, n);
    Replay(b, log[..n])
  }

  lemma AtStep(b: Bank, log: seq<Op>, n: nat)
    requires Plays(b, log) && n < |log|
    ensures Enabled(At(b, log, n), log[n])
    ensures At(b, log, n + 1) == Apply(At(b, log, n), log[n])
    ensures At(b, log, 0) == b && At(b, log, |log|) == Replay(b, log)
  {
    PlaysPrefix(b, log, n + 1);
    PlaysPrefix(b, log, n);
    assert log[..n + 1][..n] == log[..n];
    assert log[..|log|] == log;
  }

  // ---- What every committed state satisfies ----

  /** What a row adds to an account's balance: nothing unless it is COMPLETED. */
  function NetOf(a: nat): Row -> int {
    (r: Row) =>
      if r.status == COMPLETED then
        (if r.receiver == a then r.amount else 0) - (if r.sender == a then r.amount else 0)
      else 0
  }

  function BalanceIn(currency: string): Account -> int {
    (a: Account) => if a.currency == currency then a.balance else 0
  }

  ghost function Total(b: Bank, currency: string): int { Sum(b.accounts, BalanceIn(currency)) }

  /** Balances on opening; an account opened later started at 0. */
  function Opening(opening: seq<int>, a: nat): int { if a < |opening| then opening[a] else 0 }

  /** Incoming minus outgoing COMPLETED amounts, on top of the opening balance. */
  ghost predicate Agrees(opening: seq<int>, b: Bank) {
    forall a :: 0 <= a < |b.accounts| ==> b.accounts[a].balance == Opening(opening, a) + Sum(b.rows, NetOf(a))
  }

  ghost predicate Solvent(b: Bank) {
    forall a :: 0 <= a < |b.accounts| ==> b.accounts[a].balance >= 0
  }

  ghost predicate KeysUnique(rows: seq<Row>) {
    forall i, j :: 0 <= i < j < |rows| && rows[i].key.Some? ==> rows[i].key != rows[j].key
  }

  ghost predicate RowsLegal(b: Bank) {
    forall i :: 0 <= i < |b.rows| ==> Legal(b.accounts, b.rows[i]) && Gated(b.rows[i]) && Graded(b.rows[i])
  }

  predicate HasAlert(alerts: seq<Alert>, tx: nat) {
    exists j :: 0 <= j < |alerts| && alerts[j].tx == tx
  }

  /** FLAGGED rows and alerts correspond one to one, with the same score and level. */
  ghost predicate AlertsMatch(b: Bank) {
    && (forall j :: 0 <= j < |b.alerts| ==>
         && b.alerts[j].tx < |b.rows| && b.rows[b.alerts[j].tx].status == FLAGGED
         && b.rows[b.alerts[j].tx].risk == Some(Risk(b.alerts[j].score, b.alerts[j].level)))
    && (forall i, j :: 0 <= i < j < |b.alerts| ==> b.alerts[i].tx != b.alerts[j].tx)
    && (forall i :: 0 <= i < |b.rows| && b.rows[i].status == FLAGGED ==> HasAlert(b.alerts, i))
  }

  ghost predicate Sound(opening: seq<int>, b: Bank) {
    && |opening| <= |b.accounts|
    && RowsLegal(b) && Solvent(b) && KeysUnique(b.rows) && AlertsMatch(b) && Agrees(opening, b)
  }

  /** A bank before its first transfer. */
  ghost predicate Fresh(b: Bank) {
    b.rows == [] && b.alerts == [] && Solvent(b)
  }

  function Balances(b: Bank): seq<int> {
    seq(|b.accounts|, i requires 0 <= i < |b.accounts| => b.accounts[i].balance)
  }

  lemma FreshIsSound(b: Bank)
    requires Fresh(b)
    ensures Sound(Balances(b), b)
  {
  }

  lemma AgreementKept(opening: seq<int>, b: Bank, op: Op)
    requires Sound(opening, b) && Enabled(b, op)
    ensures Agrees(opening, Apply(b, op))
  {
    var b' := Apply(b, op);
    forall a | 0 <= a < |b'.accounts|
      ensures b'.accounts[a].balance == Opening(opening, a) + Sum(b'.rows, NetOf(a))
    {
      match op
      case Record(user, row) => SumAppend(b.rows, row, NetOf(a));
      case Reverse(user, tx, at) => SumUpdate(b.rows, tx, Reversed(b.rows[tx], user, at), NetOf(a));
      case OpenAccount(owner, currency) =>
        if a == |b.accounts| {
          NoRowsNoNet(b, a);
        }
    }
  }

  lemma NoRowsNoNet(b: Bank, a: nat)
    requires RowsLegal(b) && a >= |b.accounts|
    ensures Sum(b.rows, NetOf(a)) == 0
  {
    var none := (r: Row) => 0;
    SumEq(b.rows, b.rows, NetOf(a), none);
    SumAtMost(b.rows, none, none, 0);
    SumNonNegative(b.rows, none);
  }

  /** Each committed operation keeps every ledger property. */
  lemma {:induction false} SoundKept(opening: seq<int>, b: Bank, op: Op)
    requires Sound(opening, b) && Enabled(b, op)
    ensures Sound(opening, Apply(b, op))
  {
    AgreementKept(opening, b, op);
    AlertsKept(opening, b, op);
    RowsKept(b, op);
  }

  lemma RowsKept(b: Bank, op: Op)
    requires RowsLegal(b) && Solvent(b) && KeysUnique(b.rows) && Enabled(b, op)
    ensures RowsLegal(Apply(b, op)) && Solvent(Apply(b, op)) && KeysUnique(Apply(b, op).rows)
  {
    LegalKept(b, op);
    hide RowsLegal;
  }

  lemma LegalKept(b: Bank, op: Op)
    requires RowsLegal(b) && Enabled(b, op)
    ensures RowsLegal(Apply(b, op))
  {
    var b' := Apply(b, op);
    forall i | 0 <= i < |b'.rows|
      ensures Legal(b'.accounts, b'.rows[i]) && Gated(b'.rows[i]) && Graded(b'.rows[i])
    {
      if i < |b.rows| {
        assert Legal(b.accounts, b.rows[i]) && Gated(b.rows[i]) && Graded(b.rows[i]);
      }
    }
  }

  lemma {:induction false} AlertsKept(opening: seq<int>, b: Bank, op: Op)
    requires Sound(opening, b) && Enabled(b, op)
    ensures AlertsMatch(Apply(b, op))
  {
    hide Agrees, Solvent, KeysUnique, RowsLegal, Move, Legal, KeyFree;
    var b' := Apply(b, op);
    forall i | 0 <= i < |b'.rows| && b'.rows[i].status == FLAGGED
      ensures HasAlert(b'.alerts, i)
    {
      if i < |b.rows| {
        assert HasAlert(b.alerts, i);
        var j :| 0 <= j < |b.alerts| && b.alerts[j].tx == i;
        assert b'.alerts[j].tx == i;
      } else {
        assert b'.alerts[|b.alerts|].tx == i;
      }
    }
  }

  /** No operation creates or destroys money: the total of each currency stays. */
  lemma TotalKept(b: Bank, op: Op, currency: string)
    requires Enabled(b, op)
    ensures Total(Apply(b, op), currency) == Total(b, currency)
  {
    match op
    case Record(user, row) =>
      if row.status == COMPLETED {
        MoveKeepsTotal(b.accounts, row.sender, row.receiver, row.amount, currency);
      }
    case Reverse(user, tx, at) =>
      MoveKeepsTotal(b.accounts, b.rows[tx].receiver, b.rows[tx].sender, b.rows[tx].amount, currency);
    case OpenAccount(owner, c) => SumAppend(b.accounts, Account(owner, c, 0), BalanceIn(currency));
  }

  lemma {:induction false} MoveKeepsTotal(accounts: seq<Account>, from: nat, to: nat, amount: int, currency: string)
    requires from < |accounts| && to < |accounts| && from != to
    requires accounts[from].currency == accounts[to].currency
    ensures Sum(Move(accounts, from, to, amount), BalanceIn(currency)) == Sum(accounts, BalanceIn(currency))
  {
    var payer, payee := Credited(accounts[from], -amount), Credited(accounts[to], amount);
    SumUpdate(accounts, from, payer, BalanceIn(currency));
    SumUpdate(accounts[from := payer], to, payee, BalanceIn(currency));
    CreditIn(accounts[from], -amount, currency);
    CreditIn(accounts[to], amount, currency);
  }

  lemma CreditIn(a: Account, amount: int, currency: string)
    ensures BalanceIn(currency)(Credited(a, amount))
         == BalanceIn(currency)(a) + if a.currency == currency then amount else 0
  {
  }

  /** Any number of committed operations keeps soundness and the totals. */
  lemma {:induction false} ReplaySound(opening: seq<int>, b: Bank, log: seq<Op>, currency: string)
    requires Sound(opening, b) && Plays(b, log)
    ensures Sound(opening, Replay(b, log))
    ensures Total(Replay(b, log), currency) == Total(b, currency)
  {
    if log != [] {
      var n := |log| - 1;
      ReplaySound(opening, b, log[..n], currency);
      SoundKept(opening, Replay(b, log[..n]), log[n]);
      TotalKept(Replay(b, log[..n]), log[n], currency);
    }
  }

  // ---- How a row may change ----

  /** A row is created once and changes at most once, from COMPLETED to REVERSED. */
  predicate RowEvolves(before: Row, after: Row) {
    after == before
    || (before.status == COMPLETED && after.status == REVERSED
        && after == before.(status := REVERSED, reversedBy := after.reversedBy, reversedAt := after.reversedAt))
  }

  ghost predicate RowsEvolve(before: seq<Row>, after: seq<Row>) {
    && |before| <= |after|
    && forall i :: 0 <= i < |before| ==> RowEvolves(before[i], after[i])
  }

  /** The fixed attributes of accounts and rows only ever extend. */
  ghost predicate Stable(b: Bank, b': Bank) {
    && |b.accounts| <= |b'.accounts| && |b.rows| <= |b'.rows|
    && (forall a :: 0 <= a < |b.accounts| ==>
         b.accounts[a].owner == b'.accounts[a].owner && b.accounts[a].currency == b'.accounts[a].currency)
    && (forall x :: 0 <= x < |b.rows| ==> RowEvolves(b.rows[x], b'.rows[x]))
  }

  lemma StableTransitive(b: Bank, c: Bank, d: Bank)
    requires Stable(b, c) && Stable(c, d)
    ensures Stable(b, d)
  {
  }

  lemma ApplyStable(b: Bank, op: Op)
    requires Enabled(b, op)
    ensures Stable(b, Apply(b, op))
  {
  }

  lemma {:induction false} HistoryEvolves(b: Bank, log: seq<Op>, m: nat, n: nat)
    requires Plays(b, log) && m <= n <= |log|
    ensures RowsEvolve(At(b, log, m).rows, At(b, log, n).rows)
    decreases n - m
  {
    if m < n {
      HistoryEvolves(b, log, m, n - 1);
      AtStep(b, log, n - 1);
    }
  }

  /** Of any number of reversals of one transfer, at most one commits. */
  lemma AtMostOneReversal(b: Bank, log: seq<Op>, i: nat, j: nat)
    requires Plays(b, log) && i < j < |log|
    requires log[i].Reverse? && log[j].Reverse?
    ensures log[i].tx != log[j].tx
  {
    AtStep(b, log, i);
    AtStep(b, log, j);
    HistoryEvolves(b, log, i + 1, j);
  }

  /** Of any number of requests with one idempotency key, at most one commits a row or moves money. */
  lemma AtMostOneRowPerKey(b: Bank, log: seq<Op>, i: nat, j: nat)
    requires Plays(b, log) && i < j < |log|
    requires log[i].Record? && log[j].Record? && log[i].row.key.Some?
    ensures log[i].row.key != log[j].row.key
  {
    AtStep(b, log, i);
    AtStep(b, log, j);
    var tx := |At(b, log, i).rows|;
    assert At(b, log, i + 1).rows[tx].key == log[i].row.key;
    HistoryEvolves(b, log, i + 1, j);
    assert At(b, log, j).rows[tx].key == log[i].row.key;
  }

  // ---- Reversal as an inverse ----

  /** The money an operation moved. */
  datatype Effect = Nothing | Moved(from: nat, to: nat, amount: int)

  function EffectOf(b: Bank, op: Op): Effect
    requires Enabled(b, op)
  {
    match op
    case Record(_, row) => if row.status == COMPLETED then Moved(row.sender, row.receiver, row.amount) else Nothing
    case Reverse(_, tx, _) => Moved(b.rows[tx].receiver, b.rows[tx].sender, b.rows[tx].amount)
    case OpenAccount(_, _) => Nothing
  }

  ghost function Effects(b: Bank, log: seq<Op>): (effects: seq<Effect>)
    requires Plays(b, log)
    ensures |effects| == |log|
  {
    if log == [] then []
    else Effects(b, log[..|log| - 1]) + [EffectOf(Replay(b, log[..|log| - 1]), log[|log| - 1])]
  }

  function Gain(a: nat): Effect -> int {
    (e: Effect) =>
      if e.Moved? then (if e.to == a then e.amount else 0) - (if e.from == a then e.amount else 0) else 0
  }

  function BalanceOf(b: Bank, a: nat): int { if a < |b.accounts| then b.accounts[a].balance else 0 }

  lemma {:induction false} BalancesAreEffects(b: Bank, log: seq<Op>, a: nat)
    requires Plays(b, log)
    ensures BalanceOf(Replay(b, log), a) == BalanceOf(b, a) + Sum(Effects(b, log), Gain(a))
  {
    if log != [] {
      var n := |log| - 1;
      BalancesAreEffects(b, log[..n], a);
      SumAppend(Effects(b, log[..n]), EffectOf(Replay(b, log[..n]), log[n]), Gain(a));
    }
  }

  lemma {:induction false} EffectAt(b: Bank, log: seq<Op>, i: nat)
    requires Plays(b, log) && i < |log|
    ensures Enabled(At(b, log, i), log[i]) && Effects(b, log)[i] == EffectOf(At(b, log, i), log[i])
  {
    AtStep(b, log, i);
    var n := |log| - 1;
    if i < n {
      EffectAt(b, log[..n], i);
      assert log[..n][..i] == log[..i];
    } else {
      assert log[..i] == log[..n];
    }
  }

  /** Whatever ran in between and afterwards, once transfer i has been reversed at j every balance is
      what the other operations' money movements alone would have left. */
  lemma ReversalErasesTheTransfer(b: Bank, log: seq<Op>, i: nat, j: nat, a: nat)
    requires Plays(b, log) && i < j < |log|
    requires log[i].Record? && log[j].Reverse? && log[j].tx == |At(b, log, i).rows|
    ensures BalanceOf(Replay(b, log), a)
         == BalanceOf(b, a) + Sum(Without(Without(Effects(b, log), j), i), Gain(a))
  {
    var effects := Effects(b, log);
    BalancesAreEffects(b, log, a);
    EffectAt(b, log, i);
    EffectAt(b, log, j);
    AtStep(b, log, i);
    assert At(b, log, i + 1).rows[log[j].tx] == log[i].row;
    HistoryEvolves(b, log, i + 1, j);
    assert RowEvolves(log[i].row, At(b, log, j).rows[log[j].tx]);
    Opposite(effects[i], effects[j], a);
    SumWithoutBoth(effects, i, j, Gain(a));
  }

  lemma Opposite(e: Effect, f: Effect, a: nat)
    requires e.Moved? && f == Moved(e.to, e.from, e.amount)
    ensures Gain(a)(e) + Gain(a)(f) == 0
  {
  }
}
