/** The interleaved machine refines the ledger: what readers see is always the result of the committed
    operations applied one at a time, in commit order. */
module Refinement {
  import opened Sums
  import opened Fraud
  import opened Ledger
  import opened Transfers
  import opened Interleaving

  // ---- What an open transaction holds ----

  function DebitOf(p: Phase): Option<nat> {
    match p
    case Debited(plan, _) => Some(plan.sender)
    case Paid(plan, _) => Some(plan.sender)
    case Inserted(plan, row) => if row.status == COMPLETED then Some(plan.sender) else None
    case ReversalDebited(undo) => Some(undo.receiver)
    case ReversalPaid(undo) => Some(undo.receiver)
    case ReversalMarked(undo, _) => Some(undo.receiver)
    case _ => None
  }

  function CreditOf(p: Phase): Option<nat> {
    match p
    case Paid(plan, _) => Some(plan.receiver)
    case Inserted(plan, row) => if row.status == COMPLETED then Some(plan.receiver) else None
    case ReversalPaid(undo) => Some(undo.sender)
    case ReversalMarked(undo, _) => Some(undo.sender)
    case _ => None
  }

  function AmountOf(p: Phase): int {
    match p
    case Debited(plan, _) => plan.amount
    case Paid(plan, _) => plan.amount
    case Inserted(plan, _) => plan.amount
    case Alerted(plan, _) => plan.amount
    case ReversalDebited(undo) => undo.amount
    case ReversalPaid(undo) => undo.amount
    case ReversalMarked(undo, _) => undo.amount
    case _ => 0
  }

  function MarkOf(p: Phase): Option<nat> {
    match p
    case ReversalMarked(undo, _) => Some(undo.tx)
    case _ => None
  }

  predicate Holds(p: Phase, a: nat) { DebitOf(p) == Some(a) || CreditOf(p) == Some(a) }

  /** The balance change r has written but not committed. */
  function Delta(p: Phase, a: nat): int {
    (if CreditOf(p) == Some(a) then AmountOf(p) else 0) - (if DebitOf(p) == Some(a) then AmountOf(p) else 0)
  }

  ghost predicate AccountCellOk(s: State, a: nat)
    requires a < |s.accounts|
  {
    var c := s.accounts[a];
    match c.owner
    case None => c.current == c.committed
    case Some(r) =>
      r < |s.requests| && Holds(s.requests[r], a)
      && c.current == Credited(c.committed, Delta(s.requests[r], a))
  }

  ghost predicate RowCellOk(s: State, x: nat)
    requires x < |s.rows|
  {
    var c := s.rows[x];
    match c.owner
    case None => c.current == c.committed
    case Some(r) =>
      r < |s.requests| && s.requests[r].ReversalMarked? && s.requests[r].undo.tx == x
      && c.current == Reversed(c.committed, s.requests[r].undo.user, s.requests[r].at)
  }

  /** Whatever a request has written, it holds the lock of; and its debit is covered. */
  ghost predicate LocksOk(s: State, r: nat)
    requires r < |s.requests|
  {
    var p := s.requests[r];
    && (DebitOf(p).Some? ==>
         var a := DebitOf(p).value;
         a < |s.accounts| && s.accounts[a].owner == Some(r) && s.accounts[a].committed.balance >= AmountOf(p))
    && (CreditOf(p).Some? ==>
         CreditOf(p).value < |s.accounts| && s.accounts[CreditOf(p).value].owner == Some(r)
         && DebitOf(p).Some? && DebitOf(p) != CreditOf(p))
    && (MarkOf(p).Some? ==>
         MarkOf(p).value < |s.rows| && s.rows[MarkOf(p).value].owner == Some(r)
         && s.rows[MarkOf(p).value].committed.status == COMPLETED)
    && (PendingRow(p).Some? ==> KeyFree(Heads(s.rows), PendingRow(p).value.key))
  }

  ghost predicate PendingKeysDiffer(s: State) {
    forall q, r :: 0 <= q < r < |s.requests| && PendingRow(s.requests[q]).Some? && PendingRow(s.requests[r]).Some?
                   && PendingRow(s.requests[q]).value.key.Some?
      ==> PendingRow(s.requests[q]).value.key != PendingRow(s.requests[r]).value.key
  }

  // ---- What a request has established by its earlier reads ----

  predicate PlanOk(accounts: seq<Account>, clock: int, plan: Plan) {
    && plan.sender < |accounts| && plan.receiver < |accounts| && plan.sender != plan.receiver
    && accounts[plan.sender].owner == plan.user
    && accounts[plan.sender].currency == accounts[plan.receiver].currency == plan.currency
    && 0 < plan.amount <= PER_TRANSFER_LIMIT
    && plan.key.Some? == plan.fingerprint.Some?
    && plan.checkedAt <= clock
  }

  predicate UndoOk(b: Bank, undo: Undo) {
    && undo.tx < |b.rows|
    && b.rows[undo.tx].sender == undo.sender && b.rows[undo.tx].receiver == undo.receiver
    && b.rows[undo.tx].amount == undo.amount
    && undo.sender < |b.accounts| && b.accounts[undo.sender].owner == undo.user
  }

  predicate PendingOk(plan: Plan, row: Row, clock: int) {
    && row == RowFor(plan, row.status, row.risk, row.createdAt)
    && row.status != REVERSED && Gated(row) && Graded(row)
    && plan.checkedAt <= row.createdAt <= clock
  }

  predicate GradedRisk(risk: Risk) { risk.level == SeverityOf(risk.score) }

  predicate PhaseOk(b: Bank, clock: int, p: Phase) {
    match p
    case Received(_, dto, _) => dto.amount > 0
    case Unmatched(_, dto, _) => dto.amount > 0
    case SenderRead(user, dto, _, account) =>
      && dto.amount > 0 && dto.sender < |b.accounts| && b.accounts[dto.sender].owner == user
      && account.currency == b.accounts[dto.sender].currency
    case Validated(user, dto, _, receiver) =>
      && dto.amount > 0 && dto.sender < |b.accounts| && b.accounts[dto.sender].owner == user
      && receiver < |b.accounts| && dto.sender != receiver
      && b.accounts[dto.sender].currency == b.accounts[receiver].currency
    case Checked(plan) => PlanOk(b.accounts, clock, plan)
    case Opened(plan, verdict) =>
      PlanOk(b.accounts, clock, plan) && (verdict.Scored? ==> GradedRisk(verdict.risk))
    case Debited(plan, risk) => PlanOk(b.accounts, clock, plan) && GradedRisk(risk) && !Flags(risk.level)
    case Paid(plan, risk) => PlanOk(b.accounts, clock, plan) && GradedRisk(risk) && !Flags(risk.level)
    case Inserted(plan, row) => PlanOk(b.accounts, clock, plan) && PendingOk(plan, row, clock)
    case Alerted(plan, row) =>
      PlanOk(b.accounts, clock, plan) && PendingOk(plan, row, clock) && row.status == FLAGGED
    case ReversalReceived(_, _) => true
    case ReversalOpened(undo) => UndoOk(b, undo)
    case ReversalDebited(undo) => UndoOk(b, undo)
    case ReversalPaid(undo) => UndoOk(b, undo)
    case ReversalMarked(undo, _) => UndoOk(b, undo)
    case Done(_) => true
  }

  ghost predicate RowsDated(s: State) {
    forall x :: 0 <= x < |s.rows| ==> s.rows[x].committed.createdAt <= s.clock
  }

  ghost predicate Inv(opening: seq<int>, s: State) {
    && Sound(opening, Committed(s))
    && (forall a :: 0 <= a < |s.accounts| ==> AccountCellOk(s, a))
    && (forall x :: 0 <= x < |s.rows| ==> RowCellOk(s, x))
    && (forall r :: 0 <= r < |s.requests| ==> LocksOk(s, r))
    && (forall r :: 0 <= r < |s.requests| ==> PhaseOk(Committed(s), s.clock, s.requests[r]))
    && PendingKeysDiffer(s)
    && RowsDated(s)
  }

  /** No request yet and no transfer ever made. */
  ghost predicate Initial(s: State) {
    && Fresh(Committed(s)) && s.requests == [] && s.rows == []
    && forall a :: 0 <= a < |s.accounts| ==> s.accounts[a] == Clean(s.accounts[a].committed)
  }

  lemma InitialInv(s: State)
    requires Initial(s)
    ensures Inv(Balances(Committed(s)), s)
  {
  }

  // ---- Steps that write nothing ----

  predicate SameHold(p: Phase, q: Phase) {
    DebitOf(p) == DebitOf(q) && CreditOf(p) == CreditOf(q) && AmountOf(p) == AmountOf(q)
    && PendingRow(p) == PendingRow(q) && !p.ReversalMarked? && !q.ReversalMarked?
  }

  /** q holds what p holds, so no lock notices the change. */
  lemma QuietCells(s: State, r: nat, q: Phase)
    requires r < |s.requests| && !s.requests[r].ReversalMarked?
    requires DebitOf(s.requests[r]) == DebitOf(q) && CreditOf(s.requests[r]) == CreditOf(q)
    requires DebitOf(q).Some? ==> AmountOf(s.requests[r]) == AmountOf(q)
    requires CreditOf(q).Some? ==> DebitOf(q).Some?
    requires forall a :: 0 <= a < |s.accounts| ==> AccountCellOk(s, a)
    requires forall x :: 0 <= x < |s.rows| ==> RowCellOk(s, x)
    ensures forall a :: 0 <= a < |s.accounts| ==> AccountCellOk(Goto(s, r, q), a)
    ensures forall x :: 0 <= x < |s.rows| ==> RowCellOk(Goto(s, r, q), x)
  {
    var s' := Goto(s, r, q);
    forall a | 0 <= a < |s'.accounts| ensures AccountCellOk(s', a) { assert AccountCellOk(s, a); }
    forall x | 0 <= x < |s'.rows| ensures RowCellOk(s', x) { assert RowCellOk(s, x); }
  }

  lemma QuietLocks(s: State, r: nat, q: Phase)
    requires r < |s.requests| && SameHold(s.requests[r], q)
    requires forall t :: 0 <= t < |s.requests| ==> LocksOk(s, t)
    ensures forall t :: 0 <= t < |s.requests| ==> LocksOk(Goto(s, r, q), t)
  {
    forall t | 0 <= t < |s.requests| ensures LocksOk(Goto(s, r, q), t) { assert LocksOk(s, t); }
  }

  lemma QuietKept(opening: seq<int>, s: State, r: nat, q: Phase)
    requires Inv(opening, s) && r < |s.requests|
    requires SameHold(s.requests[r], q) && PhaseOk(Committed(s), s.clock, q)
    ensures Inv(opening, Goto(s, r, q)) && Committed(Goto(s, r, q)) == Committed(s)
  {
    hide Sound;
    assert LocksOk(s, r);
    QuietCells(s, r, q);
    QuietLocks(s, r, q);
  }

  lemma RollBackKept(opening: seq<int>, s: State, r: nat, outcome: Outcome)
    requires Inv(opening, s) && r < |s.requests|
    ensures Inv(opening, RollBack(s, r, outcome)) && Committed(RollBack(s, r, outcome)) == Committed(s)
    ensures forall a :: 0 <= a < |s.accounts| ==> RollBack(s, r, outcome).accounts[a].owner != Some(r)
  {
    hide Sound;
    var s' := RollBack(s, r, outcome);
    assert Heads(s'.accounts) == Heads(s.accounts);
    assert Heads(s'.rows) == Heads(s.rows);
    forall a | 0 <= a < |s'.accounts| ensures AccountCellOk(s', a) { assert AccountCellOk(s, a); }
    forall x | 0 <= x < |s'.rows| ensures RowCellOk(s', x) { assert RowCellOk(s, x); }
    forall t | 0 <= t < |s'.requests| ensures LocksOk(s', t) { assert LocksOk(s, t); }
  }

  // ---- Writing an account ----

  /** q is p after one more account write of its own: a, by amount. */
  ghost predicate OneMore(p: Phase, q: Phase, a: nat, amount: int) {
    && !Holds(p, a) && Holds(q, a) && amount == Delta(q, a)
    && (forall c: nat :: c != a ==> Holds(q, c) == Holds(p, c) && Delta(q, c) == Delta(p, c))
    && (CreditOf(q).Some? ==> DebitOf(q).Some? && DebitOf(q) != CreditOf(q))
    && (DebitOf(q).Some? ==> AmountOf(q) == -amount || (DebitOf(q) == DebitOf(p) && AmountOf(q) == AmountOf(p)))
    && MarkOf(p).None? && MarkOf(q).None? && PendingRow(p).None? && PendingRow(q).None?
  }

  function Written(s: State, r: nat, a: nat, q: Phase, amount: int): State
    requires r < |s.requests| && a < |s.accounts|
  {
    Goto(s, r, q).(accounts := Write(s.accounts, a, r, Credited(s.accounts[a].current, amount)))
  }

  lemma WrittenCells(opening: seq<int>, s: State, r: nat, a: nat, q: Phase, amount: int)
    requires Inv(opening, s) && r < |s.requests| && a < |s.accounts| && Free(s.accounts[a], r)
    requires OneMore(s.requests[r], q, a, amount)
    ensures s.accounts[a].owner.None? && s.accounts[a].current == s.accounts[a].committed
    ensures forall c :: 0 <= c < |s.accounts| ==> AccountCellOk(Written(s, r, a, q, amount), c)
  {
    var s' := Written(s, r, a, q, amount);
    assert AccountCellOk(s, a);
    forall c | 0 <= c < |s'.accounts| ensures AccountCellOk(s', c) { assert AccountCellOk(s, c); }
  }

  lemma WriteAccountKept(opening: seq<int>, s: State, r: nat, a: nat, q: Phase, amount: int)
    requires Inv(opening, s) && r < |s.requests| && a < |s.accounts| && Free(s.accounts[a], r)
    requires PhaseOk(Committed(s), s.clock, q) && OneMore(s.requests[r], q, a, amount)
    requires DebitOf(q) == Some(a) ==> s.accounts[a].current.balance >= AmountOf(q)
    ensures Inv(opening, Written(s, r, a, q, amount))
    ensures Committed(Written(s, r, a, q, amount)) == Committed(s)
  {
    hide Sound;
    var s' := Written(s, r, a, q, amount);
    WrittenCells(opening, s, r, a, q, amount);
    assert Heads(s'.accounts) == Heads(s.accounts);
    forall x | 0 <= x < |s'.rows| ensures RowCellOk(s', x) { assert RowCellOk(s, x); }
    forall t | 0 <= t < |s'.requests| ensures LocksOk(s', t) { WrittenLocks(opening, s, r, a, q, amount, t); }
  }

  lemma WrittenLocks(opening: seq<int>, s: State, r: nat, a: nat, q: Phase, amount: int, t: nat)
    requires Inv(opening, s) && r < |s.requests| && a < |s.accounts| && t < |s.requests|
    requires s.accounts[a].owner.None? && s.accounts[a].current == s.accounts[a].committed
    requires OneMore(s.requests[r], q, a, amount)
    requires DebitOf(q) == Some(a) ==> s.accounts[a].current.balance >= AmountOf(q)
    ensures LocksOk(Written(s, r, a, q, amount), t)
  {
    hide Sound;
    assert LocksOk(s, t);
    if t == r { OwnDebit(s.requests[r], q, a, amount); }
  }

  /** A further write is the debit itself or leaves it as it was. */
  lemma OwnDebit(p: Phase, q: Phase, a: nat, amount: int)
    requires OneMore(p, q, a, amount)
    requires CreditOf(p).Some? ==> DebitOf(p).Some? && DebitOf(p) != CreditOf(p)
    ensures DebitOf(q).Some? ==> Holds(q, DebitOf(q).value)
    ensures CreditOf(q).Some? ==> Holds(q, CreditOf(q).value)
    ensures DebitOf(q) == Some(a) || DebitOf(q) == DebitOf(p)
  {
    if DebitOf(p).Some? { assert Holds(p, DebitOf(p).value); }
    if DebitOf(q).Some? && DebitOf(q) != Some(a) {
      assert Delta(q, DebitOf(q).value) == Delta(p, DebitOf(q).value);
    }
  }

  lemma {:induction false} DebitKept(opening: seq<int>, s: State, r: nat)
    requires Inv(opening, s) && r < |s.requests| && DebitStep(s, r).Some?
    ensures Inv(opening, DebitStep(s, r).value) && Committed(DebitStep(s, r).value) == Committed(s)
  {
    hide Sound;
    assert PhaseOk(Committed(s), s.clock, s.requests[r]);
    match s.requests[r]
    case Opened(plan, Scored(risk)) =>
      GuardedDebitKept(opening, s, r, plan.sender, plan.amount, Debited(plan, risk));
    case ReversalOpened(undo) =>
      GuardedDebitKept(opening, s, r, undo.receiver, undo.amount, ReversalDebited(undo));
  }

  lemma GuardedDebitKept(opening: seq<int>, s: State, r: nat, a: nat, amount: int, q: Phase)
    requires Inv(opening, s) && r < |s.requests|
    requires s.requests[r].Opened? || s.requests[r].ReversalOpened?
    requires DebitOf(q) == Some(a) && CreditOf(q).None? && AmountOf(q) == amount
    requires q.Debited? || q.ReversalDebited?
    requires PhaseOk(Committed(s), s.clock, q) && GuardedDebit(s, r, a, amount, q).Some?
    ensures Inv(opening, GuardedDebit(s, r, a, amount, q).value)
    ensures Committed(GuardedDebit(s, r, a, amount, q).value) == Committed(s)
  {
    hide Sound;
    if s.accounts[a].current.balance < amount {
      RollBackKept(opening, s, r, Failed(InsufficientBalance));
    } else {
      WriteAccountKept(opening, s, r, a, q, -amount);
    }
  }

  lemma {:induction false} PayKept(opening: seq<int>, s: State, r: nat)
    requires Inv(opening, s) && r < |s.requests| && PayStep(s, r).Some?
    ensures Inv(opening, PayStep(s, r).value) && Committed(PayStep(s, r).value) == Committed(s)
  {
    assert PhaseOk(Committed(s), s.clock, s.requests[r]);
    if s.requests[r].ReversalDebited? {
      var undo := s.requests[r].undo;
      assert Legal(Committed(s).accounts, Committed(s).rows[undo.tx]);
      PayWritten(opening, s, r, undo.sender, undo.amount, ReversalPaid(undo));
    } else {
      var plan := s.requests[r].plan;
      PayWritten(opening, s, r, plan.receiver, plan.amount, Paid(plan, s.requests[r].risk));
    }
  }

  lemma PayWritten(opening: seq<int>, s: State, r: nat, a: nat, amount: int, q: Phase)
    requires Inv(opening, s) && r < |s.requests| && a < |s.accounts| && Free(s.accounts[a], r)
    requires s.requests[r].Debited? || s.requests[r].ReversalDebited?
    requires q.Paid? || q.ReversalPaid?
    requires PhaseOk(Committed(s), s.clock, q) && AmountOf(q) == amount == AmountOf(s.requests[r])
    requires CreditOf(q) == Some(a) && DebitOf(q).Some? && DebitOf(q) == DebitOf(s.requests[r]) && DebitOf(q) != Some(a)
    ensures Inv(opening, Written(s, r, a, q, amount))
    ensures Committed(Written(s, r, a, q, amount)) == Committed(s)
  {
    hide Sound;
    WriteAccountKept(opening, s, r, a, q, amount);
  }

  // ---- Inserting a row, marking a row ----

  lemma {:induction false} InsertRowKept(opening: seq<int>, s: State, r: nat, plan: Plan, row: Row)
    requires Inv(opening, s) && r < |s.requests| && InsertRow(s, r, plan, row).Some?
    requires PendingRow(s.requests[r]).None? && MarkOf(s.requests[r]).None? && row.key == plan.key
    requires PhaseOk(Committed(s), s.clock, Inserted(plan, row))
    requires DebitOf(s.requests[r]) == DebitOf(Inserted(plan, row))
    requires CreditOf(s.requests[r]) == CreditOf(Inserted(plan, row))
    requires DebitOf(s.requests[r]).Some? ==> AmountOf(s.requests[r]) == plan.amount
    ensures Inv(opening, InsertRow(s, r, plan, row).value)
    ensures Committed(InsertRow(s, r, plan, row).value) == Committed(s)
  {
    hide Sound;
    if !KeyFree(Committed(s).rows, plan.key) {
      RollBackKept(opening, s, r, Failed(DuplicateKey));
    } else {
      var s' := Goto(s, r, Inserted(plan, row));
      assert LocksOk(s, r);
      QuietCells(s, r, Inserted(plan, row));
      forall t | 0 <= t < |s'.requests| ensures LocksOk(s', t) { assert LocksOk(s, t); }
      forall t | 0 <= t < |s.requests| && t != r && plan.key.Some? ensures !HoldsKey(s.requests[t], plan.key) {
        assert !KeyHeld(s, r, plan.key);
      }
    }
  }

  lemma {:induction false} InsertKept(opening: seq<int>, s: State, r: nat, at: int)
    requires Inv(opening, s) && r < |s.requests| && InsertStep(s, r, at).Some?
    ensures Inv(opening, InsertStep(s, r, at).value) && Committed(InsertStep(s, r, at).value) == Committed(s)
  {
    hide Sound;
    assert PhaseOk(Committed(s), s.clock, s.requests[r]);
    match s.requests[r]
    case Opened(plan, verdict) =>
      if verdict.Unavailable? {
        InsertRowKept(opening, s, r, plan, RowFor(plan, REJECTED, None, at));
      } else {
        InsertRowKept(opening, s, r, plan, RowFor(plan, FLAGGED, Some(verdict.risk), at));
      }
    case Paid(plan, risk) => InsertRowKept(opening, s, r, plan, RowFor(plan, COMPLETED, Some(risk), at));
  }

  lemma {:induction false} MarkKept(opening: seq<int>, s: State, r: nat)
    requires Inv(opening, s) && r < |s.requests| && MarkStep(s, r).Some?
    ensures Inv(opening, MarkStep(s, r).value) && Committed(MarkStep(s, r).value) == Committed(s)
  {
    hide Sound;
    assert PhaseOk(Committed(s), s.clock, s.requests[r]);
    var undo := s.requests[r].undo;
    if s.rows[undo.tx].current.status != COMPLETED {
      RollBackKept(opening, s, r, Failed(ReversalConflict));
    } else {
      var s' := MarkStep(s, r).value;
      assert Heads(s'.rows) == Heads(s.rows);
      MarkedCells(opening, s, r);
      assert s'.requests[r] == ReversalMarked(undo, s.clock);
      assert LocksOk(s', r) by { assert LocksOk(s, r); }
      forall t | 0 <= t < |s'.requests| && t != r ensures LocksOk(s', t) { assert LocksOk(s, t); }
    }
  }

  lemma MarkedCells(opening: seq<int>, s: State, r: nat)
    requires Inv(opening, s) && r < |s.requests| && MarkStep(s, r).Some?
    requires s.rows[s.requests[r].undo.tx].current.status == COMPLETED
    ensures var s' := MarkStep(s, r).value;
            && s.rows[s.requests[r].undo.tx].owner.None?
            && s.rows[s.requests[r].undo.tx].committed.status == COMPLETED
            && (forall a :: 0 <= a < |s'.accounts| ==> AccountCellOk(s', a))
            && (forall x :: 0 <= x < |s'.rows| ==> RowCellOk(s', x))
  {
    hide Sound;
    var s' := MarkStep(s, r).value;
    assert RowCellOk(s, s.requests[r].undo.tx);
    forall a | 0 <= a < |s'.accounts| ensures AccountCellOk(s', a) { assert AccountCellOk(s, a); }
    forall x | 0 <= x < |s'.rows| ensures RowCellOk(s', x) { assert RowCellOk(s, x); }
  }

  // ---- Commit ----

  lemma PhaseStable(b: Bank, b': Bank, clock: int, clock': int, p: Phase)
    requires Stable(b, b') && clock <= clock' && PhaseOk(b, clock, p)
    ensures PhaseOk(b', clock', p)
  {
  }

  lemma ReadyEnabled(opening: seq<int>, s: State, r: nat)
    requires Inv(opening, s) && r < |s.requests| && Ready(s.requests[r]).Some?
    ensures Enabled(Committed(s), Ready(s.requests[r]).value)
  {
    assert LocksOk(s, r) && PhaseOk(Committed(s), s.clock, s.requests[r]);
    if s.requests[r].ReversalMarked? {
      var row := Committed(s).rows[s.requests[r].undo.tx];
      assert Legal(Committed(s).accounts, row);
    }
  }

  lemma SettledAccounts(opening: seq<int>, s: State, r: nat)
    requires Inv(opening, s) && r < |s.requests| && Ready(s.requests[r]).Some?
    ensures Enabled(Committed(s), Ready(s.requests[r]).value)
    ensures Heads(Settle(s.accounts, r)) == Apply(Committed(s), Ready(s.requests[r]).value).accounts
  {
    hide Sound;
    ReadyEnabled(opening, s, r);
    var p := s.requests[r];
    var after := Apply(Committed(s), Ready(p).value).accounts;
    assert LocksOk(s, r);
    forall a | 0 <= a < |s.accounts|
      ensures Heads(Settle(s.accounts, r))[a] == after[a]
    {
      assert AccountCellOk(s, a);
      assert after[a] == Credited(s.accounts[a].committed, Delta(p, a)) by {
        assert PhaseOk(Committed(s), s.clock, p);
      }
    }
  }

  lemma CommitRefines(opening: seq<int>, s: State, r: nat)
    requires Inv(opening, s) && r < |s.requests| && Ready(s.requests[r]).Some?
    ensures CommitStep(s, r).Some? && Enabled(Committed(s), Ready(s.requests[r]).value)
    ensures Committed(CommitStep(s, r).value) == Apply(Committed(s), Ready(s.requests[r]).value)
  {
    hide Sound;
    SettledAccounts(opening, s, r);
    var s' := CommitStep(s, r).value;
    var after := Apply(Committed(s), Ready(s.requests[r]).value);
    assert LocksOk(s, r) && PhaseOk(Committed(s), s.clock, s.requests[r]);
    forall x | 0 <= x < |s.rows| ensures Heads(s'.rows)[x] == after.rows[x] { assert RowCellOk(s, x); }
    assert Heads(s'.rows) == after.rows;
  }

  /** What a commit changes, seen from the tables. */
  lemma CommitFrame(s: State, r: nat)
    requires r < |s.requests| && CommitStep(s, r).Some?
    ensures var s' := CommitStep(s, r).value;
            && s'.accounts == Settle(s.accounts, r) && s'.clock == s.clock
            && |s.rows| <= |s'.rows| && s'.rows[..|s.rows|] == Settle(s.rows, r)
            && |s'.requests| == |s.requests| && s'.requests[r].Done?
            && (forall t :: 0 <= t < |s.requests| && t != r ==> s'.requests[t] == s.requests[t])
  {
  }

  lemma CommitCells(opening: seq<int>, s: State, r: nat)
    requires Inv(opening, s) && r < |s.requests| && CommitStep(s, r).Some?
    ensures var s' := CommitStep(s, r).value;
            && (forall a :: 0 <= a < |s'.accounts| ==> AccountCellOk(s', a))
            && (forall x :: 0 <= x < |s'.rows| ==> RowCellOk(s', x))
  {
    hide Sound;
    var s' := CommitStep(s, r).value;
    forall a | 0 <= a < |s'.accounts| ensures AccountCellOk(s', a) { assert AccountCellOk(s, a); }
    forall x | 0 <= x < |s'.rows| ensures RowCellOk(s', x) {
      if x < |s.rows| { assert RowCellOk(s, x); }
    }
  }

  lemma CommitLocks(opening: seq<int>, s: State, r: nat, t: nat)
    requires Inv(opening, s) && r < |s.requests| && CommitStep(s, r).Some? && t < |s.requests|
    ensures LocksOk(CommitStep(s, r).value, t)
  {
    hide Sound;
    CommitFrame(s, r);
    var s' := CommitStep(s, r).value;
    var p := s.requests[t];
    if t != r {
      assert LocksOk(s, t);
      if PendingRow(p).Some? {
        KeysStayFree(opening, s, r, t);
      }
      if MarkOf(p).Some? {
        assert s'.rows[..|s.rows|][MarkOf(p).value] == s.rows[MarkOf(p).value];
      }
    }
  }

  /** Committing r's row leaves every other pending key free. */
  lemma KeysStayFree(opening: seq<int>, s: State, r: nat, t: nat)
    requires Inv(opening, s) && r < |s.requests| && t < |s.requests| && t != r && CommitStep(s, r).Some?
    requires PendingRow(s.requests[t]).Some?
    ensures KeyFree(Heads(CommitStep(s, r).value.rows), PendingRow(s.requests[t]).value.key)
  {
    hide Sound;
    CommitRefines(opening, s, r);
    assert LocksOk(s, t);
    var key := PendingRow(s.requests[t]).value.key;
    var rows := Committed(CommitStep(s, r).value).rows;
    forall x | 0 <= x < |rows| && key.Some? ensures rows[x].key != key {
      if x < |s.rows| { assert rows[x].key == Committed(s).rows[x].key; }
    }
  }

  lemma CommitPhases(opening: seq<int>, s: State, r: nat)
    requires Inv(opening, s) && r < |s.requests| && CommitStep(s, r).Some?
    ensures var s' := CommitStep(s, r).value;
            forall t :: 0 <= t < |s'.requests| ==> PhaseOk(Committed(s'), s'.clock, s'.requests[t])
  {
    CommitFrame(s, r);
    CommitRefines(opening, s, r);
    ApplyStable(Committed(s), Ready(s.requests[r]).value);
    var s' := CommitStep(s, r).value;
    forall t | 0 <= t < |s'.requests| ensures PhaseOk(Committed(s'), s'.clock, s'.requests[t]) {
      if t != r { PhaseStable(Committed(s), Committed(s'), s.clock, s'.clock, s.requests[t]); }
    }
  }

  lemma CommitDated(opening: seq<int>, s: State, r: nat)
    requires Inv(opening, s) && r < |s.requests| && CommitStep(s, r).Some?
    ensures RowsDated(CommitStep(s, r).value)
  {
    CommitFrame(s, r);
    CommitRefines(opening, s, r);
    var s' := CommitStep(s, r).value;
    assert PhaseOk(Committed(s), s.clock, s.requests[r]);
    forall x | 0 <= x < |s'.rows| ensures s'.rows[x].committed.createdAt <= s'.clock {
      assert s'.rows[x].committed == Committed(s').rows[x];
      if x < |s.rows| { assert Committed(s').rows[x].createdAt == Committed(s).rows[x].createdAt; }
    }
  }

  lemma CommitKept(opening: seq<int>, s: State, r: nat)
    requires Inv(opening, s) && r < |s.requests| && CommitStep(s, r).Some?
    ensures Inv(opening, CommitStep(s, r).value)
  {
    var s' := CommitStep(s, r).value;
    assert Sound(opening, Committed(s')) by {
      CommitRefines(opening, s, r);
      SoundKept(opening, Committed(s), Ready(s.requests[r]).value);
    }
    CommitFrame(s, r);
    CommitCells(opening, s, r);
    forall t | 0 <= t < |s'.requests| ensures LocksOk(s', t) { CommitLocks(opening, s, r, t); }
    CommitPhases(opening, s, r);
    CommitDated(opening, s, r);
  }
}
