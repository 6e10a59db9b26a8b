/** Progress of a request nobody interferes with, and from it the exactness of the daily bound. */
module LimitIsTight {
  import opened Sums
  import opened Fraud
  import opened Ledger
  import opened Transfers
  import opened Interleaving
  import opened Refinement
  import opened Runs
  import opened DailyLimit

  // ---- Composing runs ----

  lemma {:induction false} AfterConcat(s: State, es: seq<Event>, fs: seq<Event>)
    requires After(s, es).Some?
    ensures After(s, es + fs) == After(After(s, es).value, fs)
  {
    if fs == [] {
      assert es + fs == es;
    } else {
      var n := |fs| - 1;
      assert (es + fs)[..|es + fs| - 1] == es + fs[..n];
      AfterConcat(s, es, fs[..n]);
    }
  }

  lemma {:induction false} AtMostConcat(k: nat, a: nat, s: State, es: seq<Event>, fs: seq<Event>)
    requires After(s, es).Some? && AtMost(k, a, s, es)
    requires After(After(s, es).value, fs).Some? && AtMost(k, a, After(s, es).value, fs)
    ensures After(s, es + fs).Some? && AtMost(k, a, s, es + fs)
  {
    AfterConcat(s, es, fs);
    if fs == [] {
      assert es + fs == es;
    } else {
      var n := |fs| - 1;
      assert (es + fs)[..|es + fs| - 1] == es + fs[..n];
      AtMostConcat(k, a, s, es, fs[..n]);
    }
  }

  lemma {:induction false} AtMostWeaken(k: nat, l: nat, a: nat, s: State, es: seq<Event>)
    requires After(s, es).Some? && AtMost(k, a, s, es) && k <= l
    ensures AtMost(l, a, s, es)
  {
    if es != [] { AtMostWeaken(k, l, a, s, es[..|es| - 1]); }
  }

  ghost predicate Leads(k: nat, a: nat, s: State, e: Event, t: State) {
    Step(s, e) == Some(t) && Sum(t.requests, InFlight(a)) <= k
  }

  /** Event i of e leads from t[i] to t[i + 1]. */
  ghost predicate Linked(k: nat, a: nat, t: seq<State>, e: seq<Event>, i: nat)
    requires |t| == |e| + 1 && i < |e|
  {
    Leads(k, a, t[i], e[i], t[i + 1])
  }

  lemma {:induction false} Chain(k: nat, a: nat, t: seq<State>, e: seq<Event>)
    requires |t| == |e| + 1 && Sum(t[0].requests, InFlight(a)) <= k
    requires forall i: nat :: i < |e| ==> Linked(k, a, t, e, i)
    ensures After(t[0], e) == Some(t[|e|]) && AtMost(k, a, t[0], e)
  {
    hide Step;
    if e != [] {
      var n := |e| - 1;
      var t', e' := t[..n + 1], e[..n];
      forall i: nat | i < n ensures Linked(k, a, t', e', i) { assert Linked(k, a, t, e, i); }
      Chain(k, a, t', e');
      assert Linked(k, a, t, e, n);
    }
  }

  lemma {:induction false} FiveSteps(k: nat, a: nat, s0: State, s1: State, s2: State, s3: State, s4: State, s5: State,
                                     e: seq<Event>)
    requires |e| == 5 && Sum(s0.requests, InFlight(a)) <= k
    requires Leads(k, a, s0, e[0], s1) && Leads(k, a, s1, e[1], s2) && Leads(k, a, s2, e[2], s3)
    requires Leads(k, a, s3, e[3], s4) && Leads(k, a, s4, e[4], s5)
    ensures After(s0, e) == Some(s5) && AtMost(k, a, s0, e)
  {
    hide Step;
    var t := [s0, s1, s2, s3, s4, s5];
    FiveLinks(k, a, t, e);
    Chain(k, a, t, e);
  }

  lemma {:induction false} FiveLinks(k: nat, a: nat, t: seq<State>, e: seq<Event>)
    requires |t| == 6 && |e| == 5
    requires Leads(k, a, t[0], e[0], t[1]) && Leads(k, a, t[1], e[1], t[2]) && Leads(k, a, t[2], e[2], t[3])
    requires Leads(k, a, t[3], e[3], t[4]) && Leads(k, a, t[4], e[4], t[5])
    ensures forall i: nat :: i < |e| ==> Linked(k, a, t, e, i)
  {
    hide Step;
    assert Linked(k, a, t, e, 0) && Linked(k, a, t, e, 1) && Linked(k, a, t, e, 2);
    assert Linked(k, a, t, e, 3) && Linked(k, a, t, e, 4);
  }

  // ---- A bank with one payer and one payee ----

  ghost predicate Scene(s: State) {
    && |s.accounts| == 2 && s.clock == 0
    && s.accounts[0] == Clean(Account(0, "USD", s.accounts[0].committed.balance))
    && s.accounts[1] == Clean(Account(1, "USD", s.accounts[1].committed.balance))
    && (forall x :: 0 <= x < |s.rows| ==> s.rows[x].owner.None? && s.rows[x].committed.createdAt == 0)
  }

  function Payment(amount: int): Dto { Dto(0, 0, amount, None) }

  function PaymentPlan(amount: int): Plan { Plan(0, 0, 1, amount, "USD", None, None, 0) }

  /** An inquiry no rule fires on. */
  function Harmless(amount: int): Inquiry { Inquiry(amount, amount as real, false, false, 0, 0, 12) }

  const NO_RISK := Risk(0, LOW)

  lemma HarmlessScoresZero(amount: int)
    requires amount > 0
    ensures Assess(Harmless(amount)).score == 0 && Assess(Harmless(amount)).level == LOW
  {
    var t := Harmless(amount);
    WeightIsPoints(6, t);
    NextRule(0, t);
    NextRule(1, t);
    NextRule(2, t);
    NextRule(3, t);
    NextRule(4, t);
    NextRule(5, t);
  }

  function Checks(r: nat, amount: int): seq<Event> {
    [Submit(0, Payment(amount), None), Lookup(r), ReadSender(r), ReadReceiver(r, Some(1)), CheckLimits(r)]
  }

  function Writes(r: nat, amount: int): seq<Event> {
    [Analyze(r, Some(Harmless(amount))), Debit(r), Pay(r), Insert(r, 0), Commit(r)]
  }

  function With(s: State, p: Phase): State { s.(requests := s.requests + [p]) }

  lemma SpentNow(s: State)
    requires Scene(s)
    ensures Sum(Committed(s).rows, SpentSince(0, StartOfDay(0))) == Spent(s, 0, 0)
  {
    forall x | 0 <= x < |s.rows| ensures Heads(s.rows)[x].createdAt <= 0 {
      assert s.rows[x].committed.createdAt == 0;
    }
    SpentTodayIsSpentSince(Heads(s.rows), 0, 0);
  }

  lemma GotoTwice(s: State, r: nat, p: Phase, q: Phase)
    requires r < |s.requests|
    ensures Goto(Goto(s, r, p), r, q) == Goto(s, r, q)
  {
    assert s.requests[r := p][r := q] == s.requests[r := q];
  }

  lemma GotoWith(s: State, p: Phase, q: Phase)
    ensures Goto(With(s, p), |s.requests|, q) == With(s, q)
  {
    assert (s.requests + [p])[|s.requests| := q] == s.requests + [q];
  }

  lemma LimitCheckPasses(s: State, amount: int)
    requires Scene(s) && 0 < amount <= PER_TRANSFER_LIMIT
    requires Spent(s, 0, 0) + amount <= DAILY_TRANSFER_LIMIT
    ensures Step(With(s, Validated(0, Payment(amount), None, 1)), CheckLimits(|s.requests|))
         == Some(With(s, Checked(PaymentPlan(amount))))
  {
    SpentNow(s);
    GotoWith(s, Validated(0, Payment(amount), None, 1), Checked(PaymentPlan(amount)));
  }

  lemma EarlierChecksPass(s: State, amount: int)
    requires Scene(s) && 0 < amount && s.accounts[0].committed.balance >= amount
    ensures var r, dto, a := |s.requests|, Payment(amount), s.accounts[0].committed;
            && Step(s, Submit(0, dto, None)) == Some(With(s, Received(0, dto, None)))
            && Step(With(s, Received(0, dto, None)), Lookup(r)) == Some(With(s, Unmatched(0, dto, None)))
            && Step(With(s, Unmatched(0, dto, None)), ReadSender(r)) == Some(With(s, SenderRead(0, dto, None, a)))
            && Step(With(s, SenderRead(0, dto, None, a)), ReadReceiver(r, Some(1)))
               == Some(With(s, Validated(0, dto, None, 1)))
  {
    var dto, a := Payment(amount), s.accounts[0].committed;
    GotoWith(s, Received(0, dto, None), Unmatched(0, dto, None));
    GotoWith(s, Unmatched(0, dto, None), SenderRead(0, dto, None, a));
    GotoWith(s, SenderRead(0, dto, None, a), Validated(0, dto, None, 1));
  }

  /** The five steps up to the limit check, run without interruption, admit an affordable payment. */
  lemma ChecksRun(s: State, amount: int, k: nat)
    requires Scene(s) && 0 < amount <= PER_TRANSFER_LIMIT
    requires Spent(s, 0, 0) + amount <= DAILY_TRANSFER_LIMIT
    requires s.accounts[0].committed.balance >= amount
    requires Sum(s.requests, InFlight(0)) + 1 <= k
    ensures After(s, Checks(|s.requests|, amount)) == Some(With(s, Checked(PaymentPlan(amount))))
    ensures AtMost(k, 0, s, Checks(|s.requests|, amount))
  {
    hide Step;
    var dto, a := Payment(amount), s.accounts[0].committed;
    EarlierChecksPass(s, amount);
    LimitCheckPasses(s, amount);
    SumAppend(s.requests, Received(0, dto, None), InFlight(0));
    SumAppend(s.requests, Unmatched(0, dto, None), InFlight(0));
    SumAppend(s.requests, SenderRead(0, dto, None, a), InFlight(0));
    SumAppend(s.requests, Validated(0, dto, None, 1), InFlight(0));
    SumAppend(s.requests, Checked(PaymentPlan(amount)), InFlight(0));
    FiveSteps(k, 0, s, With(s, Received(0, dto, None)), With(s, Unmatched(0, dto, None)),
              With(s, SenderRead(0, dto, None, a)), With(s, Validated(0, dto, None, 1)),
              With(s, Checked(PaymentPlan(amount))), Checks(|s.requests|, amount));
  }

  // ---- The transaction of a checked payment ----

  /** The state when transaction r has written `debit` from account 0 and `credit` to account 1. */
  function Mid(s: State, r: nat, p: Phase, debit: int, credit: int): State
    requires |s.accounts| == 2 && r < |s.requests|
  {
    var payer, payee := s.accounts[0].committed, s.accounts[1].committed;
    Goto(s, r, p).(accounts :=
      [if debit == 0 then s.accounts[0] else Cell(payer, Credited(payer, -debit), Some(r)),
       if credit == 0 then s.accounts[1] else Cell(payee, Credited(payee, credit), Some(r))])
  }

  function PaymentRow(amount: int): Row { RowFor(PaymentPlan(amount), COMPLETED, Some(NO_RISK), 0) }

  function Finished(s: State, r: nat, amount: int): State
    requires |s.accounts| == 2 && r < |s.requests|
  {
    Goto(s, r, Done(Accepted(|s.rows|))).(
      accounts := [Clean(Credited(s.accounts[0].committed, -amount)), Clean(Credited(s.accounts[1].committed, amount))],
      rows := s.rows + [Clean(PaymentRow(amount))])
  }

  lemma WritesSteps(s: State, r: nat, amount: int)
    requires Scene(s) && r < |s.requests| && s.requests[r] == Checked(PaymentPlan(amount)) && amount > 0
    requires s.accounts[0].committed.balance >= amount
    ensures var plan := PaymentPlan(amount);
            && Step(s, Analyze(r, Some(Harmless(amount)))) == Some(Mid(s, r, Opened(plan, Scored(NO_RISK)), 0, 0))
            && Step(Mid(s, r, Opened(plan, Scored(NO_RISK)), 0, 0), Debit(r))
               == Some(Mid(s, r, Debited(plan, NO_RISK), amount, 0))
            && Step(Mid(s, r, Debited(plan, NO_RISK), amount, 0), Pay(r))
               == Some(Mid(s, r, Paid(plan, NO_RISK), amount, amount))
  {
    var plan := PaymentPlan(amount);
    HarmlessScoresZero(amount);
    assert [s.accounts[0], s.accounts[1]] == s.accounts;
    GotoTwice(s, r, Opened(plan, Scored(NO_RISK)), Debited(plan, NO_RISK));
    GotoTwice(s, r, Debited(plan, NO_RISK), Paid(plan, NO_RISK));
    var begun := Mid(s, r, Opened(plan, Scored(NO_RISK)), 0, 0);
    var debited := Mid(s, r, Debited(plan, NO_RISK), amount, 0);
    assert Write(begun.accounts, 0, r, Credited(s.accounts[0].committed, -amount)) == debited.accounts;
    assert Write(debited.accounts, 1, r, Credited(s.accounts[1].committed, amount))
        == Mid(s, r, Paid(plan, NO_RISK), amount, amount).accounts;
  }

  lemma CommitSteps(s: State, r: nat, amount: int)
    requires Scene(s) && r < |s.requests| && amount > 0
    ensures var plan := PaymentPlan(amount);
            && Step(Mid(s, r, Paid(plan, NO_RISK), amount, amount), Insert(r, 0))
               == Some(Mid(s, r, Inserted(plan, PaymentRow(amount)), amount, amount))
            && Step(Mid(s, r, Inserted(plan, PaymentRow(amount)), amount, amount), Commit(r))
               == Some(Finished(s, r, amount))
  {
    var plan := PaymentPlan(amount);
    var t := Mid(s, r, Inserted(plan, PaymentRow(amount)), amount, amount);
    GotoTwice(s, r, Paid(plan, NO_RISK), Inserted(plan, PaymentRow(amount)));
    GotoTwice(s, r, Inserted(plan, PaymentRow(amount)), Done(Accepted(|s.rows|)));
    assert Settle(t.rows, r) == s.rows;
    assert Settle(t.accounts, r) == Finished(s, r, amount).accounts;
  }

  lemma FinishedScene(s: State, r: nat, amount: int)
    requires Scene(s) && r < |s.requests| && amount > 0
    ensures Scene(Finished(s, r, amount)) && Spent(Finished(s, r, amount), 0, 0) == Spent(s, 0, 0) + amount
  {
    assert Heads(Finished(s, r, amount).rows) == Heads(s.rows) + [PaymentRow(amount)];
    SumAppend(Heads(s.rows), PaymentRow(amount), SpentOn(0, 0));
  }

  lemma MidInFlight(s: State, r: nat, amount: int)
    requires Scene(s) && r < |s.requests| && s.requests[r] == Checked(PaymentPlan(amount))
    ensures var plan, n := PaymentPlan(amount), Sum(s.requests, InFlight(0));
            && Sum(s.requests[r := Opened(plan, Scored(NO_RISK))], InFlight(0)) == n
            && Sum(s.requests[r := Debited(plan, NO_RISK)], InFlight(0)) == n
            && Sum(s.requests[r := Paid(plan, NO_RISK)], InFlight(0)) == n
            && Sum(s.requests[r := Inserted(plan, PaymentRow(amount))], InFlight(0)) == n
            && Sum(s.requests[r := Done(Accepted(|s.rows|))], InFlight(0)) == n - 1
  {
    var plan := PaymentPlan(amount);
    SumUpdate(s.requests, r, Opened(plan, Scored(NO_RISK)), InFlight(0));
    SumUpdate(s.requests, r, Debited(plan, NO_RISK), InFlight(0));
    SumUpdate(s.requests, r, Paid(plan, NO_RISK), InFlight(0));
    SumUpdate(s.requests, r, Inserted(plan, PaymentRow(amount)), InFlight(0));
    SumUpdate(s.requests, r, Done(Accepted(|s.rows|)), InFlight(0));
  }

  /** The transaction of a checked, affordable payment, run without interruption, commits it. */
  lemma WritesRun(s: State, r: nat, amount: int, k: nat)
    requires Scene(s) && r < |s.requests| && s.requests[r] == Checked(PaymentPlan(amount)) && amount > 0
    requires s.accounts[0].committed.balance >= amount && Sum(s.requests, InFlight(0)) <= k
    ensures After(s, Writes(r, amount)) == Some(Finished(s, r, amount)) && AtMost(k, 0, s, Writes(r, amount))
    ensures Sum(Finished(s, r, amount).requests, InFlight(0)) == Sum(s.requests, InFlight(0)) - 1
  {
    hide Step;
    var plan := PaymentPlan(amount);
    WritesSteps(s, r, amount);
    CommitSteps(s, r, amount);
    MidInFlight(s, r, amount);
    FiveSteps(k, 0, s, Mid(s, r, Opened(plan, Scored(NO_RISK)), 0, 0), Mid(s, r, Debited(plan, NO_RISK), amount, 0),
              Mid(s, r, Paid(plan, NO_RISK), amount, amount),
              Mid(s, r, Inserted(plan, PaymentRow(amount)), amount, amount), Finished(s, r, amount), Writes(r, amount));
  }

  // ---- Reaching the bound ----

  /** What a stretch of a run from s to t that leaves every earlier request alone achieves. */
  ghost predicate Achieves(s: State, es: seq<Event>, t: State, k: nat, spent: int) {
    && After(s, es) == Some(t) && AtMost(k, 0, s, es)
    && Scene(s) && Scene(t) && s.requests <= t.requests
    && Sum(t.requests, InFlight(0)) == Sum(s.requests, InFlight(0))
    && Spent(t, 0, 0) == Spent(s, 0, 0) + spent
    && t.accounts[0].committed.balance == s.accounts[0].committed.balance - spent
  }

  /** A held-back payment around any stretch: checked before it, written after it. */
  lemma {:induction false} Around(s: State, amount: int, es: seq<Event>, u: State, k: nat, spent: int)
    returns (t: State)
    requires Scene(s) && 0 < amount <= PER_TRANSFER_LIMIT
    requires Spent(s, 0, 0) + amount <= DAILY_TRANSFER_LIMIT
    requires s.accounts[0].committed.balance >= amount && s.accounts[0].committed.balance >= amount + spent
    requires Sum(s.requests, InFlight(0)) + 1 <= k
    requires Achieves(With(s, Checked(PaymentPlan(amount))), es, u, k, spent)
    ensures Achieves(s, Checks(|s.requests|, amount) + es + Writes(|s.requests|, amount), t, k, spent + amount)
  {
    hide Step, After, AtMost, Checks, Writes;
    var r := |s.requests|;
    var s1 := With(s, Checked(PaymentPlan(amount)));
    t := Finished(u, r, amount);
    ChecksRun(s, amount, k);
    SumAppend(s.requests, Checked(PaymentPlan(amount)), InFlight(0));
    assert u.requests[r] == s1.requests[r];
    WritesRun(u, r, amount, k);
    FinishedScene(u, r, amount);
    hide Scene, Spent;
    Joined(s, Checks(r, amount), s1, es, u, k);
    Joined(s, Checks(r, amount) + es, u, Writes(r, amount), t, k);
  }

  lemma Joined(s: State, es: seq<Event>, t: State, fs: seq<Event>, u: State, k: nat)
    requires After(s, es) == Some(t) && AtMost(k, 0, s, es) && After(t, fs) == Some(u) && AtMost(k, 0, t, fs)
    ensures After(s, es + fs) == Some(u) && AtMost(k, 0, s, es + fs)
  {
    hide Step;
    AfterConcat(s, es, fs);
    AtMostConcat(k, 0, s, es, fs);
  }

  lemma {:induction false} Then(s: State, es: seq<Event>, t: State, fs: seq<Event>, u: State, k: nat,
                                first: int, second: int)
    requires Achieves(s, es, t, k, first) && Achieves(t, fs, u, k, second)
    ensures Achieves(s, es + fs, u, k, first + second)
  {
    AfterConcat(s, es, fs);
    AtMostConcat(k, 0, s, es, fs);
  }

  /** One payment from start to end with nothing in between. */
  lemma {:induction false} Alone(s: State, amount: int, k: nat) returns (es: seq<Event>, t: State)
    requires Scene(s) && 0 < amount <= PER_TRANSFER_LIMIT
    requires Spent(s, 0, 0) + amount <= DAILY_TRANSFER_LIMIT
    requires s.accounts[0].committed.balance >= amount
    requires Sum(s.requests, InFlight(0)) + 1 <= k
    ensures Achieves(s, es, t, k, amount)
  {
    var s1 := With(s, Checked(PaymentPlan(amount)));
    SumAppend(s.requests, Checked(PaymentPlan(amount)), InFlight(0));
    t := Around(s, amount, [], s1, k, 0);
    es := Checks(|s.requests|, amount) + [] + Writes(|s.requests|, amount);
  }

  /** j overlapping payments spend 25,000 + (j - 1) * 10,000 on one day. */
  lemma {:induction false} Attain(s: State, k: nat, j: nat) returns (es: seq<Event>, t: State)
    requires Scene(s) && 1 <= j && Spent(s, 0, 0) == 0
    requires s.accounts[0].committed.balance >= Bound(j)
    requires Sum(s.requests, InFlight(0)) + j <= k
    ensures Achieves(s, es, t, k, Bound(j))
    decreases j
  {
    if j == 1 {
      var e1, t1 := Alone(s, PER_TRANSFER_LIMIT, k);
      var e2, t2 := Alone(t1, PER_TRANSFER_LIMIT, k);
      var e3, t3 := Alone(t2, DAILY_TRANSFER_LIMIT - 2 * PER_TRANSFER_LIMIT, k);
      Then(s, e1, t1, e2, t2, k, PER_TRANSFER_LIMIT, PER_TRANSFER_LIMIT);
      Then(s, e1 + e2, t2, e3, t3, k, 2 * PER_TRANSFER_LIMIT, DAILY_TRANSFER_LIMIT - 2 * PER_TRANSFER_LIMIT);
      es, t := e1 + e2 + e3, t3;
    } else {
      var held := Checked(PaymentPlan(PER_TRANSFER_LIMIT));
      SumAppend(s.requests, held, InFlight(0));
      var e, u := Attain(With(s, held), k, j - 1);
      t := Around(s, PER_TRANSFER_LIMIT, e, u, k, Bound(j - 1));
      es := Checks(|s.requests|, PER_TRANSFER_LIMIT) + e + Writes(|s.requests|, PER_TRANSFER_LIMIT);
    }
  }

  /** For every k there is a run, never more than k in flight, that spends the whole bound in one day. */
  lemma {:induction false} BoundIsReached(k: nat) returns (s: State, es: seq<Event>)
    requires k >= 1
    ensures Initial(s) && After(s, es).Some? && AtMost(k, 0, s, es)
    ensures DayTotal(Committed(After(s, es).value).rows, 0, 0) == 25_000_00 + (k - 1) * 10_000_00
  {
    s := State([Clean(Account(0, "USD", Bound(k))), Clean(Account(1, "USD", 0))], [], [], [], 0);
    assert Heads(s.accounts) == [Account(0, "USD", Bound(k)), Account(1, "USD", 0)];
    var t;
    es, t := Attain(s, k, k);
    SpentIsDayTotal(Committed(t).rows, 0, 0);
  }

  /** In every run with at most k in flight, an account spends at most 25,000 a day. */
  ghost predicate StatedLimitHolds(k: nat) {
    forall s, es, a, day :: Initial(s) && After(s, es).Some? && AtMost(k, a, s, es)
      ==> DayTotal(Committed(After(s, es).value).rows, a, day) <= 25_000_00
  }

  /** The documented daily limit holds exactly when transfers of an account never overlap between their
      limit check and their commit. */
  lemma StatedLimitHoldsIffAlone(k: nat)
    ensures StatedLimitHolds(k) <==> k <= 1
  {
    if k <= 1 {
      forall s, es, a, day | Initial(s) && After(s, es).Some? && AtMost(k, a, s, es)
        ensures DayTotal(Committed(After(s, es).value).rows, a, day) <= 25_000_00
      {
        AtMostWeaken(k, 1, a, s, es);
        DailySpendingBounded(s, es, a, day, 1);
      }
    } else {
      var s, es := BoundIsReached(k);
      assert DayTotal(Committed(After(s, es).value).rows, 0, 0) > 25_000_00;
    }
  }
}
