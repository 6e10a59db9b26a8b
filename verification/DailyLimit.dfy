/** The daily transfer limit under concurrency. The limit is read before the database transaction, so the
    bound that really holds depends on how many transfers of an account are between check and commit. */
module DailyLimit {
  import opened Sums
  import opened Ledger
  import opened Transfers
  import opened Interleaving
  import opened Refinement
  import opened Runs

  function PlanOf(p: Phase): Option<Plan> {
    match p
    case Checked(plan) => Some(plan)
    case Opened(plan, _) => Some(plan)
    case Debited(plan, _) => Some(plan)
    case Paid(plan, _) => Some(plan)
    case Inserted(plan, _) => Some(plan)
    case Alerted(plan, _) => Some(plan)
    case _ => None
  }

  /** 1 for a transfer from account a that has passed the limit check and not ended. */
  function InFlight(a: nat): Phase -> int {
    (p: Phase) => if PlanOf(p).Some? && PlanOf(p).value.sender == a then 1 else 0
  }

  /** What such a transfer may still add to a day: its amount, unless it was checked on a later day. */
  function Exposure(a: nat, day: int): Phase -> int {
    (p: Phase) =>
      if PlanOf(p).Some? && PlanOf(p).value.sender == a && Day(PlanOf(p).value.checkedAt) <= day
      then PlanOf(p).value.amount else 0
  }

  ghost function Spent(s: State, a: nat, day: int): int { Sum(Heads(s.rows), SpentOn(a, day)) }

  function Bound(k: nat): int { DAILY_TRANSFER_LIMIT + (k - 1) * PER_TRANSFER_LIMIT }

  /** Never more than k transfers of a in flight at once. */
  ghost predicate AtMost(k: nat, a: nat, s: State, es: seq<Event>)
    requires After(s, es).Some?
  {
    && Sum(After(s, es).value.requests, InFlight(a)) <= k
    && (es == [] || AtMost(k, a, s, es[..|es| - 1]))
  }

  ghost predicate LimitInv(s: State, a: nat, day: int, k: nat) {
    Spent(s, a, day) + Sum(s.requests, Exposure(a, day)) <= Bound(k)
  }

  lemma ExposureBounded(opening: seq<int>, s: State, a: nat, day: int)
    requires Inv(opening, s)
    ensures 0 <= Sum(s.requests, Exposure(a, day)) <= PER_TRANSFER_LIMIT * Sum(s.requests, InFlight(a))
  {
    forall r | 0 <= r < |s.requests|
      ensures 0 <= Exposure(a, day)(s.requests[r]) <= PER_TRANSFER_LIMIT * InFlight(a)(s.requests[r])
    {
      assert PhaseOk(Committed(s), s.clock, s.requests[r]);
    }
    SumNonNegative(s.requests, Exposure(a, day));
    SumAtMost(s.requests, Exposure(a, day), InFlight(a), PER_TRANSFER_LIMIT);
  }

  lemma NothingSpentYet(opening: seq<int>, s: State, a: nat, day: int)
    requires Inv(opening, s) && day > Day(s.clock)
    ensures Spent(s, a, day) <= 0
  {
    var none := (r: Row) => 0;
    forall x | 0 <= x < |s.rows| ensures SpentOn(a, day)(Heads(s.rows)[x]) <= none(Heads(s.rows)[x]) {
      SameDay(s.rows[x].committed.createdAt, s.clock);
    }
    SumLe(Heads(s.rows), Heads(s.rows), SpentOn(a, day), none);
    SumAtMost(Heads(s.rows), none, none, 0);
  }

  /** The check itself: the case the whole bound rests on. */
  lemma {:induction false} CheckKeepsLimit(opening: seq<int>, s: State, r: nat, a: nat, day: int, k: nat)
    requires Inv(opening, s) && k >= 1 && LimitInv(s, a, day, k)
    requires Step(s, CheckLimits(r)).Some?
    requires Sum(Step(s, CheckLimits(r)).value.requests, InFlight(a)) <= k
    ensures LimitInv(Step(s, CheckLimits(r)).value, a, day, k)
  {
    CheckStep(s, r);
    hide Step;
    var s' := Step(s, CheckLimits(r)).value;
    var q := s'.requests[r];
    StepRefines(opening, s, CheckLimits(r));
    hide Inv, Sound;
    SumUpdate(s.requests, r, q, Exposure(a, day));
    SumUpdate(s.requests, r, q, InFlight(a));
    if q.Checked? && q.plan.sender == a && Day(s.clock) <= day {
      ExposureBounded(opening, s, a, day);
      ExposureBounded(opening, s', a, day);
      if day == Day(s.clock) { SpentToday(opening, s, a); } else { NothingSpentYet(opening, s, a, day); }
    }
  }

  /** What passing or failing the check does to the state. */
  lemma CheckStep(s: State, r: nat)
    requires Step(s, CheckLimits(r)).Some?
    ensures r < |s.requests| && s.requests[r].Validated?
    ensures var q := Step(s, CheckLimits(r)).value.requests[r];
            && Step(s, CheckLimits(r)).value == Goto(s, r, q) && (q.Done? || q.Checked?)
            && (q.Checked? ==>
                 && q.plan.sender == s.requests[r].dto.sender && q.plan.checkedAt == s.clock
                 && LimitError(Committed(s).rows, q.plan.sender, q.plan.amount, s.clock).None?)
  {
    hide LimitError;
  }

  lemma SpentToday(opening: seq<int>, s: State, a: nat)
    requires Inv(opening, s)
    ensures Sum(Heads(s.rows), SpentSince(a, StartOfDay(s.clock))) == Spent(s, a, Day(s.clock))
  {
    forall x | 0 <= x < |s.rows| ensures Heads(s.rows)[x].createdAt <= s.clock {
      assert s.rows[x].committed.createdAt <= s.clock;
    }
    SpentTodayIsSpentSince(Heads(s.rows), a, s.clock);
  }

  /** What a commit does to the tables the limit reads. */
  lemma CommitTables(opening: seq<int>, s: State, r: nat)
    requires Inv(opening, s) && Step(s, Commit(r)).Some?
    ensures r < |s.requests| && Ready(s.requests[r]).Some? && Enabled(Committed(s), Ready(s.requests[r]).value)
    ensures Heads(Step(s, Commit(r)).value.rows) == Apply(Committed(s), Ready(s.requests[r]).value).rows
    ensures exists q: Phase :: q.Done? && Step(s, Commit(r)).value.requests == s.requests[r := q]
  {
    hide Sound;
    StepRefines(opening, s, Commit(r));
    CommitFrame(s, r);
    var q := Step(s, Commit(r)).value.requests[r];
    assert Step(s, Commit(r)).value.requests == s.requests[r := q];
  }

  lemma RowWithinExposure(opening: seq<int>, s: State, r: nat, a: nat, day: int)
    requires Inv(opening, s) && r < |s.requests| && Ready(s.requests[r]).Some? && Ready(s.requests[r]).value.Record?
    ensures SpentOn(a, day)(Ready(s.requests[r]).value.row) <= Exposure(a, day)(s.requests[r])
  {
    var p := s.requests[r];
    assert PhaseOk(Committed(s), s.clock, p);
    SameDay(PlanOf(p).value.checkedAt, Ready(p).value.row.createdAt);
  }

  /** A committed row spends at most what its request was exposed to; a reversal only lowers the sum. */
  lemma SpentByCommit(opening: seq<int>, s: State, r: nat, a: nat, day: int)
    requires Inv(opening, s) && r < |s.requests| && Ready(s.requests[r]).Some?
    requires Enabled(Committed(s), Ready(s.requests[r]).value)
    ensures Sum(Apply(Committed(s), Ready(s.requests[r]).value).rows, SpentOn(a, day))
         <= Sum(Committed(s).rows, SpentOn(a, day)) + Exposure(a, day)(s.requests[r])
  {
    var rows := Committed(s).rows;
    match Ready(s.requests[r]).value
    case Record(user, row) =>
      RowWithinExposure(opening, s, r, a, day);
      SumAppend(rows, row, SpentOn(a, day));
    case Reverse(user, tx, at) =>
      SumUpdate(rows, tx, Reversed(rows[tx], user, at), SpentOn(a, day));
      assert Legal(Committed(s).accounts, rows[tx]);
  }

  lemma CommitSpends(opening: seq<int>, s: State, r: nat, a: nat, day: int)
    requires Inv(opening, s) && Step(s, Commit(r)).Some?
    ensures r < |s.requests|
    ensures exists q: Phase :: q.Done? && Step(s, Commit(r)).value.requests == s.requests[r := q]
    ensures Spent(Step(s, Commit(r)).value, a, day) <= Spent(s, a, day) + Exposure(a, day)(s.requests[r])
  {
    hide Inv, Step;
    CommitTables(opening, s, r);
    hide Apply, Enabled;
    SpentByCommit(opening, s, r, a, day);
  }

  lemma {:induction false} CommitKeepsLimit(opening: seq<int>, s: State, r: nat, a: nat, day: int, k: nat)
    requires Inv(opening, s) && LimitInv(s, a, day, k) && Step(s, Commit(r)).Some?
    ensures LimitInv(Step(s, Commit(r)).value, a, day, k)
  {
    hide Inv, Step;
    CommitSpends(opening, s, r, a, day);
    var q: Phase :| q.Done? && Step(s, Commit(r)).value.requests == s.requests[r := q];
    SumUpdate(s.requests, r, q, Exposure(a, day));
  }

  /** Every other step of a request keeps its plan or ends it. */
  lemma PlanCarried(s: State, e: Event)
    requires Step(s, e).Some? && RequestOf(e).Some? && !e.CheckLimits?
    ensures var s' := Step(s, e).value;
            && e.r < |s.requests| == |s'.requests|
            && s'.requests == s.requests[e.r := s'.requests[e.r]]
            && (PlanOf(s'.requests[e.r]) == PlanOf(s.requests[e.r]) || s'.requests[e.r].Done?)
  {
  }

  lemma OtherStepsKeepLimit(opening: seq<int>, s: State, e: Event, a: nat, day: int, k: nat)
    requires Inv(opening, s) && LimitInv(s, a, day, k) && Step(s, e).Some?
    requires RequestOf(e).Some? && !e.CheckLimits? && !e.Commit?
    ensures LimitInv(Step(s, e).value, a, day, k)
  {
    hide Step;
    hide Sound;
    PlanCarried(s, e);
    var q := Step(s, e).value.requests[e.r];
    assert Committed(Step(s, e).value) == Committed(s) by { StepRefines(opening, s, e); }
    assert PhaseOk(Committed(s), s.clock, s.requests[e.r]);
    SumUpdate(s.requests, e.r, q, Exposure(a, day));
  }

  lemma OutsideKeepsLimit(opening: seq<int>, s: State, e: Event, a: nat, day: int, k: nat)
    requires Inv(opening, s) && LimitInv(s, a, day, k) && Step(s, e).Some? && RequestOf(e).None?
    ensures LimitInv(Step(s, e).value, a, day, k)
  {
    hide Sound;
    match e
    case Submit(user, dto, header) =>
      SumAppend(s.requests, Received(user, dto, NormalizeKey(header)), Exposure(a, day));
    case SubmitReversal(user, tx) => SumAppend(s.requests, ReversalReceived(user, tx), Exposure(a, day));
    case NewAccount(_, _) =>
    case Tick(_) =>
  }

  lemma StepKeepsLimit(opening: seq<int>, s: State, e: Event, a: nat, day: int, k: nat)
    requires Inv(opening, s) && k >= 1 && LimitInv(s, a, day, k) && Step(s, e).Some?
    requires Sum(Step(s, e).value.requests, InFlight(a)) <= k
    ensures LimitInv(Step(s, e).value, a, day, k)
  {
    hide Sound;
    match e
    case CheckLimits(r) => CheckKeepsLimit(opening, s, r, a, day, k);
    case Commit(r) => CommitKeepsLimit(opening, s, r, a, day, k);
    case _ =>
      if RequestOf(e).Some? { OtherStepsKeepLimit(opening, s, e, a, day, k); }
      else { OutsideKeepsLimit(opening, s, e, a, day, k); }
  }

  lemma {:induction false} RunKeepsLimit(s: State, es: seq<Event>, a: nat, day: int, k: nat)
    requires Initial(s) && After(s, es).Some? && k >= 1 && AtMost(k, a, s, es)
    ensures LimitInv(After(s, es).value, a, day, k)
  {
    InitialInv(s);
    if es != [] {
      var n := |es| - 1;
      RunKeepsLimit(s, es[..n], a, day, k);
      RunRefinesFrom(Balances(Committed(s)), s, es[..n]);
      StepKeepsLimit(Balances(Committed(s)), After(s, es[..n]).value, es[n], a, day, k);
    }
  }

  /** The COMPLETED and FLAGGED amounts an account sent on a day, days being 86,400,000 milliseconds. */
  ghost function DayTotal(rows: seq<Row>, a: nat, day: int): int {
    if rows == [] then 0
    else
      var row := rows[|rows| - 1];
      DayTotal(rows[..|rows| - 1], a, day)
      + if row.sender == a && (row.status == COMPLETED || row.status == FLAGGED) && row.createdAt / 86_400_000 == day
        then row.amount else 0
  }

  lemma {:induction false} SpentIsDayTotal(rows: seq<Row>, a: nat, day: int)
    ensures Sum(rows, SpentOn(a, day)) == DayTotal(rows, a, day)
  {
    if rows != [] { SpentIsDayTotal(rows[..|rows| - 1], a, day); }
  }

  /** In every run a transfer is refused at the limit check exactly when its amount is over 10,000.00, or the day's
      total with it would be over 25,000.00. */
  lemma {:induction false} LimitCheckRefusesIff(s: State, es: seq<Event>, r: nat)
    requires Initial(s) && After(s, es).Some?
    requires r < |After(s, es).value.requests| && After(s, es).value.requests[r].Validated?
    ensures var t := After(s, es).value; var p := t.requests[r];
            var total := DayTotal(Committed(t).rows, p.dto.sender, t.clock / 86_400_000);
            && Step(t, CheckLimits(r)).Some?
            && var q := Step(t, CheckLimits(r)).value.requests[r];
               && (q == Done(Failed(OverTransferLimit)) <==> p.dto.amount > 10_000_00)
               && (q == Done(Failed(OverDailyLimit)) <==>
                    p.dto.amount <= 10_000_00 && total + p.dto.amount > 25_000_00)
               && (q.Checked? <==> p.dto.amount <= 10_000_00 && total + p.dto.amount <= 25_000_00)
  {
    hide Step, Inv;
    InitialInv(s);
    RunRefinesFrom(Balances(Committed(s)), s, es);
    CheckRefusesIff(Balances(Committed(s)), After(s, es).value, r);
  }

  lemma CheckRefusesIff(opening: seq<int>, s: State, r: nat)
    requires Inv(opening, s) && r < |s.requests| && s.requests[r].Validated?
    ensures Step(s, CheckLimits(r)).Some?
    ensures var p, q := s.requests[r], Step(s, CheckLimits(r)).value.requests[r];
            var total := DayTotal(Committed(s).rows, p.dto.sender, s.clock / 86_400_000);
            && (q == Done(Failed(OverTransferLimit)) <==> p.dto.amount > 10_000_00)
            && (q == Done(Failed(OverDailyLimit)) <==> p.dto.amount <= 10_000_00 && total + p.dto.amount > 25_000_00)
            && (q.Checked? <==> p.dto.amount <= 10_000_00 && total + p.dto.amount <= 25_000_00)
  {
    hide Step, LimitError, Sound, AccountCellOk, RowCellOk, LocksOk;
    var p := s.requests[r];
    assert PhaseOk(Committed(s), s.clock, p);
    SpentToday(opening, s, p.dto.sender);
    SpentSinceIsSentFrom(Committed(s).rows, p.dto.sender, StartOfDay(s.clock));
    SpentIsDayTotal(Committed(s).rows, p.dto.sender, Day(s.clock));
    LimitRefusedIff(Committed(s).rows, p.dto.sender, p.dto.amount, s.clock);
    CheckAnswers(s, r);
  }

  lemma CheckAnswers(s: State, r: nat)
    requires r < |s.requests| && s.requests[r].Validated? && s.requests[r].dto.sender < |s.accounts|
    ensures Step(s, CheckLimits(r)).Some?
    ensures var p, q := s.requests[r], Step(s, CheckLimits(r)).value.requests[r];
            match LimitError(Committed(s).rows, p.dto.sender, p.dto.amount, s.clock)
            case Some(error) => q == Done(Failed(error))
            case None => q.Checked?
  {
    hide LimitError;
  }

  /** With at most k transfers of an account between check and commit, its COMPLETED and FLAGGED amounts
      created on any one day never exceed 25,000 + (k - 1) * 10,000, midnight straddlers included;
      one at a time gives exactly the stated limit. */
  lemma {:induction false} DailySpendingBounded(s: State, es: seq<Event>, a: nat, day: int, k: nat)
    requires Initial(s) && After(s, es).Some? && k >= 1 && AtMost(k, a, s, es)
    ensures DayTotal(Committed(After(s, es).value).rows, a, day) <= 25_000_00 + (k - 1) * 10_000_00
  {
    SpentIsDayTotal(Committed(After(s, es).value).rows, a, day);
    RunKeepsLimit(s, es, a, day, k);
    InitialInv(s);
    RunRefinesFrom(Balances(Committed(s)), s, es);
    ExposureBounded(Balances(Committed(s)), After(s, es).value, a, day);
  }
}
