/** From the request that comes in to the row that is committed for it, however its statements are interleaved with
    those of others. */
module Requests {
  import opened Sums
  import opened Fraud
  import opened Ledger
  import opened Transfers
  import opened Interleaving
  import opened Refinement
  import opened Runs

  datatype Ask = Ask(user: nat, dto: Dto, key: Option<string>)

  /** What is known of a request from events of its past: what was asked, where its beneficiary leads, and what the
      fraud engine answered, None for no answer. */
  datatype Known = Known(ask: Option<Ask>, receiver: Option<nat>, answer: Option<Option<Inquiry>>)

  // ---- What each phase keeps of it ----

  ghost predicate AskFollows(user: nat, dto: Dto, key: Option<string>, k: Known) {
    k.ask.Some? ==> k.ask.value == Ask(user, dto, key)
  }

  ghost predicate PlanFollows(plan: Plan, k: Known) {
    && (k.ask.Some? ==>
         var ask := k.ask.value;
         && plan.user == ask.user && plan.sender == ask.dto.sender && plan.amount == ask.dto.amount
         && plan.key == ask.key && FingerprintIs(plan.fingerprint, ask.user, ask.dto, ask.key))
    && (k.receiver.Some? ==> plan.receiver == k.receiver.value)
  }

  ghost predicate RiskFollows(risk: Risk, inquiry: Inquiry) {
    risk.score == ScoreOf(inquiry) && LevelOf(risk.level, risk.score)
  }

  ghost predicate VerdictFollows(verdict: Verdict, k: Known) {
    k.answer.Some? ==>
      match k.answer.value
      case None => verdict.Unavailable?
      case Some(inquiry) => verdict.Scored? && RiskFollows(verdict.risk, inquiry)
  }

  /** Money is on its way only for a score below 60. */
  ghost predicate MoneyFollows(risk: Risk, k: Known) {
    k.answer.Some? ==> k.answer.value.Some? && RiskFollows(risk, k.answer.value.value) && risk.score < 60
  }

  /** The row, in terms of what was asked and answered. */
  ghost predicate RowFollows(row: Row, k: Known) {
    && row.reversedBy.None? && row.reversedAt.None?
    && (k.ask.Some? ==>
         var ask := k.ask.value;
         && row.amount == ask.dto.amount && row.sender == ask.dto.sender
         && row.key == ask.key && FingerprintIs(row.fingerprint, ask.user, ask.dto, ask.key))
    && (k.receiver.Some? ==> row.receiver == k.receiver.value)
    && (k.answer.Some? ==>
         match k.answer.value
         case None => row.status == REJECTED && row.risk.None?
         case Some(inquiry) =>
           && row.risk.Some? && RiskFollows(row.risk.value, inquiry)
           && row.status == if ScoreOf(inquiry) >= 60 then FLAGGED else COMPLETED)
  }

  ghost predicate Follows(p: Phase, k: Known) {
    match p
    case Received(user, dto, key) => AskFollows(user, dto, key, k) && k.receiver.None? && k.answer.None?
    case Unmatched(user, dto, key) => AskFollows(user, dto, key, k) && k.receiver.None? && k.answer.None?
    case SenderRead(user, dto, key, _) => AskFollows(user, dto, key, k) && k.receiver.None? && k.answer.None?
    case Validated(user, dto, key, receiver) =>
      AskFollows(user, dto, key, k) && (k.receiver.Some? ==> k.receiver.value == receiver) && k.answer.None?
    case Checked(plan) => PlanFollows(plan, k) && k.answer.None?
    case Opened(plan, verdict) => PlanFollows(plan, k) && VerdictFollows(verdict, k)
    case Debited(plan, risk) => PlanFollows(plan, k) && MoneyFollows(risk, k)
    case Paid(plan, risk) => PlanFollows(plan, k) && MoneyFollows(risk, k)
    case Inserted(plan, row) => (k.ask.Some? ==> plan.user == k.ask.value.user) && RowFollows(row, k)
    case Alerted(plan, row) => (k.ask.Some? ==> plan.user == k.ask.value.user) && RowFollows(row, k)
    case Done(_) => true
    case _ => false
  }

  // ---- Each step keeps it ----

  lemma OthersLeaveIt(s: State, e: Event, r: nat)
    requires Step(s, e).Some? && r < |s.requests| && RequestOf(e) != Some(r)
    ensures r < |Step(s, e).value.requests| && Step(s, e).value.requests[r] == s.requests[r]
  {
    hide Step;
    if RequestOf(e).None? { NewLeaves(s, e, r); }
    else if e.Lookup? || e.ReadSender? || e.ReadReceiver? { ReadLeaves(s, e, r); }
    else if e.CheckLimits? || e.Analyze? || e.ReadOriginal? || e.RaiseAlert? { CheckLeaves(s, e, r); }
    else if e.Debit? || e.Pay? || e.Insert? { WriteLeaves(s, e, r); }
    else { EndLeaves(s, e, r); }
  }

  lemma NewLeaves(s: State, e: Event, r: nat)
    requires Step(s, e).Some? && r < |s.requests| && RequestOf(e) != Some(r)
    requires RequestOf(e).None?
    ensures r < |Step(s, e).value.requests| && Step(s, e).value.requests[r] == s.requests[r]
  {
    hide NormalizeKey;
  }

  lemma ReadLeaves(s: State, e: Event, r: nat)
    requires Step(s, e).Some? && r < |s.requests| && RequestOf(e) != Some(r)
    requires e.Lookup? || e.ReadSender? || e.ReadReceiver?
    ensures r < |Step(s, e).value.requests| && Step(s, e).value.requests[r] == s.requests[r]
  {
    hide FindKey, ReplayOutcome;
  }

  lemma CheckLeaves(s: State, e: Event, r: nat)
    requires Step(s, e).Some? && r < |s.requests| && RequestOf(e) != Some(r)
    requires e.CheckLimits? || e.Analyze? || e.ReadOriginal? || e.RaiseAlert?
    ensures r < |Step(s, e).value.requests| && Step(s, e).value.requests[r] == s.requests[r]
  {
    hide LimitError, Assess;
  }

  lemma WriteLeaves(s: State, e: Event, r: nat)
    requires Step(s, e).Some? && r < |s.requests| && RequestOf(e) != Some(r)
    requires e.Debit? || e.Pay? || e.Insert?
    ensures r < |Step(s, e).value.requests| && Step(s, e).value.requests[r] == s.requests[r]
  {
    hide KeyHeld, KeyFree, Write;
  }

  lemma EndLeaves(s: State, e: Event, r: nat)
    requires Step(s, e).Some? && r < |s.requests| && RequestOf(e) != Some(r)
    requires e.Mark? || e.Commit? || e.Abort?
    ensures r < |Step(s, e).value.requests| && Step(s, e).value.requests[r] == s.requests[r]
  {
    hide Write, Settle, Restore;
  }

  lemma EarlyFollows(s: State, e: Event, k: Known)
    requires Step(s, e).Some? && RequestOf(e).Some? && e.r < |s.requests| && Follows(s.requests[e.r], k)
    requires e.Lookup? || e.ReadSender? || e.ReadReceiver? || e.CheckLimits?
    requires e.ReadReceiver? ==> k.receiver.None?
    ensures Follows(Step(s, e).value.requests[e.r], k)
  {
    hide LimitError, ReplayOutcome, FindKey;
  }

  lemma FlagInNumbers(risk: Risk, inquiry: Inquiry)
    requires RiskFollows(risk, inquiry)
    ensures Flags(risk.level) <==> ScoreOf(inquiry) >= 60
  {
  }

  lemma MoneyStepFollows(s: State, e: Event, k: Known)
    requires Step(s, e).Some? && RequestOf(e).Some? && e.r < |s.requests| && Follows(s.requests[e.r], k)
    requires e.Debit? || e.Pay?
    ensures Follows(Step(s, e).value.requests[e.r], k)
  {
    hide ScoreOf;
    var p := s.requests[e.r];
    if k.answer.Some? && p.Opened? && p.verdict.Scored? && k.answer.value.Some? {
      FlagInNumbers(p.verdict.risk, k.answer.value.value);
    }
  }

  lemma InsertFollows(s: State, e: Event, k: Known)
    requires Step(s, e).Some? && e.Insert? && e.r < |s.requests| && Follows(s.requests[e.r], k)
    ensures Follows(Step(s, e).value.requests[e.r], k)
  {
    hide ScoreOf, KeyHeld, KeyFree;
    var p := s.requests[e.r];
    if k.answer.Some? && p.Opened? && p.verdict.Scored? && k.answer.value.Some? {
      FlagInNumbers(p.verdict.risk, k.answer.value.value);
    }
  }

  lemma LateFollows(s: State, e: Event, k: Known)
    requires Step(s, e).Some? && RequestOf(e).Some? && e.r < |s.requests| && Follows(s.requests[e.r], k)
    requires e.ReadOriginal? || e.RaiseAlert? || e.Mark? || e.Commit? || e.Abort?
    ensures Follows(Step(s, e).value.requests[e.r], k)
  {
  }

  /** A request is answered by the engine once, and its beneficiary is looked up once. */
  lemma OnlyOnce(s: State, e: Event, k: Known)
    requires Step(s, e).Some? && RequestOf(e).Some? && e.r < |s.requests| && Follows(s.requests[e.r], k)
    ensures e.ReadReceiver? ==> k.receiver.None?
    ensures e.Analyze? ==> k.answer.None?
  {
  }

  lemma RequestsStay(s: State, e: Event)
    requires Step(s, e).Some?
    ensures |s.requests| <= |Step(s, e).value.requests|
    ensures RequestOf(e).Some? ==> e.r < |s.requests|
  {
  }

  lemma {:induction false} StepFollows(s: State, e: Event, r: nat, k: Known)
    requires Step(s, e).Some? && r < |s.requests| && Follows(s.requests[r], k)
    ensures r < |Step(s, e).value.requests| && Follows(Step(s, e).value.requests[r], k)
  {
    hide Step, Follows;
    RequestsStay(s, e);
    if RequestOf(e) != Some(r) {
      OthersLeaveIt(s, e, r);
    } else {
      OnlyOnce(s, e, k);
      if e.Debit? || e.Pay? { MoneyStepFollows(s, e, k); }
      else if e.Insert? { InsertFollows(s, e, k); }
      else if e.Analyze? { AnalyzeFollows(s, e, k); }
      else if e.ReadOriginal? || e.RaiseAlert? || e.Mark? || e.Commit? || e.Abort? { LateFollows(s, e, k); }
      else { EarlyFollows(s, e, k); }
    }
  }

  lemma AnalyzeFollows(s: State, e: Event, k: Known)
    requires Step(s, e).Some? && e.Analyze? && e.r < |s.requests| && Follows(s.requests[e.r], k) && k.answer.None?
    ensures Follows(Step(s, e).value.requests[e.r], k.(answer := Some(e.answer)))
    ensures Follows(Step(s, e).value.requests[e.r], k)
  {
    hide ScoreOf, Assess;
    if e.answer.Some? { AnswerInNumbers(e.answer.value); }
  }

  // ---- Over runs ----

  lemma {:induction false} Prefix(s: State, es: seq<Event>, i: nat)
    requires After(s, es).Some? && i < |es|
    ensures After(s, es[..i]).Some? && After(s, es[..i + 1]) == Step(After(s, es[..i]).value, es[i])
    ensures After(s, es[..i + 1]).Some?
    decreases |es|
  {
    hide Step;
    assert es[..i + 1][..i] == es[..i];
    if i < |es| - 1 {
      Prefix(s, es[..|es| - 1], i);
      assert es[..|es| - 1][..i] == es[..i] && es[..|es| - 1][..i + 1] == es[..i + 1];
    } else {
      assert es[..i + 1] == es;
    }
  }

  /** What is known of a request after i events still holds of it after j. */
  lemma {:induction false} FollowsOn(s: State, es: seq<Event>, i: nat, j: nat, r: nat, k: Known)
    requires After(s, es).Some? && i <= j <= |es|
    requires After(s, es[..i]).Some? && r < |After(s, es[..i]).value.requests|
    requires Follows(After(s, es[..i]).value.requests[r], k)
    ensures After(s, es[..j]).Some? && r < |After(s, es[..j]).value.requests|
    ensures Follows(After(s, es[..j]).value.requests[r], k)
    decreases j - i
  {
    hide Step, Follows;
    if i < j {
      Prefix(s, es, j - 1);
      FollowsOn(s, es, i, j - 1, r, k);
      StepFollows(After(s, es[..j - 1]).value, es[j - 1], r, k);
    }
  }

  lemma Asked(s: State, user: nat, dto: Dto, header: Option<string>)
    requires Step(s, Submit(user, dto, header)).Some?
    ensures var t := Step(s, Submit(user, dto, header)).value;
            && |t.requests| == |s.requests| + 1
            && Follows(t.requests[|s.requests|], Known(Some(Ask(user, dto, NormalizeKey(header))), None, None))
  {
  }

  lemma Led(s: State, r: nat, receiver: nat)
    requires Step(s, ReadReceiver(r, Some(receiver))).Some? && r < |s.requests|
    ensures var t := Step(s, ReadReceiver(r, Some(receiver))).value;
            r < |t.requests| && Follows(t.requests[r], Known(None, Some(receiver), None))
  {
  }

  lemma Answered(s: State, r: nat, answer: Option<Inquiry>)
    requires Step(s, Analyze(r, answer)).Some? && r < |s.requests|
    ensures var t := Step(s, Analyze(r, answer)).value;
            r < |t.requests| && Follows(t.requests[r], Known(None, None, Some(answer)))
  {
    var k := Known(None, None, None);
    assert Follows(s.requests[r], k);
    AnalyzeFollows(s, Analyze(r, answer), k);
  }

  /** A commit of a request's own row: what it does to the tables, and what the request is answered. */
  ghost predicate Records(s: State, t: State, r: nat, user: nat, row: Row) {
    && Posts(Committed(s), Committed(t), user, row)
    && r < |t.requests|
    && t.requests[r] == Done(if row.status == REJECTED then Failed(FraudServiceUnavailable) else Accepted(|s.rows|))
  }

  lemma {:induction false} CommitRecords(opening: seq<int>, s: State, r: nat, k: Known) returns (row: Row)
    requires Inv(opening, s) && Step(s, Commit(r)).Some? && r < |s.requests| && Follows(s.requests[r], k)
    ensures Ready(s.requests[r]).Some?
    ensures Records(s, Step(s, Commit(r)).value, r, Ready(s.requests[r]).value.user, row) && RowFollows(row, k)
    ensures k.ask.Some? ==> Ready(s.requests[r]).value.user == k.ask.value.user
  {
    hide Step, Inv, Apply, Enabled, RowFollows, Ready, Follows, Committed, PhaseOk;
    RequestOk(opening, s, r);
    RequestsStay(s, Commit(r));
    CommitReply(s, r, k);
    StepRefines(opening, s, Commit(r));
    row := Ready(s.requests[r]).value.row;
    RecordPosts(Committed(s), Ready(s.requests[r]).value.user, row);
  }

  lemma RequestOk(opening: seq<int>, s: State, r: nat)
    requires Inv(opening, s) && r < |s.requests|
    ensures PhaseOk(Committed(s), s.clock, s.requests[r])
  {
  }

  lemma CommitReply(s: State, r: nat, k: Known)
    requires Step(s, Commit(r)).Some? && r < |s.requests| && Follows(s.requests[r], k)
    requires PhaseOk(Committed(s), s.clock, s.requests[r])
    ensures Ready(s.requests[r]).Some? && Ready(s.requests[r]).value.Record?
    ensures var row := Ready(s.requests[r]).value.row;
            && RowFollows(row, k) && (k.ask.Some? ==> Ready(s.requests[r]).value.user == k.ask.value.user)
            && Step(s, Commit(r)).value.requests[r]
               == Done(if row.status == REJECTED then Failed(FraudServiceUnavailable)
                       else Accepted(|s.rows|))
    ensures OpOf(s, Commit(r)) == Ready(s.requests[r])
  {
    hide RowFollows;
  }

  /** In every run, whatever the others do: when a request commits, its row is of the amount, sender, receiver, key and
      payload that were asked for, and is COMPLETED, FLAGGED or REJECTED as the engine's answer to it scores below
      60, from 60 on, or was not given. Exactly the money of a COMPLETED row moves, a FLAGGED one raises its alert,
      and the request is told of it. */
  lemma {:induction false} CommitFollowsRequest(s: State, es: seq<Event>, h: nat, m: nat, i: nat, j: nat, ask: Ask,
                                                header: Option<string>, receiver: nat, answer: Option<Inquiry>)
    returns (row: Row)
    requires Initial(s) && After(s, es).Some? && h < m < i < j < |es|
    requires After(s, es[..h]).Some? && ask.key == NormalizeKey(header)
    requires var r := |After(s, es[..h]).value.requests|;
             && es[h] == Submit(ask.user, ask.dto, header) && es[m] == ReadReceiver(r, Some(receiver))
             && es[i] == Analyze(r, answer) && es[j] == Commit(r)
    ensures After(s, es[..j]).Some? && After(s, es[..j + 1]).Some?
    ensures var before, after := After(s, es[..j]).value, After(s, es[..j + 1]).value;
            && Records(before, after, |After(s, es[..h]).value.requests|, ask.user, row)
            && row.amount == ask.dto.amount && row.sender == ask.dto.sender && row.receiver == receiver
            && row.key == ask.key && FingerprintIs(row.fingerprint, ask.user, ask.dto, ask.key)
            && (answer.None? ==> row.status == REJECTED && row.risk.None?)
            && (answer.Some? ==>
                 && row.status == (if ScoreOf(answer.value) >= 60 then FLAGGED else COMPLETED)
                 && row.risk.Some? && row.risk.value.score == ScoreOf(answer.value)
                 && LevelOf(row.risk.value.level, ScoreOf(answer.value)))
  {
    hide Step, Follows, Records, ScoreOf, LevelOf, Inv;
    var r := |After(s, es[..h]).value.requests|;
    Prefix(s, es, h);
    Prefix(s, es, m);
    Prefix(s, es, i);
    Prefix(s, es, j);
    Asked(After(s, es[..h]).value, ask.user, ask.dto, header);
    var all := Known(Some(ask), None, None);
    FollowsOn(s, es, h + 1, m, r, all);
    Led(After(s, es[..m]).value, r, receiver);
    FollowsOn(s, es, h + 1, i, r, all);
    Answered(After(s, es[..i]).value, r, answer);
    FollowsOn(s, es, h + 1, j, r, all);
    FollowsOn(s, es, m + 1, j, r, Known(None, Some(receiver), None));
    FollowsOn(s, es, i + 1, j, r, Known(None, None, Some(answer)));
    RunInv(s, es[..j]);
    var before := After(s, es[..j]).value;
    row := CommitRecords(Balances(Committed(s)), before, r, all);
    var row1 := CommitRecords(Balances(Committed(s)), before, r, Known(None, Some(receiver), None));
    var row2 := CommitRecords(Balances(Committed(s)), before, r, Known(None, None, Some(answer)));
    OneRow(before, Step(before, Commit(r)).value, r, ask.user, row, row1);
    OneRow(before, Step(before, Commit(r)).value, r, ask.user, row, row2);
  }

  lemma OneRow(s: State, t: State, r: nat, user: nat, row: Row, row': Row)
    requires Records(s, t, r, user, row) && Records(s, t, r, user, row')
    ensures row == row'
  {
    assert Committed(t).rows[|Committed(s).rows|] == row == row';
  }

  lemma RunInv(s: State, es: seq<Event>)
    requires Initial(s) && After(s, es).Some?
    ensures Inv(Balances(Committed(s)), After(s, es).value)
  {
    InitialInv(s);
    RunRefinesFrom(Balances(Committed(s)), s, es);
  }

  // ---- Reversals ----

  ghost predicate Undoes(p: Phase, user: nat, tx: nat) {
    match p
    case ReversalReceived(u, x) => u == user && x == tx
    case ReversalOpened(undo) => undo.user == user && undo.tx == tx
    case ReversalDebited(undo) => undo.user == user && undo.tx == tx
    case ReversalPaid(undo) => undo.user == user && undo.tx == tx
    case ReversalMarked(undo, _) => undo.user == user && undo.tx == tx
    case Done(_) => true
    case _ => false
  }

  lemma StepUndoes(s: State, e: Event, r: nat, user: nat, tx: nat)
    requires Step(s, e).Some? && r < |s.requests| && Undoes(s.requests[r], user, tx)
    ensures r < |Step(s, e).value.requests| && Undoes(Step(s, e).value.requests[r], user, tx)
  {
    if RequestOf(e) != Some(r) { OthersLeaveIt(s, e, r); } else { OwnUndoes(s, e, user, tx); }
  }

  lemma OwnUndoes(s: State, e: Event, user: nat, tx: nat)
    requires Step(s, e).Some? && RequestOf(e).Some? && e.r < |s.requests| && Undoes(s.requests[e.r], user, tx)
    ensures e.r < |Step(s, e).value.requests| && Undoes(Step(s, e).value.requests[e.r], user, tx)
  {
    hide KeyHeld, FindKey, LimitError, Assess, KeyFree;
  }

  lemma {:induction false} UndoesOn(s: State, es: seq<Event>, i: nat, j: nat, r: nat, user: nat, tx: nat)
    requires After(s, es).Some? && i <= j <= |es|
    requires After(s, es[..i]).Some? && r < |After(s, es[..i]).value.requests|
    requires Undoes(After(s, es[..i]).value.requests[r], user, tx)
    ensures After(s, es[..j]).Some? && r < |After(s, es[..j]).value.requests|
    ensures Undoes(After(s, es[..j]).value.requests[r], user, tx)
    decreases j - i
  {
    hide Step, Undoes;
    if i < j {
      Prefix(s, es, j - 1);
      UndoesOn(s, es, i, j - 1, r, user, tx);
      StepUndoes(After(s, es[..j - 1]).value, es[j - 1], r, user, tx);
    }
  }

  lemma ReversalReply(s: State, r: nat, user: nat, tx: nat)
    requires Step(s, Commit(r)).Some? && r < |s.requests| && Undoes(s.requests[r], user, tx)
    ensures s.requests[r].ReversalMarked? && Ready(s.requests[r]) == Some(Reverse(user, tx, s.requests[r].at))
    ensures Step(s, Commit(r)).value.requests[r] == Done(Accepted(tx))
  {
  }

  /** In every run a committed reversal is of the transfer asked for, by the user who owns its sender's account. The
      transfer was COMPLETED and its amount covered until then; now it is REVERSED in that user's name, exactly its
      amount has gone back, and nothing else has changed. */
  lemma {:induction false} CommitFollowsReversal(s: State, es: seq<Event>, h: nat, j: nat, user: nat, tx: nat)
    requires Initial(s) && After(s, es).Some? && h < j < |es|
    requires After(s, es[..h]).Some? && es[h] == SubmitReversal(user, tx)
    requires es[j] == Commit(|After(s, es[..h]).value.requests|)
    ensures After(s, es[..j]).Some? && After(s, es[..j + 1]).Some?
    ensures var r, t := |After(s, es[..h]).value.requests|, After(s, es[..j + 1]).value;
            var b, c := Committed(After(s, es[..j]).value), Committed(t);
            && (exists at :: Reverts(b, c, user, tx, at))
            && r < |t.requests| && t.requests[r] == Done(Accepted(tx))
  {
    hide Step, Undoes, Inv, Apply, Enabled;
    var r := |After(s, es[..h]).value.requests|;
    Prefix(s, es, h);
    Prefix(s, es, j);
    Begun(After(s, es[..h]).value, user, tx);
    UndoesOn(s, es, h + 1, j, r, user, tx);
    RunInv(s, es[..j]);
    var before := After(s, es[..j]).value;
    RequestsStay(before, es[j]);
    ReversalReply(before, r, user, tx);
    StepRefines(Balances(Committed(s)), before, es[j]);
    ReverseReverts(Committed(before), user, tx, Ready(before.requests[r]).value.at);
  }

  lemma Begun(s: State, user: nat, tx: nat)
    ensures var e := SubmitReversal(user, tx);
            && Step(s, e).Some? && |Step(s, e).value.requests| == |s.requests| + 1
            && Undoes(Step(s, e).value.requests[|s.requests|], user, tx)
  {
  }

  // ---- Why a request is refused ----

  /** The sender's account is refused exactly when there is none with that id that the user owns. */
  lemma SenderRefusedIff(s: State, r: nat)
    requires r < |s.requests| && s.requests[r].Unmatched?
    ensures Step(s, ReadSender(r)).Some?
    ensures var p, q := s.requests[r], Step(s, ReadSender(r)).value.requests[r];
            var owned := p.dto.sender < |s.accounts| && Committed(s).accounts[p.dto.sender].owner == p.user;
            && (q == Done(Failed(SenderNotFound)) <==> !owned)
            && (owned ==> q == SenderRead(p.user, p.dto, p.key, Committed(s).accounts[p.dto.sender]))
  {
  }

  /** The receiver's checks, in their order, each in terms of the accounts as they were read. */
  lemma ReceiverRefusedIff(s: State, r: nat, found: Option<nat>)
    requires r < |s.requests| && s.requests[r].SenderRead?
    ensures Step(s, ReadReceiver(r, found)).Some?
    ensures var p, q := s.requests[r], Step(s, ReadReceiver(r, found)).value.requests[r];
            var present := found.Some? && found.value < |s.accounts|;
            var other := present && found.value != p.dto.sender;
            var same := other && Committed(s).accounts[found.value].currency == p.account.currency;
            && (q == Done(Failed(BeneficiaryNotFound)) <==> found.None?)
            && (q == Done(Failed(ReceiverNotFound)) <==> found.Some? && !present)
            && (q == Done(Failed(SameAccount)) <==> present && !other)
            && (q == Done(Failed(CurrencyMismatch)) <==> other && !same)
            && (q == Done(Failed(InsufficientBalance)) <==> same && p.account.balance < p.dto.amount)
            && (same && p.account.balance >= p.dto.amount ==> q == Validated(p.user, p.dto, p.key, found.value))
  {
  }

  /** The checks before a reversal, in their order. */
  lemma ReversalRefusedIff(s: State, r: nat)
    requires r < |s.requests| && s.requests[r].ReversalReceived?
    requires RowsLegal(Committed(s))
    ensures Step(s, ReadOriginal(r)).Some?
    ensures var b, p, q := Committed(s), s.requests[r], Step(s, ReadOriginal(r)).value.requests[r];
            var owned := p.tx < |b.rows| && b.accounts[b.rows[p.tx].sender].owner == p.user;
            && (q == Done(Failed(TransactionNotFound)) <==> !owned)
            && (q == Done(Failed(AlreadyReversed)) <==> owned && b.rows[p.tx].status == REVERSED)
            && (q == Done(Failed(NotCompleted)) <==>
                 owned && b.rows[p.tx].status != REVERSED && b.rows[p.tx].status != COMPLETED)
            && (q == Done(Failed(InsufficientBalance)) <==>
                 owned && b.rows[p.tx].status == COMPLETED
                 && b.accounts[b.rows[p.tx].receiver].balance < b.rows[p.tx].amount)
            && (q.ReversalOpened? <==>
                 owned && b.rows[p.tx].status == COMPLETED
                 && b.accounts[b.rows[p.tx].receiver].balance >= b.rows[p.tx].amount)
  {
    assert s.requests[r].tx < |s.rows| ==> Legal(Committed(s).accounts, Committed(s).rows[s.requests[r].tx]);
  }

  /** The account a request is about to debit, and by how much. */
  ghost predicate Debits(p: Phase, a: nat, amount: int) {
    || (p.Opened? && p.verdict.Scored? && !Flags(p.verdict.risk.level) && p.plan.sender == a && p.plan.amount == amount)
    || (p.ReversalOpened? && p.undo.receiver == a && p.undo.amount == amount)
  }

  /** A debit waits while another transaction holds the account, and fails exactly when the balance it then finds is
      below the amount. */
  lemma DebitFailsIff(s: State, r: nat, a: nat, amount: int)
    requires r < |s.requests| && a < |s.accounts| && Debits(s.requests[r], a, amount)
    ensures Step(s, Debit(r)).Some? <==> s.accounts[a].owner.None? || s.accounts[a].owner == Some(r)
    ensures Step(s, Debit(r)).Some? ==>
              (Step(s, Debit(r)).value.requests[r] == Done(Failed(InsufficientBalance))
               <==> s.accounts[a].current.balance < amount)
  {
  }

  /** An insert fails exactly when a committed row has the key. */
  lemma InsertFailsIff(s: State, r: nat, at: int)
    requires r < |s.requests| && (s.requests[r].Paid? || s.requests[r].Opened?) && Step(s, Insert(r, at)).Some?
    ensures Step(s, Insert(r, at)).value.requests[r] == Done(Failed(DuplicateKey))
       <==> s.requests[r].plan.key.Some?
            && exists x :: 0 <= x < |s.rows| && Committed(s).rows[x].key == s.requests[r].plan.key
  {
  }

  /** A status change fails exactly when the row it finds, unlocked, is not COMPLETED. */
  lemma MarkFailsIff(s: State, r: nat)
    requires r < |s.requests| && s.requests[r].ReversalPaid? && Step(s, Mark(r)).Some?
    ensures s.requests[r].undo.tx < |s.rows|
    ensures Step(s, Mark(r)).value.requests[r] == Done(Failed(ReversalConflict))
       <==> s.rows[s.requests[r].undo.tx].current.status != COMPLETED
  {
  }
}
