/** Whole runs of the interleaved machine: the refinement theorem and what it gives. */
module Runs {
  import opened Sums
  import opened Ledger
  import opened Transfers
  import opened Interleaving
  import opened Refinement

  /** The state after a sequence of events, if each of them can happen in turn. */
  ghost function After(s: State, es: seq<Event>): Option<State> {
    if es == [] then Some(s)
    else
      var before := After(s, es[..|es| - 1]);
      if before.None? then None else Step(before.value, es[|es| - 1])
  }

  /** The ledger operation an event commits, if any. */
  function OpOf(s: State, e: Event): Option<Op> {
    match e
    case Commit(r) => if r < |s.requests| then Ready(s.requests[r]) else None
    case NewAccount(owner, currency) => Some(OpenAccount(owner, currency))
    case _ => None
  }

  /** The operations of a run, in commit order. */
  ghost function Log(s: State, es: seq<Event>): seq<Op> {
    if es == [] then []
    else
      var n := |es| - 1;
      var log := Log(s, es[..n]);
      var before := After(s, es[..n]);
      if before.Some? && OpOf(before.value, es[n]).Some? then log + [OpOf(before.value, es[n]).value] else log
  }

  // ---- One step ----

  /** A new request holds nothing and has established nothing beyond its own input. */
  lemma OutsideStarts(s: State, e: Event)
    requires Step(s, e).Some? && (e.Submit? || e.SubmitReversal? || e.Tick?)
    ensures var s' := Step(s, e).value;
            && Committed(s') == Committed(s) && s.requests <= s'.requests && s.clock <= s'.clock
            && forall t :: |s.requests| <= t < |s'.requests| ==> PhaseOk(Committed(s'), s'.clock, s'.requests[t])
  {
  }

  lemma OutsideKept(opening: seq<int>, s: State, e: Event)
    requires Inv(opening, s) && Step(s, e).Some? && (e.Submit? || e.SubmitReversal? || e.Tick?)
    ensures Inv(opening, Step(s, e).value) && Committed(Step(s, e).value) == Committed(s)
  {
    hide Sound, PhaseOk;
    var s' := Step(s, e).value;
    OutsideStarts(s, e);
    forall a | 0 <= a < |s'.accounts| ensures AccountCellOk(s', a) { assert AccountCellOk(s, a); }
    forall x | 0 <= x < |s'.rows| ensures RowCellOk(s', x) { assert RowCellOk(s, x); }
    forall t | 0 <= t < |s'.requests| ensures LocksOk(s', t) {
      if t < |s.requests| { assert LocksOk(s, t); }
    }
    forall t | 0 <= t < |s'.requests| ensures PhaseOk(Committed(s'), s'.clock, s'.requests[t]) {
      if t < |s.requests| { PhaseStable(Committed(s), Committed(s'), s.clock, s'.clock, s.requests[t]); }
    }
  }

  lemma NewAccountKept(opening: seq<int>, s: State, owner: nat, currency: string)
    requires Inv(opening, s)
    ensures var s' := Step(s, NewAccount(owner, currency)).value;
            Inv(opening, s') && Committed(s') == Apply(Committed(s), OpenAccount(owner, currency))
  {
    var s' := Step(s, NewAccount(owner, currency)).value;
    var op := OpenAccount(owner, currency);
    assert Heads(s'.accounts) == Apply(Committed(s), op).accounts;
    SoundKept(opening, Committed(s), op);
    forall a | 0 <= a < |s'.accounts| ensures AccountCellOk(s', a) {
      if a < |s.accounts| { assert AccountCellOk(s, a); }
    }
    forall x | 0 <= x < |s'.rows| ensures RowCellOk(s', x) { assert RowCellOk(s, x); }
    forall t | 0 <= t < |s'.requests| ensures LocksOk(s', t) { assert LocksOk(s, t); }
    forall t | 0 <= t < |s'.requests| ensures PhaseOk(Committed(s'), s'.clock, s'.requests[t]) {
      PhaseStable(Committed(s), Committed(s'), s.clock, s'.clock, s.requests[t]);
    }
  }

  predicate ReadOnly(e: Event) {
    e.Lookup? || e.ReadSender? || e.ReadReceiver? || e.CheckLimits? || e.Analyze? || e.ReadOriginal? || e.RaiseAlert?
  }

  /** A read moves its request to q, writing nothing. */
  ghost predicate MovesTo(s: State, e: Event, q: Phase) {
    && RequestOf(e).Some? && e.r < |s.requests|
    && Step(s, e) == Some(Goto(s, e.r, q))
    && SameHold(s.requests[e.r], q)
    && (PhaseOk(Committed(s), s.clock, s.requests[e.r]) ==> PhaseOk(Committed(s), s.clock, q))
  }

  lemma LookupMoves(s: State, e: Event)
    requires Step(s, e).Some? && e.Lookup?
    ensures MovesTo(s, e, Step(s, e).value.requests[e.r])
  {
    hide KeyFree, FingerprintOf;
  }

  lemma EarlyReads(s: State, e: Event)
    requires Step(s, e).Some? && (e.ReadSender? || e.ReadReceiver?)
    ensures MovesTo(s, e, Step(s, e).value.requests[e.r])
  {
  }

  lemma CheckMoves(s: State, e: Event)
    requires Step(s, e).Some? && (e.CheckLimits? || e.Analyze?)
    ensures MovesTo(s, e, Step(s, e).value.requests[e.r])
  {
    hide SpentSince;
  }

  lemma LateReads(s: State, e: Event)
    requires Step(s, e).Some? && (e.ReadOriginal? || e.RaiseAlert?)
    ensures MovesTo(s, e, Step(s, e).value.requests[e.r])
  {
  }

  lemma ReadKept(opening: seq<int>, s: State, e: Event)
    requires Inv(opening, s) && Step(s, e).Some? && ReadOnly(e)
    ensures Inv(opening, Step(s, e).value) && Committed(Step(s, e).value) == Committed(s)
  {
    hide Step, Sound, PhaseOk;
    if e.Lookup? { LookupMoves(s, e); }
    else if e.ReadSender? || e.ReadReceiver? { EarlyReads(s, e); }
    else if e.CheckLimits? || e.Analyze? { CheckMoves(s, e); }
    else { LateReads(s, e); }
    QuietKept(opening, s, e.r, Step(s, e).value.requests[e.r]);
  }

  /** Each event either leaves what readers see alone or applies one enabled ledger operation to it. */
  lemma {:induction false} StepRefines(opening: seq<int>, s: State, e: Event)
    requires Inv(opening, s) && Step(s, e).Some?
    ensures Inv(opening, Step(s, e).value)
    ensures OpOf(s, e).None? ==> Committed(Step(s, e).value) == Committed(s)
    ensures OpOf(s, e).Some? ==>
              Enabled(Committed(s), OpOf(s, e).value)
              && Committed(Step(s, e).value) == Apply(Committed(s), OpOf(s, e).value)
  {
    match e
    case NewAccount(owner, currency) => NewAccountKept(opening, s, owner, currency);
    case Debit(r) => DebitKept(opening, s, r);
    case Pay(r) => PayKept(opening, s, r);
    case Insert(r, at) => InsertKept(opening, s, r, at);
    case Mark(r) => MarkKept(opening, s, r);
    case Commit(r) => CommitKept(opening, s, r); CommitRefines(opening, s, r);
    case Abort(r) => RollBackKept(opening, s, r, RolledBack);
    case _ => if ReadOnly(e) { ReadKept(opening, s, e); } else { OutsideKept(opening, s, e); }
  }

  // ---- Runs ----

  lemma AfterOne(s: State, es: seq<Event>, e: Event)
    requires After(s, es).Some?
    ensures After(s, es + [e]) == Step(After(s, es).value, e)
  {
    assert (es + [e])[..|es|] == es;
  }

  lemma {:induction false} RunRefinesFrom(opening: seq<int>, s: State, es: seq<Event>)
    requires Inv(opening, s) && After(s, es).Some?
    ensures Inv(opening, After(s, es).value)
    ensures Plays(Committed(s), Log(s, es))
    ensures Committed(After(s, es).value) == Replay(Committed(s), Log(s, es))
  {
    if es != [] {
      var n := |es| - 1;
      RunRefinesFrom(opening, s, es[..n]);
      var before := After(s, es[..n]).value;
      StepRefines(opening, before, es[n]);
      if OpOf(before, es[n]).Some? {
        var log := Log(s, es[..n]);
        assert (log + [OpOf(before, es[n]).value])[..|log|] == log;
      }
    }
  }

  /** Refinement: in every run of interleaved requests, the visible tables are exactly the committed
      transfers and reversals applied atomically, one at a time, in commit order. */
  lemma {:induction false} RunRefines(s: State, es: seq<Event>)
    requires Initial(s) && After(s, es).Some?
    ensures Plays(Committed(s), Log(s, es))
    ensures Committed(After(s, es).value) == Replay(Committed(s), Log(s, es))
  {
    InitialInv(s);
    RunRefinesFrom(Balances(Committed(s)), s, es);
  }

  /** Balances agree with COMPLETED rows, none is negative, keys are unique, flagged rows have their alert,
      and each currency's total is what it was, after any run. */
  lemma {:induction false} EveryRunIsSound(s: State, es: seq<Event>, currency: string)
    requires Initial(s) && After(s, es).Some?
    ensures Sound(Balances(Committed(s)), Committed(After(s, es).value))
    ensures Total(Committed(After(s, es).value), currency) == Total(Committed(s), currency)
  {
    RunRefines(s, es);
    FreshIsSound(Committed(s));
    ReplaySound(Balances(Committed(s)), Committed(s), Log(s, es), currency);
  }

  /** Two commits of a run never share an idempotency key, and never reverse the same transfer. */
  lemma {:induction false} CommitsAreExclusive(s: State, es: seq<Event>, i: nat, j: nat)
    requires Initial(s) && After(s, es).Some? && i < j < |Log(s, es)|
    ensures var log := Log(s, es);
            && (log[i].Record? && log[j].Record? && log[i].row.key.Some? ==> log[i].row.key != log[j].row.key)
            && (log[i].Reverse? && log[j].Reverse? ==> log[i].tx != log[j].tx)
  {
    RunRefines(s, es);
    var log := Log(s, es);
    if log[i].Record? && log[j].Record? && log[i].row.key.Some? {
      AtMostOneRowPerKey(Committed(s), log, i, j);
    }
    if log[i].Reverse? && log[j].Reverse? {
      AtMostOneReversal(Committed(s), log, i, j);
    }
  }

  lemma {:induction false} RunEvolves(opening: seq<int>, s: State, es: seq<Event>)
    requires Inv(opening, s) && After(s, es).Some?
    ensures Stable(Committed(s), Committed(After(s, es).value))
  {
    hide Inv, Step;
    if es != [] {
      var n := |es| - 1;
      var before := After(s, es[..n]).value;
      RunEvolves(opening, s, es[..n]);
      RunRefinesFrom(opening, s, es[..n]);
      StepRefines(opening, before, es[n]);
      if OpOf(before, es[n]).Some? { ApplyStable(Committed(before), OpOf(before, es[n]).value); }
      StableTransitive(Committed(s), Committed(before), Committed(Step(before, es[n]).value));
    }
  }

  /** Row tx answers request r: same key, same payload, same owner. */
  predicate Answers(s: State, tx: nat, p: Phase) {
    && tx < |s.rows| && p.Received? && p.key.Some?
    && s.rows[tx].committed.key == p.key
    && s.rows[tx].committed.fingerprint == Some(FingerprintOf(p.user, p.dto))
    && s.rows[tx].committed.sender < |s.accounts|
    && s.accounts[s.rows[tx].committed.sender].committed.owner == p.user
  }

  lemma DuplicateIsReplayed(opening: seq<int>, s: State, tx: nat, r: nat)
    requires Inv(opening, s) && r < |s.requests| && Answers(s, tx, s.requests[r])
    ensures var row := s.rows[tx].committed;
            Step(s, Lookup(r)) == Some(Goto(s, r, Done(Replayed(tx, row, MessageOf(row.status)))))
  {
    hide RowsLegal, AlertsMatch, Agrees, AccountCellOk, LocksOk, PhaseOk;
    var b := Committed(s);
    var found := FindKey(b.rows, s.requests[r].key.value);
    assert b.rows[tx].key == s.requests[r].key;
    assert found == Some(tx);
  }

  /** Once a keyed row is visible, every later request of its owner with that key and payload is answered
      with that row and changes no table, however the run continued in between. */
  lemma LaterDuplicateIsReplayed(opening: seq<int>, s: State, es: seq<Event>, tx: nat, r: nat)
    requires Inv(opening, s) && After(s, es).Some?
    requires r < |After(s, es).value.requests| && Answers(s, tx, After(s, es).value.requests[r])
    ensures var t := After(s, es).value;
            && tx < |t.rows| && RowEvolves(s.rows[tx].committed, t.rows[tx].committed)
            && var row := t.rows[tx].committed;
               Step(t, Lookup(r)) == Some(Goto(t, r, Done(Replayed(tx, row, MessageOf(row.status)))))
  {
    RunEvolves(opening, s, es);
    RunRefinesFrom(opening, s, es);
    var t := After(s, es).value;
    assert RowEvolves(Committed(s).rows[tx], Committed(t).rows[tx]);
    assert Committed(s).accounts[s.rows[tx].committed.sender].owner
        == Committed(t).accounts[s.rows[tx].committed.sender].owner;
    DuplicateIsReplayed(opening, t, tx, r);
  }

  /** A duplicate that loses the race at its insert leaves no trace: the visible tables are untouched, its
      locks are released, and every row it had written is back to its committed version. */
  lemma {:induction false} LosingDuplicateLeavesNoTrace(opening: seq<int>, s: State, r: nat, at: int)
    requires Inv(opening, s) && r < |s.requests| && s.requests[r].Paid?
    requires !KeyFree(Committed(s).rows, s.requests[r].plan.key)
    requires s.requests[r].plan.checkedAt <= at <= s.clock
    ensures Step(s, Insert(r, at)).Some?
    ensures var s' := Step(s, Insert(r, at)).value;
            && s'.requests[r] == Done(Failed(DuplicateKey))
            && Committed(s') == Committed(s)
            && forall a :: 0 <= a < |s.accounts| ==>
                 s'.accounts[a] == if Holds(s.requests[r], a) then Clean(s.accounts[a].committed) else s.accounts[a]
  {
    hide Sound;
    RollBackKept(opening, s, r, Failed(DuplicateKey));
    forall a | 0 <= a < |s.accounts|
      ensures s.accounts[a].owner == Some(r) <==> Holds(s.requests[r], a)
    {
      assert AccountCellOk(s, a) && LocksOk(s, r);
    }
  }

  /** A keyed request goes on only when no row has its key; otherwise it is answered with that row if it is
      the same user's same payment, and refused if it is not. */
  lemma KeyedLookup(opening: seq<int>, s: State, r: nat)
    requires Inv(opening, s) && r < |s.requests| && s.requests[r].Received? && s.requests[r].key.Some?
    ensures Step(s, Lookup(r)).Some?
    ensures var p, q := s.requests[r], Step(s, Lookup(r)).value.requests[r];
            && (q.Unmatched? <==> KeyFree(Committed(s).rows, p.key))
            && (q.Done? && q.outcome.Replayed? <==> exists tx: nat :: Answers(s, tx, p))
            && (q.Unmatched? || (q.Done? && (q.outcome.Replayed? || q.outcome.Failed?)))
  {
    hide Sound;
    var p := s.requests[r];
    var found := FindKey(Committed(s).rows, p.key.value);
    if exists tx: nat :: Answers(s, tx, p) {
      var tx: nat :| Answers(s, tx, p);
      DuplicateIsReplayed(opening, s, tx, r);
      assert Committed(s).rows[tx].key == p.key;
    } else if found.Some? {
      assert !Answers(s, found.value, p);
      assert Committed(s).rows[found.value] == s.rows[found.value].committed;
    }
  }

  /** Whatever the run, the message of a replay tells the status of the row it returns exactly when that row has
      not been reversed. */
  lemma ReplayNamesStatusIff(s: State, es: seq<Event>, r: nat)
    requires Initial(s) && After(s, es).Some? && r < |After(s, es).value.requests|
    requires Step(After(s, es).value, Lookup(r)).Some?
    requires var q := Step(After(s, es).value, Lookup(r)).value.requests[r]; q.Done? && q.outcome.Replayed?
    ensures var t := After(s, es).value; var answer := Step(t, Lookup(r)).value.requests[r].outcome;
            && answer.tx < |t.rows| && answer.row == t.rows[answer.tx].committed
            && (Names(answer.message, answer.row.status) <==> answer.row.status != REVERSED)
  {
    hide Step;
    EveryRunIsSound(s, es, "");
    var t := After(s, es).value;
    var found := LookupAnswer(t, r);
    assert Gated(Committed(t).rows[found]);
  }

  lemma LookupAnswer(t: State, r: nat) returns (tx: nat)
    requires r < |t.requests| && Step(t, Lookup(r)).Some?
    requires var q := Step(t, Lookup(r)).value.requests[r]; q.Done? && q.outcome.Replayed?
    ensures tx < |t.rows|
    ensures var row := t.rows[tx].committed;
            Step(t, Lookup(r)).value.requests[r].outcome == Replayed(tx, row, MessageOf(row.status))
  {
    tx := Step(t, Lookup(r)).value.requests[r].outcome.tx;
  }

  /** In every run money has moved only for transfers scored below 60; a row is withheld as FLAGGED exactly
      from 60 on, with one alert of the same score and level; rows without an answer carry no score. */
  lemma FraudGateInEveryRun(s: State, es: seq<Event>, x: nat)
    requires Initial(s) && After(s, es).Some? && x < |After(s, es).value.rows|
    ensures var t := After(s, es).value;
            var row := t.rows[x].committed;
            && (row.status == COMPLETED || row.status == REVERSED ==> row.risk.Some? && row.risk.value.score < 60)
            && (row.status == FLAGGED ==> row.risk.Some? && row.risk.value.score >= 60)
            && (row.status == FLAGGED <==> exists j :: 0 <= j < |t.alerts| && t.alerts[j].tx == x)
            && (forall j :: 0 <= j < |t.alerts| && t.alerts[j].tx == x ==>
                 row.risk == Some(Risk(t.alerts[j].score, t.alerts[j].level)))
            && (forall i, j :: 0 <= i < j < |t.alerts| ==> t.alerts[i].tx != t.alerts[j].tx)
            && (row.status == REJECTED <==> row.risk.None?)
            && row.status in {COMPLETED, REVERSED, FLAGGED, REJECTED}
  {
    EveryRunIsSound(s, es, "");
    var b := Committed(After(s, es).value);
    assert Gated(b.rows[x]);
    if b.rows[x].status == FLAGGED { assert HasAlert(b.alerts, x); }
  }

  /** The inverse law on interleaved runs: once transfer i has been reversed at j, every visible balance is
      what the money movements of the other commits alone would have left. */
  lemma {:induction false} ReversalErasedInEveryRun(s: State, es: seq<Event>, i: nat, j: nat, a: nat)
    requires Initial(s) && After(s, es).Some? && i < j < |Log(s, es)|
    requires Plays(Committed(s), Log(s, es))
    requires Log(s, es)[i].Record? && Log(s, es)[j].Reverse?
    requires Log(s, es)[j].tx == |At(Committed(s), Log(s, es), i).rows|
    ensures BalanceOf(Committed(After(s, es).value), a)
         == BalanceOf(Committed(s), a) + Sum(Without(Without(Effects(Committed(s), Log(s, es)), j), i), Gain(a))
  {
    RunRefines(s, es);
    ReversalErasesTheTransfer(Committed(s), Log(s, es), i, j, a);
  }
}
