/** A run in which the answer to a repeated request calls a transfer completed that has been reversed. */
module ReplayOfReversed {
  import opened Sums
  import opened Fraud
  import opened Ledger
  import opened Transfers
  import opened Interleaving
  import opened Refinement
  import opened Runs

  const PAYMENT := Dto(0, 0, 100, None)
  const KEY: Option<string> := Some("k")
  const NO_RISK := Risk(0, LOW)
  const PLAN := Plan(0, 0, 1, 100, "USD", KEY, Some(FingerprintOf(0, PAYMENT)), 0)
  const ROW := RowFor(PLAN, COMPLETED, Some(NO_RISK), 0)
  const UNDO := Undo(0, 0, 0, 1, 100)

  /** An inquiry no rule fires on. */
  const HARMLESS := Inquiry(100, 100.0, false, false, 0, 0, 12)

  function Owned(user: nat, balance: int): Account { Account(user, "USD", balance) }

  function Held(user: nat, before: int, now: int, r: nat): Cell<Account> {
    Cell(Owned(user, before), Owned(user, now), Some(r))
  }

  /** No transfer yet; the transfer committed; the transfer reversed. */
  function Opened0(requests: seq<Phase>): State {
    State([Clean(Owned(0, 500)), Clean(Owned(1, 0))], [], [], requests, 0)
  }

  function Paid0(requests: seq<Phase>): State {
    State([Clean(Owned(0, 400)), Clean(Owned(1, 100))], [Clean(ROW)], [], requests, 0)
  }

  function Reversed0(requests: seq<Phase>): State {
    State([Clean(Owned(0, 500)), Clean(Owned(1, 0))], [Clean(Reversed(ROW, 0, 0))], [], requests, 0)
  }

  /** Event e of a run from s leads from t to u. */
  lemma Next(s: State, es: seq<Event>, t: State, e: Event, u: State)
    requires After(s, es) == Some(t) && Step(t, e).Some?
    requires var v := Step(t, e).value;
             && v.accounts == u.accounts && v.rows == u.rows && v.requests == u.requests
             && v.alerts == u.alerts && v.clock == u.clock
    ensures After(s, es + [e]) == Some(u)
  {
    hide Step;
    AfterOne(s, es, e);
  }

  lemma HarmlessScoresZero()
    ensures Assess(HARMLESS).score == 0 && Assess(HARMLESS).level == LOW
  {
    WeightIsPoints(6, HARMLESS);
    NextRule(0, HARMLESS);
    NextRule(1, HARMLESS);
    NextRule(2, HARMLESS);
    NextRule(3, HARMLESS);
    NextRule(4, HARMLESS);
    NextRule(5, HARMLESS);
  }

  // ---- The transfer ----

  lemma HeaderIsKey()
    ensures NormalizeKey(Some("k")) == KEY
  {
    KeyIgnoresPadding("", "k", "");
    assert "" + "k" + "" == "k";
  }

  lemma Arrives(s: State) returns (es: seq<Event>)
    requires s == Opened0([])
    ensures After(s, es) == Some(Opened0([Unmatched(0, PAYMENT, KEY)]))
  {
    hide NormalizeKey;
    HeaderIsKey();
    var s1 := Opened0([Received(0, PAYMENT, KEY)]);
    Next(s, [], s, Submit(0, PAYMENT, Some("k")), s1);
    es := [] + [Submit(0, PAYMENT, Some("k"))];
    Next(s, es, s1, Lookup(0), Opened0([Unmatched(0, PAYMENT, KEY)]));
    es := es + [Lookup(0)];
  }

  lemma Checks(s: State, es0: seq<Event>) returns (es: seq<Event>)
    requires After(s, es0) == Some(Opened0([Unmatched(0, PAYMENT, KEY)]))
    ensures After(s, es) == Some(Opened0([Checked(PLAN)]))
  {
    hide After;
    var s2 := Opened0([Unmatched(0, PAYMENT, KEY)]);
    var s3 := Opened0([SenderRead(0, PAYMENT, KEY, Owned(0, 500))]);
    var s4 := Opened0([Validated(0, PAYMENT, KEY, 1)]);
    Next(s, es0, s2, ReadSender(0), s3);
    es := es0 + [ReadSender(0)];
    Next(s, es, s3, ReadReceiver(0, Some(1)), s4);
    es := es + [ReadReceiver(0, Some(1))];
    Next(s, es, s4, CheckLimits(0), Opened0([Checked(PLAN)]));
    es := es + [CheckLimits(0)];
  }

  lemma Scores(s: State, es0: seq<Event>) returns (es: seq<Event>)
    requires After(s, es0) == Some(Opened0([Checked(PLAN)]))
    ensures After(s, es) == Some(Opened0([Opened(PLAN, Scored(NO_RISK))]))
  {
    hide After, Assess;
    HarmlessScoresZero();
    Next(s, es0, Opened0([Checked(PLAN)]), Analyze(0, Some(HARMLESS)), Opened0([Opened(PLAN, Scored(NO_RISK))]));
    es := es0 + [Analyze(0, Some(HARMLESS))];
  }

  function Moved0(requests: seq<Phase>): State {
    State([Held(0, 500, 400, 0), Held(1, 0, 100, 0)], [], [], requests, 0)
  }

  lemma Moves(s: State, es0: seq<Event>) returns (es: seq<Event>)
    requires After(s, es0) == Some(Opened0([Opened(PLAN, Scored(NO_RISK))]))
    ensures After(s, es) == Some(Moved0([Paid(PLAN, NO_RISK)]))
  {
    hide After;
    var s1 := Opened0([Opened(PLAN, Scored(NO_RISK))]);
    var s2 := s1.(requests := [Debited(PLAN, NO_RISK)], accounts := [Held(0, 500, 400, 0), Clean(Owned(1, 0))]);
    Next(s, es0, s1, Debit(0), s2);
    es := es0 + [Debit(0)];
    Next(s, es, s2, Pay(0), Moved0([Paid(PLAN, NO_RISK)]));
    es := es + [Pay(0)];
  }

  lemma Records(s: State, es0: seq<Event>) returns (es: seq<Event>)
    requires After(s, es0) == Some(Moved0([Paid(PLAN, NO_RISK)]))
    ensures After(s, es) == Some(Paid0([Done(Accepted(0))]))
  {
    hide After;
    Next(s, es0, Moved0([Paid(PLAN, NO_RISK)]), Insert(0, 0), Moved0([Inserted(PLAN, ROW)]));
    es := es0 + [Insert(0, 0)];
    Next(s, es, Moved0([Inserted(PLAN, ROW)]), Commit(0), Paid0([Done(Accepted(0))]));
    es := es + [Commit(0)];
  }

  // ---- Its reversal ----

  function Unmoved0(requests: seq<Phase>): State {
    Paid0(requests).(accounts := [Held(0, 400, 500, 1), Held(1, 100, 0, 1)])
  }

  lemma MovesBack(s: State, es0: seq<Event>) returns (es: seq<Event>)
    requires After(s, es0) == Some(Paid0([Done(Accepted(0))]))
    ensures After(s, es) == Some(Unmoved0([Done(Accepted(0)), ReversalPaid(UNDO)]))
  {
    hide After;
    var d := Done(Accepted(0));
    var s1 := Paid0([d, ReversalReceived(0, 0)]);
    var s2 := Paid0([d, ReversalOpened(UNDO)]);
    var s3 := s2.(requests := [d, ReversalDebited(UNDO)], accounts := [Clean(Owned(0, 400)), Held(1, 100, 0, 1)]);
    Next(s, es0, Paid0([d]), SubmitReversal(0, 0), s1);
    es := es0 + [SubmitReversal(0, 0)];
    Next(s, es, s1, ReadOriginal(1), s2);
    es := es + [ReadOriginal(1)];
    Next(s, es, s2, Debit(1), s3);
    es := es + [Debit(1)];
    Next(s, es, s3, Pay(1), Unmoved0([d, ReversalPaid(UNDO)]));
    es := es + [Pay(1)];
  }

  lemma Marks(s: State, es0: seq<Event>) returns (es: seq<Event>)
    requires After(s, es0) == Some(Unmoved0([Done(Accepted(0)), ReversalPaid(UNDO)]))
    ensures After(s, es) == Some(Reversed0([Done(Accepted(0)), Done(Accepted(0))]))
  {
    hide After;
    var d := Done(Accepted(0));
    var s4 := Unmoved0([d, ReversalPaid(UNDO)]);
    var s5 := s4.(requests := [d, ReversalMarked(UNDO, 0)], rows := [Cell(ROW, Reversed(ROW, 0, 0), Some(1))]);
    Next(s, es0, s4, Mark(1), s5);
    es := es0 + [Mark(1)];
    Next(s, es, s5, Commit(1), Reversed0([d, d]));
    es := es + [Commit(1)];
  }

  /** The same request again, after the transfer has been reversed: the row it is answered with is REVERSED, and
      the message says it was completed. */
  lemma ReversedTransferIsCalledCompleted() returns (s: State, es: seq<Event>)
    ensures Initial(s) && After(s, es).Some?
    ensures var t := After(s, es).value;
            && |t.rows| == 1 && t.rows[0].committed.status == REVERSED
            && |t.requests| == 3 && t.requests[0] == Done(Accepted(0)) && t.requests[1] == Done(Accepted(0))
            && t.requests[2] == Done(Replayed(0, t.rows[0].committed, CompletedSuccessfully))
  {
    hide After, NormalizeKey;
    s := Opened0([]);
    es := Arrives(s);
    es := Checks(s, es);
    es := Scores(s, es);
    es := Moves(s, es);
    es := Records(s, es);
    es := MovesBack(s, es);
    es := Marks(s, es);
    var d := Done(Accepted(0));
    HeaderIsKey();
    var answer := Done(Replayed(0, Reversed(ROW, 0, 0), CompletedSuccessfully));
    Next(s, es, Reversed0([d, d]), Submit(0, PAYMENT, Some("k")), Reversed0([d, d, Received(0, PAYMENT, KEY)]));
    es := es + [Submit(0, PAYMENT, Some("k"))];
    Next(s, es, Reversed0([d, d, Received(0, PAYMENT, KEY)]), Lookup(2), Reversed0([d, d, answer]));
    es := es + [Lookup(2)];
  }
}
