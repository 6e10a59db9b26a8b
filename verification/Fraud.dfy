/** The scoring rules of the fraud engine and the flag the bank derives from its answer. */
module Fraud {

  datatype RiskLevel = LOW | MEDIUM | HIGH | CRITICAL

  datatype Decision = APPROVE | REVIEW | BLOCK

  datatype Reason =
    | UnusualAmount
    | NewDevice
    | NewBeneficiary
    | TooManyTransactions
    | RepeatedFailedLogins
    | UnusualTime

  /** What the bank sends to the engine; amounts are in cents and the average need not be whole. */
  datatype Inquiry = Inquiry(
    amount: int,
    average: real,
    newDevice: bool,
    newBeneficiary: bool,
    transactionsLastHour: nat,
    failedLoginsLastHour: nat,
    hour: nat)

  datatype EngineAnswer = EngineAnswer(score: int, severity: RiskLevel, decision: Decision, reasons: seq<Reason>)

  /** The bank's reading of the answer: `flagged` withholds the money. */
  datatype Assessment = Assessment(score: int, level: RiskLevel, flagged: bool, reasons: seq<Reason>)

  function Weight(r: Reason): int {
    match r
    case UnusualAmount => 40
    case UnusualTime => 10
    case _ => 20
  }

  predicate Fires(r: Reason, t: Inquiry) {
    match r
    case UnusualAmount => t.amount as real > t.average * 5.0
    case NewDevice => t.newDevice
    case NewBeneficiary => t.newBeneficiary
    case TooManyTransactions => t.transactionsLastHour >= 5
    case RepeatedFailedLogins => t.failedLoginsLastHour >= 3
    case UnusualTime => 0 <= t.hour < 5
  }

  const RULES := 6

  /** The rules in the order the engine tries them. */
  function Rule(i: nat): Reason {
    match i
    case 0 => UnusualAmount
    case 1 => NewDevice
    case 2 => NewBeneficiary
    case 3 => TooManyTransactions
    case 4 => RepeatedFailedLogins
    case _ => UnusualTime
  }

  /** The reasons among the first n rules that fire, in rule order. */
  function Fired(n: nat, t: Inquiry): seq<Reason> {
    if n == 0 then []
    else if Fires(Rule(n - 1), t) then Fired(n - 1, t) + [Rule(n - 1)]
    else Fired(n - 1, t)
  }

  function TotalWeight(rs: seq<Reason>): int {
    if rs == [] then 0 else TotalWeight(rs[..|rs| - 1]) + Weight(rs[|rs| - 1])
  }

  function Min(a: int, b: int): int { if a <= b then a else b }

  function SeverityOf(score: int): RiskLevel {
    if score >= 80 then CRITICAL
    else if score >= 60 then HIGH
    else if score >= 30 then MEDIUM
    else LOW
  }

  function DecisionOf(level: RiskLevel): Decision {
    match level
    case LOW => APPROVE
    case CRITICAL => BLOCK
    case _ => REVIEW
  }

  predicate Flags(level: RiskLevel) { level == HIGH || level == CRITICAL }

  /** The answer as the rule table defines it. */
  function Analyze(t: Inquiry): EngineAnswer {
    var reasons := Fired(RULES, t);
    var score := Min(TotalWeight(reasons), 100);
    EngineAnswer(score, SeverityOf(score), DecisionOf(SeverityOf(score)), reasons)
  }

  /** The weight of the first n rules, counted without listing them. */
  function Points(n: nat, t: Inquiry): nat {
    if n == 0 then 0
    else Points(n - 1, t) + if Fires(Rule(n - 1), t) then Weight(Rule(n - 1)) else 0
  }

  lemma {:induction false} WeightIsPoints(n: nat, t: Inquiry)
    ensures TotalWeight(Fired(n, t)) == Points(n, t)
  {
    if n > 0 {
      WeightIsPoints(n - 1, t);
      var f := Fired(n - 1, t);
      assert (f + [Rule(n - 1)])[..|f|] == f;
    }
  }

  lemma NextRule(n: nat, t: Inquiry)
    ensures Points(n + 1, t) == Points(n, t) + if Fires(Rule(n), t) then Weight(Rule(n)) else 0
    ensures Fired(n + 1, t) == Fired(n, t) + if Fires(Rule(n), t) then [Rule(n)] else []
    ensures Points(0, t) == 0 && Fired(0, t) == []
  {
  }

  lemma Conditions(t: Inquiry)
    ensures Fires(Rule(0), t) == (t.amount as real > t.average * 5.0) && Weight(Rule(0)) == 40
    ensures Fires(Rule(1), t) == t.newDevice && Weight(Rule(1)) == 20
    ensures Fires(Rule(2), t) == t.newBeneficiary && Weight(Rule(2)) == 20
    ensures Fires(Rule(3), t) == (t.transactionsLastHour >= 5) && Weight(Rule(3)) == 20
    ensures Fires(Rule(4), t) == (t.failedLoginsLastHour >= 3) && Weight(Rule(4)) == 20
    ensures Fires(Rule(5), t) == (0 <= t.hour < 5) && Weight(Rule(5)) == 10
  {
  }

  method Classify(score: int) returns (severity: RiskLevel, decision: Decision)
    ensures severity == SeverityOf(score) && decision == DecisionOf(severity)
  {
    if score >= 80 {
      severity := CRITICAL;
    } else if score >= 60 {
      severity := HIGH;
    } else if score >= 30 {
      severity := MEDIUM;
    } else {
      severity := LOW;
    }
    if severity == LOW {
      decision := APPROVE;
    } else if severity == CRITICAL {
      decision := BLOCK;
    } else {
      decision := REVIEW;
    }
  }

  /** The engine's own accumulation, one rule after the other. */
  method AnalyzeTransaction(t: Inquiry) returns (answer: EngineAnswer)
    ensures answer == Analyze(t)
  {
    hide TotalWeight, Points, Fired, Fires, Weight;
    Conditions(t);
    var score := 0;
    var reasons := [];
    if t.amount as real > t.average * 5.0 {
      score := score + 40;
      reasons := reasons + [UnusualAmount];
    }
    assert score == Points(1, t) && reasons == Fired(1, t) by { NextRule(0, t); }
    if t.newDevice {
      score := score + 20;
      reasons := reasons + [NewDevice];
    }
    assert score == Points(2, t) && reasons == Fired(2, t) by { NextRule(1, t); }
    if t.newBeneficiary {
      score := score + 20;
      reasons := reasons + [NewBeneficiary];
    }
    assert score == Points(3, t) && reasons == Fired(3, t) by { NextRule(2, t); }
    if t.transactionsLastHour >= 5 {
      score := score + 20;
      reasons := reasons + [TooManyTransactions];
    }
    assert score == Points(4, t) && reasons == Fired(4, t) by { NextRule(3, t); }
    if t.failedLoginsLastHour >= 3 {
      score := score + 20;
      reasons := reasons + [RepeatedFailedLogins];
    }
    assert score == Points(5, t) && reasons == Fired(5, t) by { NextRule(4, t); }
    if 0 <= t.hour < 5 {
      score := score + 10;
      reasons := reasons + [UnusualTime];
    }
    assert score == Points(6, t) && reasons == Fired(6, t) by { NextRule(5, t); }
    WeightIsPoints(6, t);
    score := if score <= 100 then score else 100;
    var severity, decision := Classify(score);
    answer := EngineAnswer(score, severity, decision, reasons);
  }

  /** The bank's adapter around the engine's answer. */
  function Assess(t: Inquiry): (a: Assessment)
    ensures a.level == SeverityOf(a.score) && 0 <= a.score <= 100
    ensures a.flagged <==> a.score >= 60
  {
    var answer := Analyze(t);
    WeightIsPoints(RULES, t);
    Assessment(answer.score, answer.severity, answer.severity == HIGH || answer.severity == CRITICAL, answer.reasons)
  }

  /** The score in numbers. */
  ghost function ScoreOf(t: Inquiry): int {
    var score :=
      (if t.amount as real > t.average * 5.0 then 40 else 0) + (if t.newDevice then 20 else 0)
      + (if t.newBeneficiary then 20 else 0) + (if t.transactionsLastHour >= 5 then 20 else 0)
      + (if t.failedLoginsLastHour >= 3 then 20 else 0) + (if t.hour < 5 then 10 else 0);
    if score > 100 then 100 else score
  }

  /** The level in numbers. */
  ghost predicate LevelOf(level: RiskLevel, score: int) {
    match level
    case LOW => score < 30
    case MEDIUM => 30 <= score < 60
    case HIGH => 60 <= score < 80
    case CRITICAL => score >= 80
  }

  /** What the engine answers and the bank reads, in numbers: below 30 a transfer is approved, from 80 on blocked, in
      between reviewed; from 60 on its money is withheld. */
  lemma AnswerInNumbers(t: Inquiry)
    ensures Analyze(t).score == Assess(t).score == ScoreOf(t)
    ensures Analyze(t).severity == Assess(t).level && LevelOf(Assess(t).level, ScoreOf(t))
    ensures Analyze(t).decision == if ScoreOf(t) < 30 then APPROVE else if ScoreOf(t) < 80 then REVIEW else BLOCK
    ensures Assess(t).flagged <==> ScoreOf(t) >= 60
  {
    hide Fired, TotalWeight;
    WeightIsPoints(RULES, t);
    Conditions(t);
    SixRules(t);
    hide Points, Fires, Weight;
  }

  lemma SixRules(t: Inquiry)
    ensures Points(6, t) == Earned(0, t) + Earned(1, t) + Earned(2, t) + Earned(3, t) + Earned(4, t) + Earned(5, t)
  {
    hide Fires, Weight, Fired;
    NextRule(0, t);
    NextRule(1, t);
    NextRule(2, t);
    NextRule(3, t);
    NextRule(4, t);
    NextRule(5, t);
  }

  function Earned(n: nat, t: Inquiry): int { if Fires(Rule(n), t) then Weight(Rule(n)) else 0 }

  /** A rule is listed as a reason exactly when it fires, and never twice. */
  lemma {:induction false} ReasonsAreFiringRules(n: nat, t: Inquiry)
    requires n <= RULES
    ensures forall i: nat :: i < n ==> (Rule(i) in Fired(n, t) <==> Fires(Rule(i), t))
    ensures forall r :: r in Fired(n, t) ==> exists i: nat :: i < n && r == Rule(i)
    ensures forall i, j :: 0 <= i < j < |Fired(n, t)| ==> Fired(n, t)[i] != Fired(n, t)[j]
  {
    if n > 0 {
      ReasonsAreFiringRules(n - 1, t);
      assert Rule(n - 1) !in Fired(n - 1, t);
    }
  }

  /** t is at least as suspicious as s on every graded input, at the same hour and average. */
  predicate AtLeast(s: Inquiry, t: Inquiry) {
    && s.amount <= t.amount && s.average == t.average && s.hour == t.hour
    && (s.newDevice ==> t.newDevice) && (s.newBeneficiary ==> t.newBeneficiary)
    && s.transactionsLastHour <= t.transactionsLastHour
    && s.failedLoginsLastHour <= t.failedLoginsLastHour
  }

  lemma {:induction false} PointsMonotone(n: nat, s: Inquiry, t: Inquiry)
    requires AtLeast(s, t)
    ensures Points(n, s) <= Points(n, t)
  {
    if n > 0 {
      PointsMonotone(n - 1, s, t);
      assert Fires(Rule(n - 1), s) ==> Fires(Rule(n - 1), t);
    }
  }

  /** Raising any graded input never lowers the score and never releases a flagged transfer. */
  lemma ScoreMonotone(s: Inquiry, t: Inquiry)
    requires AtLeast(s, t)
    ensures Assess(s).score <= Assess(t).score
    ensures Assess(s).flagged ==> Assess(t).flagged
  {
    PointsMonotone(RULES, s, t);
    WeightIsPoints(RULES, s);
    WeightIsPoints(RULES, t);
  }

  lemma {:induction false} HourOnlyMattersLast(n: nat, t: Inquiry, hour: nat)
    requires n < RULES
    ensures Points(n, t) == Points(n, t.(hour := hour))
    ensures Points(n, t) % 20 == 0
  {
    if n > 0 {
      HourOnlyMattersLast(n - 1, t, hour);
      assert Weight(Rule(n - 1)) in {20, 40};
    }
  }

  /** The night-time rule can change the score and the severity, but never whether money is withheld. */
  lemma HourNeverDecidesTheFlag(t: Inquiry, hour: nat)
    ensures Assess(t).flagged == Assess(t.(hour := hour)).flagged
  {
    var u := t.(hour := hour);
    HourOnlyMattersLast(5, t, hour);
    NextRule(5, t);
    NextRule(5, u);
    Conditions(t);
    Conditions(u);
    hide Points, Fired, Fires, Weight, Rule;
    FlagIsPoints(t);
    FlagIsPoints(u);
  }

  lemma FlagIsPoints(t: Inquiry)
    ensures Assess(t).flagged <==> Points(RULES, t) >= 60
  {
    hide Points, Fired, TotalWeight;
    WeightIsPoints(RULES, t);
  }
}
