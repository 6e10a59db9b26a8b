/** The lockout bound is exact: for every number of logins in flight and of reactivations some run reaches it. */
module LockoutIsTight {
  import opened Sums
  import opened AuthTables
  import opened Sessions
  import opened SessionSafety
  import opened Lockout

  /** es leads from s to t with never more than k logins of user 0 in flight. */
  ghost predicate Leads(s: State, es: seq<Event>, t: State, k: nat) {
    t == After(s, es) && AtMost(k, 0, s, es)
  }

  lemma {:induction false} AtMostConcat(k: nat, s: State, es: seq<Event>, fs: seq<Event>)
    requires AtMost(k, 0, s, es) && AtMost(k, 0, After(s, es), fs)
    ensures AtMost(k, 0, s, es + fs)
  {
    hide Step;
    AfterConcat(s, es, fs);
    if fs == [] {
      assert es + fs == es;
    } else {
      var n := |fs| - 1;
      assert (es + fs)[..|es + fs| - 1] == es + fs[..n];
      AtMostConcat(k, s, es, fs[..n]);
    }
  }

  lemma Then(s: State, es: seq<Event>, t: State, fs: seq<Event>, u: State, k: nat)
    requires Leads(s, es, t, k) && Leads(t, fs, u, k)
    ensures Leads(s, es + fs, u, k)
  {
    hide Step;
    AfterConcat(s, es, fs);
    AtMostConcat(k, s, es, fs);
  }

  lemma One(s: State, e: Event, k: nat)
    requires FlightOf(s, 0) <= k && FlightOf(Step(s, e), 0) <= k
    ensures Leads(s, [e], Step(s, e), k)
  {
    hide Step;
    assert [e][..0] == [];
    assert AtMost(k, 0, s, [e][..0]);
  }

  /** User 0, whose password is 1, at time 0, with n failures and m reactivations so far. */
  ghost predicate Scene(s: State, n: int, m: int) {
    && |s.db.users| == 1 && s.db.users[0].password == 1 && s.db.clock == 0
    && (forall i :: 0 <= i < |s.db.attempts| ==> s.db.attempts[i].at == 0)
    && Failures(s, 0, 0) == n && Reactivations(s, 0, 0) == m
  }

  lemma SceneOfTables(s: State, t: State, n: int, m: int)
    requires Scene(s, n, m) && t.db == s.db
    ensures Scene(t, n, m)
  {
  }

  predicate Active(s: State) { |s.db.users| == 1 && s.db.users[0].status == ACTIVE }

  predicate Locked(s: State) { |s.db.users| == 1 && s.db.users[0].status == LOCKED }

  /** A login that has read the row of user 0 before any of the coming failures. */
  predicate Waiting(flow: Flow) { flow.Authenticating? && flow.user == 0 && flow.seen.password == 1 }

  predicate Flying(flow: Flow) { !Silent(flow) && flow.user == 0 }

  lemma FlightReplaced(flows: seq<Flow>, f: nat, flow: Flow)
    requires f < |flows|
    ensures Sum(flows[f := flow], InFlight(0))
         == Sum(flows, InFlight(0)) - (if Flying(flows[f]) then 1 else 0) + if Flying(flow) then 1 else 0
  {
    SumUpdate(flows, f, flow, InFlight(0));
    Flies(flows[f]);
    Flies(flow);
  }

  lemma Flies(flow: Flow)
    ensures InFlight(0)(flow) == if Flying(flow) then 1 else 0
  {
    assert InFlight(0)(flow) == Unrecorded(0)(flow) + Pending(0)(flow);
  }

  lemma ReadOne(s: State, n: int, m: int, k: nat)
    requires Scene(s, n, m) && Active(s) && 0 <= FlightOf(s, 0) < k
    ensures var t := s.(flows := s.flows + [Authenticating(0, s.db.users[0], 0)]);
            Leads(s, [LoginRead(0, 0)], t, k) && Scene(t, n, m) && FlightOf(t, 0) == FlightOf(s, 0) + 1
  {
    SumAppend(s.flows, Authenticating(0, s.db.users[0], 0), InFlight(0));
    Flies(Authenticating(0, s.db.users[0], 0));
    One(s, LoginRead(0, 0), k);
  }

  // ---- One failed login ----

  lemma RecordOne(s: State, f: nat, n: int, m: int)
    requires Scene(s, n, m) && f < |s.flows| && Waiting(s.flows[f])
    ensures var t := Step(s, LoginCheck(f, 2));
            && Scene(t, n + 1, m) && t.db.users == s.db.users && t.flows == s.flows[f := Counting(0)]
            && FlightOf(t, 0) == FlightOf(s, 0)
  {
    FlightReplaced(s.flows, f, Counting(0));
    SumAppend(s.db.attempts, Attempt(0, false, 0), FailedIn(0, 0, LOCK_WINDOW));
  }

  lemma CountOne(s: State, f: nat, n: int, m: int)
    requires Scene(s, n, m) && f < |s.flows| && s.flows[f] == Counting(0)
    ensures var t := Step(s, LoginCount(f));
            && t.db == s.db && t.flows == s.flows[f := if n >= 5 then Locking(0) else Ended(false)]
            && FlightOf(t, 0) == FlightOf(s, 0) - if n >= 5 then 0 else 1
  {
    FlightReplaced(s.flows, f, if n >= 5 then Locking(0) else Ended(false));
    SumEq(s.db.attempts, s.db.attempts, FailedIn(0, 0, LOCK_WINDOW), FailedIn(0, -LOCK_WINDOW, 0));
  }

  lemma LockOne(s: State, f: nat, n: int, m: int)
    requires Scene(s, n, m) && f < |s.flows| && s.flows[f] in {Locking(0), Ended(false)}
    ensures var t := Step(s, LoginLock(f));
            && Scene(t, n, m) && t.flows == s.flows[f := Ended(false)]
            && t.db.users[0].status == (if s.flows[f].Locking? then LOCKED else s.db.users[0].status)
            && FlightOf(t, 0) == FlightOf(s, 0) - if s.flows[f].Locking? then 1 else 0
  {
    FlightReplaced(s.flows, f, Ended(false));
  }

  /** Wrong password, recorded, counted, and the lock set from the fifth on. */
  lemma Fail(s: State, f: nat, n: int, m: int, k: nat) returns (es: seq<Event>, t: State)
    requires Scene(s, n, m) && f < |s.flows| && Waiting(s.flows[f]) && FlightOf(s, 0) <= k
    ensures Leads(s, es, t, k) && Scene(t, n + 1, m) && t.flows == s.flows[f := Ended(false)]
    ensures FlightOf(t, 0) == FlightOf(s, 0) - 1
    ensures t.db.users[0].status == if n + 1 >= 5 then LOCKED else s.db.users[0].status
  {
    hide Step;
    hide Scene;
    RecordOne(s, f, n, m);
    var s1 := Step(s, LoginCheck(f, 2));
    CountOne(s1, f, n + 1, m);
    var s2 := Step(s1, LoginCount(f));
    SceneOfTables(s1, s2, n + 1, m);
    LockOne(s2, f, n + 1, m);
    t := Step(s2, LoginLock(f));
    One(s, LoginCheck(f, 2), k);
    One(s1, LoginCount(f), k);
    One(s2, LoginLock(f), k);
    Then(s, [LoginCheck(f, 2)], s1, [LoginCount(f)], s2, k);
    es := [LoginCheck(f, 2)] + [LoginCount(f)];
    Then(s, es, s2, [LoginLock(f)], t, k);
    es := es + [LoginLock(f)];
  }

  // ---- Many at once ----

  lemma {:induction false} ReadAll(s: State, j: nat, n: int, m: int, k: nat) returns (es: seq<Event>, t: State)
    requires Scene(s, n, m) && Active(s) && 0 <= FlightOf(s, 0) && FlightOf(s, 0) + j <= k
    ensures Leads(s, es, t, k) && Scene(t, n, m) && Active(t) && FlightOf(t, 0) == FlightOf(s, 0) + j
    ensures |t.flows| == |s.flows| + j && forall f :: |s.flows| <= f < |t.flows| ==> Waiting(t.flows[f])
    ensures s.flows <= t.flows
    decreases j
  {
    hide Step;
    if j == 0 {
      es, t := [], s;
    } else {
      ReadOne(s, n, m, k);
      var s1 := s.(flows := s.flows + [Authenticating(0, s.db.users[0], 0)]);
      var fs;
      fs, t := ReadAll(s1, j - 1, n, m, k);
      es := [LoginRead(0, 0)] + fs;
      Then(s, [LoginRead(0, 0)], s1, fs, t, k);
      assert t.flows[|s.flows|] == s1.flows[|s.flows|];
    }
  }

  /** Every login waiting from f on fails, whether or not the account has been locked meanwhile. */
  lemma {:induction false} FailAll(s: State, f: nat, n: int, m: int, k: nat) returns (es: seq<Event>, t: State)
    requires Scene(s, n, m) && f <= |s.flows| && FlightOf(s, 0) <= k
    requires forall g :: f <= g < |s.flows| ==> Waiting(s.flows[g])
    ensures Leads(s, es, t, k) && Scene(t, n + |s.flows| - f, m) && FlightOf(t, 0) == FlightOf(s, 0) - (|s.flows| - f)
    ensures n + |s.flows| - f <= 4 || f == |s.flows| ==> t.db.users[0].status == s.db.users[0].status
    ensures n >= 4 && f < |s.flows| ==> t.db.users[0].status == LOCKED
    decreases |s.flows| - f
  {
    hide Step;
    hide Scene;
    if f == |s.flows| {
      es, t := [], s;
    } else {
      var fs, s1 := Fail(s, f, n, m, k);
      var gs;
      gs, t := FailAll(s1, f + 1, n + 1, m, k);
      es := fs + gs;
      Then(s, fs, s1, gs, t, k);
    }
  }

  /** j logins read the active account together and then all fail. */
  lemma Round(s: State, j: nat, n: int, m: int, k: nat) returns (es: seq<Event>, t: State)
    requires Scene(s, n, m) && Active(s) && FlightOf(s, 0) == 0 && 1 <= j <= k
    ensures Leads(s, es, t, k) && Scene(t, n + j, m) && FlightOf(t, 0) == 0
    ensures n + j <= 4 ==> Active(t)
    ensures n >= 4 ==> Locked(t)
  {
    hide Step;
    var fs, s1 := ReadAll(s, j, n, m, k);
    var gs;
    gs, t := FailAll(s1, |s.flows|, n, m, k);
    es := fs + gs;
    Then(s, fs, s1, gs, t, k);
  }

  lemma Reactivate(s: State, n: int, m: int, k: nat) returns (t: State)
    requires Scene(s, n, m) && Locked(s) && FlightOf(s, 0) == 0
    ensures Leads(s, [StatusUpdate(1, 0, ACTIVE)], t, k) && Scene(t, n, m + 1) && Active(t) && FlightOf(t, 0) == 0
  {
    t := Step(s, StatusUpdate(1, 0, ACTIVE));
    StatusEffect(s, 1, 0, ACTIVE, 0);
    SumAppend(s.db.changes, StatusChange(0, ACTIVE, 0), ReactivatedIn(0, 0, LOCK_WINDOW));
    One(s, StatusUpdate(1, 0, ACTIVE), k);
  }

  /** Four failures one at a time leave the account active. */
  lemma FourFailures(s: State, k: nat) returns (es: seq<Event>, t: State)
    requires Scene(s, 0, 0) && Active(s) && FlightOf(s, 0) == 0 && k >= 1
    ensures Leads(s, es, t, k) && Scene(t, 4, 0) && Active(t) && FlightOf(t, 0) == 0
  {
    hide Step;
    hide Scene;
    var es1, s1 := Round(s, 1, 0, 0, k);
    var es2, s2 := Round(s1, 1, 1, 0, k);
    var es3, s3 := Round(s2, 1, 2, 0, k);
    var es4;
    es4, t := Round(s3, 1, 3, 0, k);
    Then(s, es1, s1, es2, s2, k);
    Then(s, es1 + es2, s2, es3, s3, k);
    Then(s, es1 + es2 + es3, s3, es4, t, k);
    es := es1 + es2 + es3 + es4;
  }

  lemma {:induction false} Attain(s: State, k: nat, r: nat) returns (es: seq<Event>, t: State)
    requires Scene(s, 4, 0) && Active(s) && FlightOf(s, 0) == 0 && k >= 1
    ensures Leads(s, es, t, k) && Scene(t, 4 + k * (1 + r), r) && Locked(t) && FlightOf(t, 0) == 0
    decreases r
  {
    hide Step;
    hide Scene;
    if r == 0 {
      es, t := Round(s, k, 4, 0, k);
    } else {
      var es1, s1 := Attain(s, k, r - 1);
      var s2 := Reactivate(s1, 4 + k * r, r - 1, k);
      var es3;
      es3, t := Round(s2, k, 4 + k * r, r, k);
      Then(s, es1, s1, [StatusUpdate(1, 0, ACTIVE)], s2, k);
      es := es1 + [StatusUpdate(1, 0, ACTIVE)];
      Then(s, es, s2, es3, t, k);
      es := es + es3;
      assert k * (1 + r) == k * r + k;
    }
  }

  /** For every k and r there is a run, never more than k logins in flight, with r reactivations and 4 + k * (1 + r)
      failures in one window: four failures, then k logins that all read the account while it is active. */
  lemma {:induction false} BoundIsReached(k: nat, r: nat) returns (s: State, es: seq<Event>)
    requires k >= 1
    ensures Initial(s) && AtMost(k, 0, s, es)
    ensures ReactivationsFrom(After(s, es), 0, 0) == r && FailuresFrom(After(s, es), 0, 0) == 4 + k * (1 + r)
  {
    hide Step;
    s := State(Db([User(1, CUSTOMER, ACTIVE, 0, false, None)], [], map[], map[], {}, [], [], [], 0), []);
    var es1, s1 := FourFailures(s, k);
    var es2, s2 := Attain(s1, k, r);
    Then(s, es1, s1, es2, s2, k);
    es := es1 + es2;
    WindowCounted(s2, 0, 0);
  }

  /** An account is locked by its fifth failure, whatever was in flight, exactly when its logins come one at a
      time: then and only then no window of any run holds more than five failures and one per reactivation. */
  lemma LocksAtFiveIffAlone(k: nat)
    requires k >= 1
    ensures (forall s, es, u, from :: Initial(s) && AtMost(k, u, s, es) ==>
              FailuresFrom(After(s, es), u, from) <= 5 + ReactivationsFrom(After(s, es), u, from))
       <==> k == 1
  {
    hide Step;
    if k == 1 {
      forall s, es, u, from | Initial(s) && AtMost(k, u, s, es)
        ensures FailuresFrom(After(s, es), u, from) <= 5 + ReactivationsFrom(After(s, es), u, from)
      {
        SequentialLoginsLockAtFive(s, es, u, from);
      }
    } else {
      var s, es := BoundIsReached(k, 0);
      assert FailuresFrom(After(s, es), 0, 0) > 5 + ReactivationsFrom(After(s, es), 0, 0);
    }
  }
}
