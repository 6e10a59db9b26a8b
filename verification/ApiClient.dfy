/** One browser tab's token refresh: the stored session, the single refresh in flight, and the requests that
    wait for it, while logins, logouts and other tabs change the stored session. */
module ApiClient {
  import opened Sums

  datatype Session = Session(user: nat, access: nat, refresh: nat, demo: bool)

  datatype Tokens = Tokens(access: nat, refresh: nat)

  datatype Phase =
    | Sent
    /** Waiting for the refresh; the refresh token seen when the 401 came. */
    | Waiting(attempted: nat)
    /** The refresh ended; the new access token, or None for a failure. */
    | Resuming(attempted: nat, access: Option<nat>)
    | Finished(ok: bool)

  datatype Request = Request(skipRefresh: bool, retried: bool, sends: nat, phase: Phase)

  /** `refreshing` is the refresh token sent by the refresh in flight; `posts` counts refresh calls on the wire. */
  datatype Tab = Tab(stored: Option<Session>, refreshing: Option<nat>, posts: nat, requests: seq<Request>)

  datatype Event =
    | Store(session: Session)
    | Clear
    | Send(skipRefresh: bool)
    | Answer(r: nat, unauthorized: bool)
    | RefreshAnswer(tokens: Option<Tokens>)
    | Resume(r: nat)

  function Go(t: Tab, r: nat, phase: Phase): Tab
    requires r < |t.requests|
  {
    t.(requests := t.requests[r := t.requests[r].(phase := phase)])
  }

  /** Drop the session, unless it no longer holds the token the caller had seen. */
  function Expire(t: Tab, expected: nat): Tab {
    if t.stored.Some? && t.stored.value.refresh == expected then t.(stored := None) else t
  }

  /** The 401 interceptor, up to its wait. */
  function Unauthorized(t: Tab, r: nat): Tab
    requires r < |t.requests|
  {
    var request := t.requests[r];
    if request.skipRefresh || t.stored.None? || t.stored.value.demo then Go(t, r, Finished(false))
    else
      var seen := t.stored.value.refresh;
      if request.retried then Go(Expire(t, seen), r, Finished(false))
      else
        var waiting := t.(requests := t.requests[r := request.(retried := true, phase := Waiting(seen))]);
        if t.refreshing.Some? then waiting else waiting.(refreshing := Some(seen), posts := t.posts + 1)
  }

  /** Every waiting request gets the promise's result. */
  function Settle(requests: seq<Request>, access: Option<nat>): seq<Request> {
    seq(|requests|, i requires 0 <= i < |requests| =>
      if requests[i].phase.Waiting? then requests[i].(phase := Resuming(requests[i].phase.attempted, access))
      else requests[i])
  }

  /** The refresh call returns; its tokens count only if the stored session is still the one it was sent for. */
  function Refreshed(t: Tab, tokens: Option<Tokens>): Tab
    requires t.refreshing.Some? && t.posts > 0
  {
    var t' := t.(refreshing := None, posts := t.posts - 1);
    if tokens.None? || t.stored.None? then t'.(requests := Settle(t.requests, None))
    else if t.stored.value.refresh != t.refreshing.value then
      t'.(requests := Settle(t.requests, Some(t.stored.value.access)))
    else
      t'.(stored := Some(t.stored.value.(access := tokens.value.access, refresh := tokens.value.refresh)),
          requests := Settle(t.requests, Some(tokens.value.access)))
  }

  /** A waiter goes on: send again, or expire the session it had seen. */
  function Resumed(t: Tab, r: nat): Tab
    requires r < |t.requests| && t.requests[r].phase.Resuming?
  {
    var request := t.requests[r];
    if request.phase.access.Some? then
      t.(requests := t.requests[r := request.(sends := request.sends + 1, phase := Sent)])
    else Go(Expire(t, request.phase.attempted), r, Finished(false))
  }

  /** An event that cannot happen now changes nothing. */
  function Step(t: Tab, e: Event): Tab {
    match e
    case Store(session) => t.(stored := Some(session))
    case Clear => t.(stored := None)
    case Send(skip) => t.(requests := t.requests + [Request(skip, false, 1, Sent)])
    case Answer(r, unauthorized) =>
      if r >= |t.requests| || !t.requests[r].phase.Sent? then t
      else if unauthorized then Unauthorized(t, r) else Go(t, r, Finished(true))
    case RefreshAnswer(tokens) => if t.refreshing.None? || t.posts == 0 then t else Refreshed(t, tokens)
    case Resume(r) => if r < |t.requests| && t.requests[r].phase.Resuming? then Resumed(t, r) else t
  }

  ghost function After(t: Tab, es: seq<Event>): Tab {
    if es == [] then t else Step(After(t, es[..|es| - 1]), es[|es| - 1])
  }

  const NEW_TAB := Tab(None, None, 0, [])

  // ---- Single flight, and at most one retry ----

  ghost predicate RequestOk(t: Tab, request: Request) {
    && 1 <= request.sends <= 2 && (request.retried || request.sends == 1)
    && (request.phase.Waiting? ==> request.retried && request.sends == 1 && t.refreshing.Some?)
    && (request.phase.Resuming? ==> request.retried && request.sends == 1)
  }

  ghost predicate Inv(t: Tab) {
    && t.posts == (if t.refreshing.Some? then 1 else 0)
    && forall r :: 0 <= r < |t.requests| ==> RequestOk(t, t.requests[r])
  }

  lemma StepKeeps(t: Tab, e: Event)
    requires Inv(t)
    ensures Inv(Step(t, e))
  {
    var t' := Step(t, e);
    forall r | 0 <= r < |t'.requests| ensures RequestOk(t', t'.requests[r]) {
      if r < |t.requests| { assert RequestOk(t, t.requests[r]); }
    }
  }

  lemma {:induction false} RunKeeps(t: Tab, es: seq<Event>)
    requires Inv(t)
    ensures Inv(After(t, es))
  {
    if es != [] {
      RunKeeps(t, es[..|es| - 1]);
      StepKeeps(After(t, es[..|es| - 1]), es[|es| - 1]);
    }
  }

  /** In every run at most one refresh call is on the wire, and every request is sent at most twice. */
  lemma {:induction false} SingleFlight(es: seq<Event>)
    ensures Inv(After(NEW_TAB, es))
    ensures After(NEW_TAB, es).posts <= 1
    ensures forall r :: 0 <= r < |After(NEW_TAB, es).requests| ==> After(NEW_TAB, es).requests[r].sends <= 2
  {
    RunKeeps(NEW_TAB, es);
    var t := After(NEW_TAB, es);
    forall r | 0 <= r < |t.requests| ensures t.requests[r].sends <= 2 { assert RequestOk(t, t.requests[r]); }
  }

  /** Every waiter is told of the answer: a failure if it failed or no session is stored any more, otherwise the access
      token of the session stored now; no other request is. */
  ghost predicate WaitersTold(t: Tab, t': Tab, tokens: Option<Tokens>) {
    && |t'.requests| == |t.requests|
    && forall r :: 0 <= r < |t.requests| ==>
         match t.requests[r].phase
         case Waiting(seen) =>
           t'.requests[r] == t.requests[r].(phase := Resuming(seen,
             if tokens.None? || t'.stored.None? then None else Some(t'.stored.value.access)))
         case _ => t'.requests[r] == t.requests[r]
  }

  // ---- Success never overwrites a newer session ----

  /** The refresh result is stored exactly when the stored session still holds the token that was sent, and
      then only its two tokens change; after a logout or a newer login it changes nothing. */
  lemma StoredOnlyForTheSessionSent(t: Tab, tokens: Option<Tokens>)
    requires Inv(t) && t.refreshing.Some?
    ensures var t' := Step(t, RefreshAnswer(tokens));
            && (tokens.Some? && t.stored.Some? && t.stored.value.refresh == t.refreshing.value ==>
                 t'.stored == Some(Session(t.stored.value.user, tokens.value.access, tokens.value.refresh,
                                           t.stored.value.demo)))
            && (tokens.None? || t.stored.None? || t.stored.value.refresh != t.refreshing.value ==>
                 t'.stored == t.stored)
            && (forall r :: 0 <= r < |t.requests| ==> !t'.requests[r].phase.Waiting?)
            && t'.refreshing.None? && t'.posts == 0
            && WaitersTold(t, t', tokens)
  {
  }

  ghost predicate NoAnswer(es: seq<Event>) { forall i :: 0 <= i < |es| ==> !es[i].RefreshAnswer? }

  /** A refresh starts with the token stored at that moment. */
  lemma StartsForStored(t: Tab, e: Event)
    requires t.refreshing.None? && Step(t, e).refreshing.Some?
    ensures t.stored.Some? && Step(t, e).refreshing == Some(t.stored.value.refresh)
  {
  }

  lemma {:induction false} FlightGoesOn(t: Tab, es: seq<Event>)
    requires t.refreshing.Some? && NoAnswer(es)
    ensures After(t, es).refreshing == t.refreshing
  {
    if es != [] { FlightGoesOn(t, es[..|es| - 1]); }
  }

  /** Whatever happens in the tab while a refresh is in flight, its answer leaves the session stored by then as it
      is if there is none or it no longer holds the token the refresh was started with; otherwise a success
      changes exactly the two tokens, and a failure nothing. */
  lemma SuccessNeverOverwrites(before: seq<Event>, e: Event, during: seq<Event>, tokens: Option<Tokens>)
    requires After(NEW_TAB, before).refreshing.None? && Step(After(NEW_TAB, before), e).refreshing.Some?
    requires NoAnswer(during)
    ensures After(NEW_TAB, before).stored.Some?
    ensures var sent := After(NEW_TAB, before).stored.value.refresh;
            var t := After(Step(After(NEW_TAB, before), e), during);
            var t' := Step(t, RefreshAnswer(tokens));
            && t.refreshing == Some(sent) && t'.refreshing.None? && WaitersTold(t, t', tokens)
            && if t.stored.None? || t.stored.value.refresh != sent || tokens.None? then t'.stored == t.stored
               else t'.stored == Some(Session(t.stored.value.user, tokens.value.access, tokens.value.refresh,
                                              t.stored.value.demo))
  {
    hide Step;
    var started := Step(After(NEW_TAB, before), e);
    StartsForStored(After(NEW_TAB, before), e);
    FlightGoesOn(started, during);
    RunKeeps(NEW_TAB, before);
    StepKeeps(After(NEW_TAB, before), e);
    RunKeeps(started, during);
    StoredOnlyForTheSessionSent(After(started, during), tokens);
  }

  // ---- When the interceptor drops the session ----

  /** The two ways: a request sent again meets another 401, or a waiter of a failed refresh had seen the token
      that is stored now. */
  predicate Drops(t: Tab, e: Event) {
    && t.stored.Some?
    && match e
       case Answer(r, unauthorized) =>
         && r < |t.requests| && t.requests[r].phase.Sent? && unauthorized
         && t.requests[r].retried && !t.requests[r].skipRefresh && !t.stored.value.demo
       case Resume(r) => r < |t.requests| && t.requests[r].phase == Resuming(t.stored.value.refresh, None)
       case _ => false
  }

  ghost predicate LeftAlone(es: seq<Event>) { forall i :: 0 <= i < |es| ==> !es[i].Store? && !es[i].Clear? }

  lemma DropsIff(t: Tab, e: Event)
    requires !e.Store? && !e.Clear?
    ensures Step(t, e).stored.None? <==> t.stored.None? || Drops(t, e)
  {
  }

  /** While no login or logout touches it, a stored session is gone at the end of a run exactly when one of these
      two steps happened in it; refreshes, successful or not, and other requests never remove it. */
  lemma {:induction false} SessionGoneIff(t: Tab, es: seq<Event>)
    requires t.stored.Some? && LeftAlone(es)
    ensures After(t, es).stored.None? <==> exists i :: 0 <= i < |es| && Drops(After(t, es[..i]), es[i])
  {
    hide Step, Drops;
    if es != [] {
      var n := |es| - 1;
      SessionGoneIff(t, es[..n]);
      DropsIff(After(t, es[..n]), es[n]);
      assert forall i :: 0 <= i < n ==> es[..n][..i] == es[..i];
      if i :| 0 <= i < n && Drops(After(t, es[..n][..i]), es[..n][i]) {
        assert Drops(After(t, es[..i]), es[i]);
      } else if After(t, es).stored.None? {
        assert Drops(After(t, es[..n]), es[n]);
      }
    }
  }

  // ---- Failure can ----

  function ResumeAll(rs: seq<nat>): seq<Event> { seq(|rs|, i requires 0 <= i < |rs| => Resume(rs[i])) }

  /** Some of these waiters had seen this refresh token when their 401 came. */
  ghost predicate SomeSaw(t: Tab, rs: seq<nat>, token: nat) {
    exists i :: 0 <= i < |rs| && rs[i] < |t.requests| && t.requests[rs[i]].phase == Resuming(token, None)
  }

  ghost predicate AllFailed(t: Tab, rs: seq<nat>) {
    && (forall i :: 0 <= i < |rs| ==>
         rs[i] < |t.requests| && t.requests[rs[i]].phase.Resuming? && t.requests[rs[i]].phase.access.None?)
    && (forall i, j :: 0 <= i < j < |rs| ==> rs[i] != rs[j])
  }

  lemma ResumeOne(t: Tab, r: nat)
    requires r < |t.requests| && t.requests[r].phase.Resuming? && t.requests[r].phase.access.None?
    ensures var t' := Step(t, Resume(r));
            && t'.stored == (if t.stored.Some? && t.stored.value.refresh == t.requests[r].phase.attempted then None
                             else t.stored)
            && |t'.requests| == |t.requests|
            && forall q :: 0 <= q < |t.requests| && q != r ==> t'.requests[q] == t.requests[q]
  {
  }

  lemma SawLast(t: Tab, rs: seq<nat>, token: nat)
    requires AllFailed(t, rs) && rs != []
    ensures SomeSaw(t, rs, token)
       <==> SomeSaw(t, rs[..|rs| - 1], token) || t.requests[rs[|rs| - 1]].phase.attempted == token
  {
    var n := |rs| - 1;
    if SomeSaw(t, rs[..n], token) {
      var i :| 0 <= i < n && rs[i] < |t.requests| && t.requests[rs[i]].phase == Resuming(token, None);
      assert t.requests[rs[i]].phase == Resuming(token, None);
    }
    if t.requests[rs[n]].phase.attempted == token { assert t.requests[rs[n]].phase == Resuming(token, None); }
    if SomeSaw(t, rs, token) {
      var i :| 0 <= i < |rs| && rs[i] < |t.requests| && t.requests[rs[i]].phase == Resuming(token, None);
      if i < n { assert rs[..n][i] == rs[i]; }
    }
  }

  lemma {:induction false} ResumeEffect(t: Tab, rs: seq<nat>)
    requires AllFailed(t, rs) && t.stored.Some?
    ensures var t' := After(t, ResumeAll(rs));
            && t'.stored == (if SomeSaw(t, rs, t.stored.value.refresh) then None else t.stored)
            && |t'.requests| == |t.requests|
            && forall r :: 0 <= r < |t.requests| && r !in rs ==> t'.requests[r] == t.requests[r]
  {
    if rs != [] {
      var n := |rs| - 1;
      ResumeEffect(t, rs[..n]);
      assert ResumeAll(rs)[..n] == ResumeAll(rs[..n]);
      var before := After(t, ResumeAll(rs[..n]));
      assert rs[n] !in rs[..n];
      assert before.requests[rs[n]] == t.requests[rs[n]];
      ResumeOne(before, rs[n]);
      SawLast(t, rs, t.stored.value.refresh);
    }
  }

  /** After a failed refresh the stored session is dropped exactly when some request waiting for it had seen
      that very session's refresh token: so a login made during the flight survives the failure of the older
      token's refresh if and only if no request of the new session had joined the wait. */
  lemma FailureDropsIffSeen(t: Tab, rs: seq<nat>)
    requires AllFailed(t, rs) && t.stored.Some?
    ensures After(t, ResumeAll(rs)).stored.None? <==> SomeSaw(t, rs, t.stored.value.refresh)
    ensures After(t, ResumeAll(rs)).stored.Some? ==> After(t, ResumeAll(rs)).stored == t.stored
  {
    ResumeEffect(t, rs);
  }

  /** Event e of a run leads from t to u. */
  lemma Next(es: seq<Event>, t: Tab, e: Event, u: Tab)
    requires After(NEW_TAB, es) == t
    requires var v := Step(t, e);
             v.stored == u.stored && v.refreshing == u.refreshing && v.posts == u.posts && v.requests == u.requests
    ensures After(NEW_TAB, es + [e]) == u
  {
    assert (es + [e])[..|es|] == es;
  }

  const OLDER := Session(1, 11, 1, false)
  const NEWER := Session(2, 12, 2, false)

  /** A request of the older session waits for its refresh. */
  lemma OlderWaits() returns (es: seq<Event>)
    ensures es == [Store(OLDER), Send(false), Answer(0, true)]
    ensures After(NEW_TAB, es) == Tab(Some(OLDER), Some(1), 1, [Request(false, true, 1, Waiting(1))])
  {
    Next([], NEW_TAB, Store(OLDER), Tab(Some(OLDER), None, 0, []));
    es := [] + [Store(OLDER)];
    var sent := Request(false, false, 1, Sent);
    Next(es, Tab(Some(OLDER), None, 0, []), Send(false), Tab(Some(OLDER), None, 0, [sent]));
    es := es + [Send(false)];
    Next(es, Tab(Some(OLDER), None, 0, [sent]), Answer(0, true),
         Tab(Some(OLDER), Some(1), 1, [Request(false, true, 1, Waiting(1))]));
    es := es + [Answer(0, true)];
  }

  /** A newer login is stored, and one of its requests joins the wait. */
  lemma NewerJoins() returns (es: seq<Event>)
    ensures es == [Store(OLDER), Send(false), Answer(0, true), Store(NEWER), Send(false), Answer(1, true)]
    ensures After(NEW_TAB, es)
         == Tab(Some(NEWER), Some(1), 1, [Request(false, true, 1, Waiting(1)), Request(false, true, 1, Waiting(2))])
  {
    es := OlderWaits();
    var older, sent := Request(false, true, 1, Waiting(1)), Request(false, false, 1, Sent);
    Next(es, Tab(Some(OLDER), Some(1), 1, [older]), Store(NEWER), Tab(Some(NEWER), Some(1), 1, [older]));
    es := es + [Store(NEWER)];
    Next(es, Tab(Some(NEWER), Some(1), 1, [older]), Send(false), Tab(Some(NEWER), Some(1), 1, [older, sent]));
    es := es + [Send(false)];
    Next(es, Tab(Some(NEWER), Some(1), 1, [older, sent]), Answer(1, true),
         Tab(Some(NEWER), Some(1), 1, [older, Request(false, true, 1, Waiting(2))]));
    es := es + [Answer(1, true)];
  }

  /** The stale refresh of token 1 fails after a login stored token 2 and one of its requests met a 401: the
      newer session is dropped although its own token was never refused a refresh. */
  lemma StaleFailureDropsNewerLogin() returns (es: seq<Event>)
    ensures es == [Store(OLDER), Send(false), Answer(0, true), Store(NEWER), Send(false), Answer(1, true),
                   RefreshAnswer(None), Resume(1)]
    ensures After(NEW_TAB, es[..7]).stored == Some(NEWER) && After(NEW_TAB, es).stored.None?
  {
    es := NewerJoins();
    var joined := After(NEW_TAB, es);
    var failed, newer := Request(false, true, 1, Resuming(1, None)), Request(false, true, 1, Resuming(2, None));
    Next(es, joined, RefreshAnswer(None), Tab(Some(NEWER), None, 0, [failed, newer]));
    es := es + [RefreshAnswer(None)];
    ghost var seven := es;
    Next(es, Tab(Some(NEWER), None, 0, [failed, newer]), Resume(1),
         Tab(None, None, 0, [failed, newer.(phase := Finished(false))]));
    es := es + [Resume(1)];
    assert es[..7] == seven;
  }

  /** No refresh has failed: the older session's request is sent again after a successful refresh, another user
      logs in, and the second 401 of that request drops the new session. */
  lemma SecondRefusalDropsNewerLogin() returns (es: seq<Event>)
    ensures es == [Store(OLDER), Send(false), Answer(0, true), RefreshAnswer(Some(Tokens(13, 3))), Resume(0),
                   Store(NEWER), Answer(0, true)]
    ensures After(NEW_TAB, es[..6]).stored == Some(NEWER) && After(NEW_TAB, es).stored.None?
  {
    es := OlderWaits();
    var again := Request(false, true, 2, Sent);
    var refreshed := Session(1, 13, 3, false);
    var resuming := Request(false, true, 1, Resuming(1, Some(13)));
    Next(es, Tab(Some(OLDER), Some(1), 1, [Request(false, true, 1, Waiting(1))]), RefreshAnswer(Some(Tokens(13, 3))),
         Tab(Some(refreshed), None, 0, [resuming]));
    es := es + [RefreshAnswer(Some(Tokens(13, 3)))];
    Next(es, Tab(Some(refreshed), None, 0, [resuming]), Resume(0), Tab(Some(refreshed), None, 0, [again]));
    es := es + [Resume(0)];
    Next(es, Tab(Some(refreshed), None, 0, [again]), Store(NEWER), Tab(Some(NEWER), None, 0, [again]));
    es := es + [Store(NEWER)];
    ghost var six := es;
    Next(es, Tab(Some(NEWER), None, 0, [again]), Answer(0, true),
         Tab(None, None, 0, [again.(phase := Finished(false))]));
    es := es + [Answer(0, true)];
    assert es[..6] == six;
  }

  // ---- The client as written ----

  class Client {
    var stored: Option<Session>
    var refreshing: Option<nat>
    var posts: nat
    var requests: seq<Request>

    constructor ()
      ensures Now() == NEW_TAB
    {
      stored, refreshing, posts, requests := None, None, 0, [];
    }

    function Now(): Tab
      reads this
    {
      Tab(stored, refreshing, posts, requests)
    }

    method ExpireSession(expected: nat)
      modifies this`stored
      ensures Now() == Expire(old(Now()), expected)
      ensures stored == if old(stored).Some? && old(stored).value.refresh == expected then None else old(stored)
    {
      if stored.None? || stored.value.refresh != expected {
        return;
      }
      stored := None;
    }

    /** Join the refresh in flight, or start one for the session stored now. */
    method RefreshAuthSession()
      requires stored.Some?
      modifies this`refreshing, this`posts
      ensures Now() == if old(refreshing).Some? then old(Now())
                       else old(Now()).(refreshing := Some(stored.value.refresh), posts := old(posts) + 1)
    {
      if refreshing.None? {
        posts := posts + 1;
        refreshing := Some(stored.value.refresh);
      }
    }

    method OnUnauthorized(r: nat)
      requires r < |requests| && requests[r].phase.Sent?
      modifies this
      ensures Now() == Step(old(Now()), Answer(r, true))
      ensures var was := old(requests)[r];
              var refused := was.skipRefresh || old(stored).None? || old(stored).value.demo;
              && requests == old(requests)[r :=
                   if refused || was.retried then was.(phase := Finished(false))
                   else was.(retried := true, phase := Waiting(old(stored).value.refresh))]
              && stored == (if !refused && was.retried then None else old(stored))
              && (refreshing, posts) == (if !refused && !was.retried && old(refreshing).None?
                                         then (Some(old(stored).value.refresh), old(posts) + 1)
                                         else (old(refreshing), old(posts)))
    {
      var config := requests[r];
      if config.skipRefresh {
        requests := requests[r := config.(phase := Finished(false))];
        return;
      }
      if stored.None? || stored.value.demo {
        requests := requests[r := config.(phase := Finished(false))];
        return;
      }
      if config.retried {
        ExpireSession(stored.value.refresh);
        requests := requests[r := config.(phase := Finished(false))];
        return;
      }
      requests := requests[r := config.(retried := true, phase := Waiting(stored.value.refresh))];
      RefreshAuthSession();
    }

    method CompleteRefresh(tokens: Option<Tokens>)
      requires refreshing.Some? && posts > 0
      modifies this
      ensures Now() == Step(old(Now()), RefreshAnswer(tokens))
    {
      var sent := refreshing.value;
      posts := posts - 1;
      var access := None;
      if tokens.Some? && stored.Some? {
        if stored.value.refresh != sent {
          access := Some(stored.value.access);
        } else {
          stored := Some(stored.value.(access := tokens.value.access, refresh := tokens.value.refresh));
          access := Some(tokens.value.access);
        }
      }
      refreshing := None;
      requests := Settle(requests, access);
    }

    method ResumeRequest(r: nat)
      requires r < |requests| && requests[r].phase.Resuming?
      modifies this
      ensures Now() == Step(old(Now()), Resume(r))
      ensures var was := old(requests)[r];
              match was.phase.access
              case Some(_) =>
                requests == old(requests)[r := was.(sends := was.sends + 1, phase := Sent)] && stored == old(stored)
              case None =>
                && requests == old(requests)[r := was.(phase := Finished(false))]
                && stored == if old(stored).Some? && old(stored).value.refresh == was.phase.attempted then None
                             else old(stored)
    {
      var config := requests[r];
      if config.phase.access.Some? {
        requests := requests[r := config.(sends := config.sends + 1, phase := Sent)];
      } else {
        ExpireSession(config.phase.attempted);
        requests := requests[r := config.(phase := Finished(false))];
      }
    }
  }
}
