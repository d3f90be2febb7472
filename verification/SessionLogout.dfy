/** When a logout is final: the exact condition on the state in which its statement begins. */
module SessionLogout {
  import opened Prelude
  import opened SessionModel
  import opened SessionRaces
  import opened SessionSafety
  import opened SessionTheorems
  import opened SessionSchedules

  /** A successor dated `since` is out of grace or expired at `now`. */
  predicate Stale(since: nat, now: nat, ttl: nat) { since + REFRESH_REUSE_GRACE <= now || since + ttl <= now }

  /** At `now` the session of `t` is spent, or it is expired and each refresh in flight that can consume it began so
      long before that its successor is stale. */
  ghost predicate Secure(s: State, t: Token, now: nat) {
    t in s.rows &&
    (s.rows[t].revoked
     || (s.rows[t].expiresAt <= now && forall y :: y in s.txns && Wants(s.rows, s.txns[y], t) ==>
       Stale(Since(s.txns[y]), now, s.ttl)))
  }

  /** The refresh succeeds with this step. */
  predicate Succeeds(st: Step, y: TxnId) { (st.CommitRotation? || st.TryGrace?) && st.x == y }

  ghost predicate NeverSucceeds(s: State, y: TxnId) {
    forall steps, s', st :: Along(s, steps, s', y, {}) && Enabled(s', st) ==> !Succeeds(st, y)
  }

  /** No refresh of `t` that begins now can succeed. */
  ghost predicate LockedOut(s: State, t: Token) {
    forall y :: Enabled(s, Present(y, t)) ==> NeverSucceeds(Apply(s, Present(y, t)), y)
  }

  /** However the logout goes on to commit, no refresh of `t` that begins after it can succeed, in any continuation. */
  ghost predicate FinalLogout(s: State, x: TxnId, t: Token) {
    forall mid, s1, after, s2 ::
      Along(s, mid, s1, x, {}) && Enabled(s1, LogoutDone(x)) && Runs(Apply(s1, LogoutDone(x)), after, s2) ==>
        LockedOut(s2, t)
  }

  // ----- While the statement waits -----

  /** Successors of `t` are closed, about to be, or useless to a refresh that begins at `floor` or later. */
  ghost predicate Harmless(s: State, t: Token, floor: nat, base: set<Token>) {
    forall a :: a in s.rows && s.rows[a].prev == Some(t) ==>
      s.rows[a].revoked || a in base || s.rows[a].rotatedAt + REFRESH_REUSE_GRACE <= floor
        || s.rows[a].expiresAt <= floor
  }

  ghost predicate Barring(s: State, x: TxnId, t: Token, floor: nat) {
    && floor <= s.now && x in s.txns && s.txns[x].LoggingOut? && s.txns[x].t == t
    && Secure(s, t, floor) && Harmless(s, t, floor, s.txns[x].sweep.base)
  }

  lemma LogoutBegins(s: State, x: TxnId, t: Token)
    requires Inv(s) && Enabled(s, LogoutStart(x, t)) && Secure(s, t, s.now)
    ensures Barring(Apply(s, LogoutStart(x, t)), x, t, s.now)
  {
  }

  /** What a rotation of `t` inserts is dated by its transaction. */
  lemma RotationIsDated(s: State, y: TxnId)
    requires Inv(s) && TimesOk(s) && y in s.txns && s.txns[y].Rotating?
    ensures var r := s.txns[y];
      r.spent in s.rows && !s.rows[r.spent].revoked && r.next !in s.rows
      && r.session.prev == Some(r.spent) && r.session.rotatedAt == Since(r) && r.session.expiresAt == Since(r) + s.ttl
  {
    assert TxnOk(s.rows, s.now, s.txns[y]);
  }

  lemma ClaimsStay(s: State, st: Step, t: Token, floor: nat)
    requires Inv(s) && TimesOk(s) && Enabled(s, st) && Secure(s, t, floor) && floor <= s.now
    ensures Secure(Apply(s, st), t, floor)
  {
    hide Inv, TimesOk, LogoutRows, OpenRowsOf, Answers, HopStarted, HopEnded, Locks;
    if st.CommitRotation? { RotationIsDated(s, st.x); }
  }

  lemma SuccessorsStay(s: State, st: Step, t: Token, floor: nat, base: set<Token>)
    requires Inv(s) && TimesOk(s) && Enabled(s, st) && Secure(s, t, floor) && Harmless(s, t, floor, base)
      && floor <= s.now
    ensures Harmless(Apply(s, st), t, floor, base)
  {
    hide Inv, TimesOk, LogoutRows, OpenRowsOf, Answers, HopStarted, HopEnded, Locks, Consumable, Taken;
    if st.CommitRotation? { RotationIsDated(s, st.x); }
  }

  lemma BarringStays(s: State, st: Step, x: TxnId, t: Token, floor: nat)
    requires Inv(s) && TimesOk(s) && Enabled(s, st) && !Ends(st, x) && Barring(s, x, t, floor)
    ensures Barring(Apply(s, st), x, t, floor)
  {
    hide Inv, TimesOk, Harmless, Secure, HopStarted, HopEnded, Consumable, Taken, Revoked;
    ClaimsStay(s, st, t, floor);
    SuccessorsStay(s, st, t, floor, s.txns[x].sweep.base);
  }

  /** After the logout: `t` is spent and no successor of it answers a refresh that begins at `floor` or later. */
  ghost predicate Barred(s: State, t: Token, floor: nat) {
    floor <= s.now && t in s.rows && s.rows[t].revoked && Harmless(s, t, floor, {})
  }

  lemma LogoutBars(s: State, x: TxnId, t: Token, floor: nat)
    requires Inv(s) && Enabled(s, LogoutDone(x)) && Barring(s, x, t, floor)
    ensures Barred(Apply(s, LogoutDone(x)), t, floor)
  {
    assert TxnOk(s.rows, s.now, s.txns[x]);
  }

  lemma BarredStays(s: State, st: Step, t: Token, floor: nat)
    requires Inv(s) && TimesOk(s) && Enabled(s, st) && Barred(s, t, floor)
    ensures Barred(Apply(s, st), t, floor)
  {
    hide Inv, TimesOk, Harmless, HopStarted, HopEnded, Consumable, Taken;
    if st.CommitRotation? { RotationIsDated(s, st.x); }
    SuccessorsStay(s, st, t, floor, {});
  }

  lemma {:induction false} BarredForever(s: State, steps: seq<Step>, s': State, t: Token, floor: nat)
    requires Inv(s) && TimesOk(s) && Runs(s, steps, s') && Barred(s, t, floor)
    ensures Inv(s') && TimesOk(s') && Barred(s', t, floor)
    decreases |steps|
  {
    hide Inv, TimesOk, Barred, Enabled, Apply;
    if steps != [] {
      StepKeeps(s, steps[0]);
      TimesStay(s, steps[0]);
      BarredStays(s, steps[0], t, floor);
      BarredForever(Apply(s, steps[0]), steps[1..], s', t, floor);
    }
  }

  lemma TimesStay(s: State, st: Step)
    requires TimesOk(s) && Enabled(s, st)
    ensures TimesOk(Apply(s, st))
  {
    Stop(Apply(s, st), 0, {});
    assert Runs(s, [st], Apply(s, st));
    RunKeepsTimes(s, [st], Apply(s, st));
  }

  lemma {:induction false} BarringAlong(s: State, steps: seq<Step>, s': State, x: TxnId, t: Token, floor: nat)
    requires Inv(s) && TimesOk(s) && Along(s, steps, s', x, {}) && Barring(s, x, t, floor)
    ensures Inv(s') && TimesOk(s') && Barring(s', x, t, floor)
    decreases |steps|
  {
    hide Inv, TimesOk, Barring, Enabled, Apply;
    if steps != [] {
      AlongTail(s, steps, s', x, {});
      StepKeeps(s, steps[0]);
      TimesStay(s, steps[0]);
      BarringStays(s, steps[0], x, t, floor);
      BarringAlong(Apply(s, steps[0]), steps[1..], s', x, t, floor);
    }
  }

  // ----- A later refresh -----

  /** A refresh of `t` that began at `floor` or later and has not consumed the session. */
  ghost predicate Late(s: State, y: TxnId, t: Token, floor: nat) {
    y in s.txns && !s.txns[y].Rotating? && !s.txns[y].LoggingOut? && s.txns[y].t == t
    && (s.txns[y].Arrived? || s.txns[y].Waiting? || s.txns[y].Refused? ==> s.txns[y].at >= floor)
  }

  lemma LateStays(s: State, st: Step, y: TxnId, t: Token, floor: nat)
    requires Enabled(s, st) && Barred(s, t, floor) && Late(s, y, t, floor) && !Ends(st, y)
    ensures Late(Apply(s, st), y, t, floor)
  {
    hide Harmless, HopStarted, HopEnded, Answers, LogoutRows, OpenRowsOf, Revoked;
  }

  lemma {:induction false} LateAlong(s: State, steps: seq<Step>, s': State, y: TxnId, t: Token, floor: nat)
    requires Inv(s) && TimesOk(s) && Along(s, steps, s', y, {}) && Barred(s, t, floor) && Late(s, y, t, floor)
    ensures Inv(s') && Barred(s', t, floor) && Late(s', y, t, floor)
    decreases |steps|
  {
    hide Inv, TimesOk, Barred, Late, Enabled, Apply;
    if steps != [] {
      AlongTail(s, steps, s', y, {});
      StepKeeps(s, steps[0]);
      TimesStay(s, steps[0]);
      BarredStays(s, steps[0], t, floor);
      LateStays(s, steps[0], y, t, floor);
      LateAlong(Apply(s, steps[0]), steps[1..], s', y, t, floor);
    }
  }

  lemma LateFails(s: State, st: Step, y: TxnId, t: Token, floor: nat)
    requires Inv(s) && Enabled(s, st) && Barred(s, t, floor) && Late(s, y, t, floor)
    ensures !Succeeds(st, y)
  {
    hide Linear, TxnsOk, Apart, GrantsOk, Answers;
    if st.TryGrace? && st.x == y { GraceAnswer(s.rows, s.active, t, s.txns[y].at, st.r); }
  }

  lemma BarredLocksOut(s: State, t: Token, floor: nat)
    requires Inv(s) && TimesOk(s) && Barred(s, t, floor)
    ensures LockedOut(s, t)
  {
    hide Inv, TimesOk, Barred, Late, Along, Succeeds;
    forall y | Enabled(s, Present(y, t)) ensures NeverSucceeds(Apply(s, Present(y, t)), y) {
      var s0 := Apply(s, Present(y, t));
      LateBegins(s, y, t, floor);
      forall steps, s', st | Along(s0, steps, s', y, {}) && Enabled(s', st) ensures !Succeeds(st, y) {
        LateAlong(s0, steps, s', y, t, floor);
        LateFails(s', st, y, t, floor);
      }
    }
  }

  lemma LateBegins(s: State, y: TxnId, t: Token, floor: nat)
    requires Inv(s) && TimesOk(s) && Barred(s, t, floor) && Enabled(s, Present(y, t))
    ensures var s' := Apply(s, Present(y, t)); Inv(s') && TimesOk(s') && Barred(s', t, floor) && Late(s', y, t, floor)
  {
    hide Inv, TimesOk;
    StepKeeps(s, Present(y, t));
    TimesStay(s, Present(y, t));
    BarredStays(s, Present(y, t), t, floor);
  }

  /** A logout whose statement begins in a secure state is final: in no continuation does a later refresh of the token
      succeed. */
  lemma LogoutIsFinal(s: State, x: TxnId, t: Token, mid: seq<Step>, s1: State, after: seq<Step>, s2: State)
    requires Inv(s) && TimesOk(s) && Enabled(s, LogoutStart(x, t)) && Secure(s, t, s.now)
    requires Along(Apply(s, LogoutStart(x, t)), mid, s1, x, {}) && Enabled(s1, LogoutDone(x))
      && Runs(Apply(s1, LogoutDone(x)), after, s2)
    ensures LockedOut(s2, t)
  {
    hide Inv, TimesOk, Secure, Barring, Barred, LockedOut, Runs, Along;
    LogoutBegins(s, x, t);
    StepKeeps(s, LogoutStart(x, t));
    TimesStay(s, LogoutStart(x, t));
    BarringAlong(Apply(s, LogoutStart(x, t)), mid, s1, x, t, s.now);
    LogoutBars(s1, x, t, s.now);
    StepKeeps(s1, LogoutDone(x));
    TimesStay(s1, LogoutDone(x));
    BarredForever(Apply(s1, LogoutDone(x)), after, s2, t, s.now);
    BarredLocksOut(s2, t, s.now);
  }

  // ----- When it is not -----

  /** A refresh with the logged-out token begins after the logout and is answered with the successor `n`. */
  lemma StillAnswers(s: State, t: Token, n: Token)
    requires Inv(s) && s.txns == map[] && t in s.rows && s.rows[t].revoked
    requires n in s.rows && s.rows[n].user in s.active && !Stale(s.rows[n].rotatedAt, s.now, s.ttl)
    requires s.rows[n] == Successor(s.rows[n].id, s.rows[n].user, t, n, s.rows[n].rotatedAt, s.ttl)
    ensures !LockedOut(s, t)
  {
    hide CopiesOwn, TxnsOk, GrantsOk, Apart;
    var s0 := Apply(s, Present(0, t));
    var s1 := Apply(s0, TryUpdate(0));
    Stop(s0, 0, {});
    GoesOn(s0, [], s0, 0, {}, TryUpdate(0));
    assert Graced(s.rows, s.active, t, s.now) == {n};
    assert Decrypt(s.rows[n].id, s.rows[n].grace.value) == Some(n);
    assert Enabled(s1, TryGrace(0, n)) && Succeeds(TryGrace(0, n), 0);
    assert !NeverSucceeds(s0, 0);
    assert Enabled(s, Present(0, t));
  }

  /** The logout's statement waits for row `t`, and a refresh in flight or still to come can hand out a usable
      successor. */
  ghost predicate Overtakable(s: State, x: TxnId, t: Token) {
    && Inv(s) && TimesOk(s) && s.ttl > 0 && x in s.txns && t in s.rows && !s.rows[t].revoked && !Secure(s, t, s.now)
    && s.txns[x] == LoggingOut(t, Sweep(s.rows.Keys, {t}, {t}))
  }

  lemma LogoutWaits(s: State, x: TxnId, t: Token)
    requires Inv(s) && TimesOk(s) && s.ttl > 0 && Enabled(s, LogoutStart(x, t)) && t in s.rows && !Secure(s, t, s.now)
    ensures Overtakable(Apply(s, LogoutStart(x, t)), x, t)
  {
    var s' := Apply(s, LogoutStart(x, t));
    assert LogoutRows(s.rows, t, s.now) == {t};
    hide Inv, LogoutRows;
    StepKeeps(s, LogoutStart(x, t));
    TimesStay(s, LogoutStart(x, t));
    if s.rows[t].expiresAt <= s.now {
      var y :| y in s.txns && Wants(s.rows, s.txns[y], t) && !Stale(Since(s.txns[y]), s.now, s.ttl);
      assert y in s'.txns && Wants(s'.rows, s'.txns[y], t);
    }
  }

  /** Everybody else gives up, the user is active, and a refresh is about to consume row `t`. */
  ghost predicate Claiming(s: State, s': State, x: TxnId, t: Token, y: TxnId) {
    && x in s.txns && y != x && s'.txns.Keys == {x, y} && s'.txns[x] == s.txns[x]
      && s' == s.(txns := s'.txns, active := s'.active)
    && Wants(s'.rows, s'.txns[y], t) && s'.rows[t].user in s'.active && !Stale(Since(s'.txns[y]), s.now, s.ttl)
  }

  lemma Claims(s: State, x: TxnId, t: Token) returns (steps: seq<Step>, s': State, y: TxnId)
    requires Overtakable(s, x, t)
    ensures Along(s, steps, s', x, {}) && Claiming(s, s', x, t, y)
  {
    hide Inv, TimesOk, Along, Runs, Stale;
    Stop(s, x, {});
    NotYetStale(s.now, s.ttl);
    var z := x;
    if y :| y in s.txns && Wants(s.rows, s.txns[y], t) && !Stale(Since(s.txns[y]), s.now, s.ttl) { z := y; }
    assert z != x ==> Wants(s.rows, s.txns[z], t);
    steps, s', y := MakesWay(s, [], s, x, t, z, {});
  }

  lemma NotYetStale(now: nat, ttl: nat)
    requires ttl > 0
    ensures !Stale(now, now, ttl)
  {
  }

  /** The rotation commits, the logout gets its lock and finds nothing to revoke, and the successor stays usable. */
  lemma LogoutIsOvertaken(s: State, x: TxnId, t: Token)
    requires Overtakable(s, x, t)
    ensures !FinalLogout(s, x, t)
  {
    hide Along, Runs, Inv, TimesOk, Stale, LockedOut, Locks, Enabled, Apply;
    var mid, s1, y := Claims(s, x, t);
    var since := Since(s1.txns[y]);
    assert t !in Locks(s1.txns[x]) by { NoLocksYet(s, x, t); }
    var id, n;
    mid, s1, id, n := Rotates(s, mid, s1, x, y, t, {});
    mid, s1 := LocksAll(s, mid, s1, x, {});
    RunsKeep(s, mid, s1, x, {});
    var s2 := LogoutLeaves(s1, x, t, id, n, since);
    Stop(s2, x, {});
    StillAnswers(s2, t, n);
  }

  lemma NoLocksYet(s: State, x: TxnId, t: Token)
    requires Overtakable(s, x, t)
    ensures t !in Locks(s.txns[x])
  {
  }

  lemma LogoutLeaves(s: State, x: TxnId, t: Token, id: SessionId, n: Token, since: nat) returns (s': State)
    requires Inv(s) && s.txns.Keys == {x} && s.txns[x].LoggingOut? && s.txns[x].sweep.base == {t}
      && s.txns[x].sweep.pending == {}
    requires t in s.rows && s.rows[t].revoked && n != t && n in s.rows && s.rows[n].user in s.active
    requires s.rows[n] == Successor(id, s.rows[n].user, t, n, since, s.ttl)
    ensures Enabled(s, LogoutDone(x)) && s' == Apply(s, LogoutDone(x)) && Inv(s') && s'.txns == map[] && s'.now == s.now
      && s'.ttl == s.ttl
    ensures s'.active == s.active && t in s'.rows && s'.rows[t].revoked && n in s'.rows && s'.rows[n] == s.rows[n]
  {
    hide Inv;
    s' := Apply(s, LogoutDone(x));
    StepKeeps(s, LogoutDone(x));
  }

  /** Logout, exactly: judged when its statement begins, it is final iff the session of the token is spent, or is
      expired and no refresh of it in flight began within both the grace window and the session lifetime. */
  lemma WhenLogoutIsFinal(active: set<UserId>, ttl: nat, before: seq<Step>, s: State, x: TxnId, t: Token)
    requires Runs(Init(active, ttl), before, s) && Enabled(s, LogoutStart(x, t)) && t in s.rows && ttl > 0
    ensures Secure(s, t, s.now) <==> FinalLogout(Apply(s, LogoutStart(x, t)), x, t)
  {
    var s0 := Apply(s, LogoutStart(x, t));
    hide Runs, Along, Inv, TimesOk, LockedOut, Secure, Overtakable;
    Reached(active, ttl, before, s);
    if Secure(s, t, s.now) {
      forall mid, s1, after, s2 | Along(s0, mid, s1, x, {}) && Enabled(s1, LogoutDone(x))
        && Runs(Apply(s1, LogoutDone(x)), after, s2)
        ensures LockedOut(s2, t)
      {
        LogoutIsFinal(s, x, t, mid, s1, after, s2);
      }
    } else {
      LogoutWaits(s, x, t);
      LogoutIsOvertaken(s0, x, t);
    }
  }
}
