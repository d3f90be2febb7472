/** When a refused refresh closes the family of its token for good: exact conditions on the state in which the walk, or
    the fallback, begins to look. */
module SessionRevocation {
  import opened Prelude
  import opened SessionModel
  import opened SessionRaces
  import opened SessionSafety
  import opened SessionTheorems
  import opened SessionSchedules

  /** The session of `a` is spent, or it is beyond a new refresh (expired, or its user is away) and none in flight can
      still consume it. */
  ghost predicate Uncontended(s: State, a: Token, still: set<UserId>) {
    a in s.rows &&
    (s.rows[a].revoked
     || ((s.rows[a].expiresAt <= s.now || Away(s, s.rows[a].user, still))
         && forall y :: y in s.txns ==> !CanConsume(s, s.txns[y], a, still)))
  }

  ghost predicate FamilyClosed(rows: Rows, t: Token) {
    forall a :: SameFamily(rows, t, a) ==> a in rows && rows[a].revoked
  }

  /** However the transaction goes on to commit with `done`, none of the users `still` being made active before that,
      the family of `t` is then closed, and in every continuation. */
  ghost predicate ClosesForGood(s: State, x: TxnId, t: Token, done: Step, still: set<UserId>) {
    forall mid, s1, after, s2 ::
      Along(s, mid, s1, x, still) && Enabled(s1, done) && Runs(Apply(s1, done), after, s2) ==> FamilyClosed(s2.rows, t)
  }

  // ----- What stays -----

  lemma UncontendedStays(s: State, st: Step, a: Token, still: set<UserId>)
    requires Inv(s) && Enabled(s, st) && !Restores(st, still) && Uncontended(s, a, still)
    ensures Uncontended(Apply(s, st), a, still) && Apply(s, st).rows[a].user == s.rows[a].user
  {
    hide CopiesOwn, Linear, Apart, GrantsOk, WalkOk, SweepsUser, SweepsLogout, HopStarted, HopEnded, LogoutRows,
      OpenRowsOf, Answers;
    if st.CommitRotation? { assert TxnOk(s.rows, s.now, s.txns[st.x]); }
    var s' := Apply(s, st);
    if !s.rows[a].revoked {
      forall y | y in s'.txns ensures !CanConsume(s', s'.txns[y], a, still) {
        if y in s.txns { assert !CanConsume(s, s.txns[y], a, still); }
      }
    }
  }

  /** So the session gets no successor. */
  lemma UncontendedHasNoRotation(s: State, a: Token, y: TxnId, still: set<UserId>)
    requires Inv(s) && Uncontended(s, a, still) && y in s.txns && s.txns[y].Rotating?
    ensures s.txns[y].spent != a
  {
    assert TxnOk(s.rows, s.now, s.txns[y]);
    assert !s.rows[a].revoked ==> !CanConsume(s, s.txns[y], a, still);
  }

  /** A set that is extinct and holds the session keeps the family closed. */
  lemma ExtinctIsClosed(s: State, steps: seq<Step>, s': State, t: Token, d: set<Token>)
    requires Inv(s) && Runs(s, steps, s') && Extinct(s, d) && t in d
    ensures FamilyClosed(s'.rows, t)
  {
    hide Linear, CopiesOwn, Apart, GrantsOk, TxnsOk, Runs;
    RunKeeps(s, steps, s');
    ExtinctForever(s, steps, s', d);
    ClosedHoldsDescendants(s'.rows, t, d);
    forall a | SameFamily(s'.rows, t, a) ensures a in s'.rows && s'.rows[a].revoked {
      FamilyIsALine(s'.rows, t, a);
    }
  }

  // ----- The walk -----

  function Found(w: Walk): set<Token> { w.ids + (if w.hop.Some? then w.hop.value.rows else {}) }

  /** The walk of `t` goes on, or has fallen back, and has missed no successor of `t`. */
  ghost predicate Chasing(s: State, x: TxnId, t: Token, still: set<UserId>) {
    && x in s.txns && Uncontended(s, t, still)
    && (s.txns[x].Walking? || s.txns[x].Sweeping?) && s.txns[x].t == t
    && (s.txns[x].Walking? && t in s.txns[x].w.seen ==> Caught(s.rows, t, Found(s.txns[x].w)))
  }

  lemma ChasingStays(s: State, st: Step, x: TxnId, t: Token, still: set<UserId>)
    requires Inv(s) && Enabled(s, st) && !Ends(st, x) && !Restores(st, still) && Chasing(s, x, t, still)
    ensures Chasing(Apply(s, st), x, t, still)
  {
    hide CopiesOwn, Linear, Apart, GrantsOk, SweepsUser, SweepsLogout, Uncontended, LogoutRows, OpenRowsOf, Answers;
    InRows(s, t, still);
    UncontendedStays(s, st, t, still);
    assert TxnOk(s.rows, s.now, s.txns[x]);
    if st.CommitRotation? {
      UncontendedHasNoRotation(s, t, st.x, still);
      assert TxnOk(s.rows, s.now, s.txns[st.x]);
    }
  }

  lemma InRows(s: State, t: Token, still: set<UserId>)
    requires Uncontended(s, t, still)
    ensures t in s.rows
  {
  }

  lemma {:induction false} ChasingAlong(s: State, steps: seq<Step>, s': State, x: TxnId, t: Token, still: set<UserId>)
    requires Inv(s) && Along(s, steps, s', x, still) && Chasing(s, x, t, still)
    ensures Inv(s') && Chasing(s', x, t, still)
    decreases |steps|
  {
    hide Inv, Chasing, Enabled, Apply;
    if steps != [] {
      AlongTail(s, steps, s', x, still);
      StepKeeps(s, steps[0]);
      ChasingStays(s, steps[0], x, t, still);
      ChasingAlong(Apply(s, steps[0]), steps[1..], s', x, t, still);
    }
  }

  lemma WalkCatchesAll(s: State, x: TxnId, t: Token, still: set<UserId>)
    requires Inv(s) && Enabled(s, WalkDone(x)) && Chasing(s, x, t, still)
    ensures t in s.txns[x].w.ids && Extinct(Apply(s, WalkDone(x)), s.txns[x].w.ids)
  {
    hide Linear, CopiesOwn, GrantsOk, CanConsume;
    var w := s.txns[x].w;
    assert TxnOk(s.rows, s.now, s.txns[x]);
    assert Found(w) == w.ids;
    forall a | a in s.rows && s.rows[a].prev.Some? && s.rows[a].prev.value in w.ids ensures a in w.ids {
      assert Caught(s.rows, s.rows[a].prev.value, w.ids);
    }
    forall y | y in s.txns && y != x && s.txns[y].Rotating? ensures s.txns[y].spent !in w.ids {
      assert s.txns[y].spent in Locks(s.txns[y]);
    }
  }

  /** A walk that looks first when nobody can consume its token's session closes the whole family: also successors whose
      rotations commit while it walks, and in every continuation. */
  lemma RefusalClosesTheFamily(active: set<UserId>, ttl: nat, before: seq<Step>, s: State, x: TxnId, mid: seq<Step>,
      s1: State, after: seq<Step>, s2: State, still: set<UserId>)
    requires Runs(Init(active, ttl), before, s) && Enabled(s, HopStart(x)) && s.txns[x].w.hops == 0
      && Uncontended(s, s.txns[x].t, still)
    requires Along(s, mid, s1, x, still) && Enabled(s1, WalkDone(x)) && Runs(Apply(s1, WalkDone(x)), after, s2)
    ensures FamilyClosed(s2.rows, s.txns[x].t)
  {
    hide Linear, CopiesOwn, Apart, GrantsOk, Uncontended, Runs, Extinct, FamilyClosed;
    var t := s.txns[x].t;
    Reached(active, ttl, before, s);
    assert Chasing(s, x, t, still) by { assert TxnOk(s.rows, s.now, s.txns[x]); }
    ChasingAlong(s, mid, s1, x, t, still);
    WalkCatchesAll(s1, x, t, still);
    StepKeeps(s1, WalkDone(x));
    ExtinctIsClosed(Apply(s1, WalkDone(x)), after, s2, t, s1.txns[x].w.ids);
  }

  // ----- When it does not -----

  /** The row `a`, which `x` has not locked, can still be consumed: then a rotation of it commits before `x` goes on. */
  lemma Overtakes(s0: State, steps: seq<Step>, s: State, x: TxnId, a: Token, still: set<UserId>)
    returns (longer: seq<Step>, s': State, id: SessionId, n: Token, at: nat)
    requires Inv(s0) && TimesOk(s0) && Along(s0, steps, s, x, still) && x in s.txns
      && (s.txns[x].Walking? || s.txns[x].Sweeping?)
    requires a in s.rows && a !in Locks(s.txns[x]) && !Uncontended(s, a, still)
    ensures Along(s0, longer, s', x, still) && n !in s.rows && n != a
    ensures s'
      == s.(rows := Rotated(s.rows, a, id, n, at, s.ttl), txns := map[x := s.txns[x]], active := s'.active,
      grants := s'.grants)
  {
    var z := x;
    if y :| y in s.txns && CanConsume(s, s.txns[y], a, still) { z := y; }
    assert z != x ==> CanConsume(s, s.txns[z], a, still);
    hide Along, Runs, Inv, TimesOk, Revoked, Locks, Enabled, Apply, Rotated;
    var y, b;
    longer, b, y := MakesWay(s0, steps, s, x, a, z, still);
    longer, s', id, n := Rotates(s0, longer, b, x, y, a, still);
    at := Since(b.txns[y]);
  }

  lemma Parent(rows: Rows, t: Token, a: Token, n: Token)
    requires t in rows && (a == t || Descends(rows, t, a)) && n in rows && rows[n].prev == Some(a)
    ensures SameFamily(rows, t, n) && Descends(rows, t, n)
  {
    var top := [t];
    assert Path(rows, t, top) && top[|top| - 1] == t;
    var path := top;
    if a != t { path :| Path(rows, t, path) && path[|path| - 1] == a; }
    var q := path + [n];
    assert Path(rows, t, q) by {
      forall i | 0 <= i < |q| - 1 ensures rows[q[i + 1]].prev == Some(q[i]) {
        if i < |path| - 1 { assert rows[path[i + 1]].prev == Some(path[i]); }
      }
    }
    assert q[|q| - 1] == n;
  }

  lemma FirstHop(s: State, x: TxnId, still: set<UserId>) returns (s': State)
    requires Inv(s) && Enabled(s, HopStart(x)) && s.txns[x].w.hops == 0 && s.txns[x].t in s.rows
      && !Uncontended(s, s.txns[x].t, still)
    ensures Along(s, [HopStart(x)], s', x, still) && !Uncontended(s', s.txns[x].t, still)
    ensures s' == s.(txns := s.txns[x := Stuck(s.txns[x].t, s.txns[x].w.user)])
  {
    hide CopiesOwn, Apart, GrantsOk;
    var t, w := s.txns[x].t, s.txns[x].w;
    s' := s.(txns := s.txns[x := Stuck(t, w.user)]);
    assert TxnOk(s.rows, s.now, s.txns[x]);
    assert HopStarted(s.rows, w) == Stuck(t, w.user).w by {
      assert HopRows(s.rows, {t}) == {t} && w.seen + {t} == {t};
    }
    assert s' == Apply(s, HopStart(x));
    Stop(s, x, still);
    GoesOn(s, [], s, x, still, HopStart(x));
    assert [] + [HopStart(x)] == [HopStart(x)];
    StillContended(s, x, s', t, still);
  }

  lemma StillContended(s: State, x: TxnId, s': State, a: Token, still: set<UserId>)
    requires x in s.txns && s.txns[x].Walking? && a in s.rows && !Uncontended(s, a, still)
    requires x in s'.txns && s' == s.(txns := s.txns[x := s'.txns[x]])
    ensures !Uncontended(s', a, still)
  {
    if s.rows[a].expiresAt <= s.now || Away(s, s.rows[a].user, still) {
      var y :| y in s.txns && CanConsume(s, s.txns[y], a, still);
      assert y in s'.txns && CanConsume(s', s'.txns[y], a, still);
    }
  }

  function Stuck(t: Token, user: Option<UserId>): Txn { Walking(t, Walk(0, {t}, {t}, {}, user, Some(Hop({t}, {t})))) }

  lemma FinishesWalk(s0: State, steps: seq<Step>, s: State, x: TxnId, t: Token, user: Option<UserId>, n: Token,
      still: set<UserId>)
    returns (longer: seq<Step>, s': State)
    requires Along(s0, steps, s, x, still) && s.txns == map[x := Stuck(t, user)]
    requires t in s.rows && n in s.rows && n != t && !s.rows[n].revoked && s.rows[n].prev == Some(t)
    ensures Along(s0, longer, s', x, still) && Enabled(s', WalkDone(x)) && !FamilyClosed(Apply(s', WalkDone(x)).rows, t)
  {
    hide Along, Runs, SameFamily, Descends;
    longer, s' := LocksAll(s0, steps, s, x, still);
    GoesOn(s0, longer, s', x, still, HopEnd(x, t));
    longer, s' := longer + [HopEnd(x, t)], Apply(s', HopEnd(x, t));
    assert s'.txns[x].w.ids == {t} && s'.txns[x].w.frontier == {};
    Parent(Apply(s', WalkDone(x)).rows, t, t, n);
  }

  /** A walk whose first select waits for a rotation of the presented token itself never learns of the successor. */
  lemma WalkIsOvertaken(s: State, x: TxnId, still: set<UserId>) returns (mid: seq<Step>, s1: State)
    requires Inv(s) && TimesOk(s) && Enabled(s, HopStart(x)) && s.txns[x].w.hops == 0
    requires s.txns[x].t in s.rows && !Uncontended(s, s.txns[x].t, still)
    ensures Along(s, mid, s1, x, still) && Enabled(s1, WalkDone(x))
      && !FamilyClosed(Apply(s1, WalkDone(x)).rows, s.txns[x].t)
  {
    var t, user := s.txns[x].t, s.txns[x].w.user;
    s1 := FirstHop(s, x, still);
    hide Along, Runs, Inv, TimesOk, FamilyClosed, Uncontended, Enabled, Apply;
    var id, n, at;
    mid, s1, id, n, at := Overtakes(s, [HopStart(x)], s1, x, t, still);
    mid, s1 := FinishesWalk(s, mid, s1, x, t, user, n, still);
  }

  /** The walk's guarantee, exactly, for any users `still` who are not made active while it goes on: judged at its first
      select, it holds iff the presented session is spent, or is expired or of an inactive one of them and no refresh in
      flight can still consume it. */
  lemma WhenARefusalClosesTheFamily(active: set<UserId>, ttl: nat, before: seq<Step>, s: State, x: TxnId,
      still: set<UserId>)
    requires Runs(Init(active, ttl), before, s) && Enabled(s, HopStart(x)) && s.txns[x].w.hops == 0
      && s.txns[x].t in s.rows
    ensures Uncontended(s, s.txns[x].t, still) <==> ClosesForGood(s, x, s.txns[x].t, WalkDone(x), still)
  {
    var t := s.txns[x].t;
    hide Runs, Along, FamilyClosed, Inv, Uncontended;
    if Uncontended(s, t, still) {
      forall mid, s1, after, s2 | Along(s, mid, s1, x, still) && Enabled(s1, WalkDone(x))
        && Runs(Apply(s1, WalkDone(x)), after, s2)
        ensures FamilyClosed(s2.rows, t)
      {
        RefusalClosesTheFamily(active, ttl, before, s, x, mid, s1, after, s2, still);
      }
    } else {
      Reached(active, ttl, before, s);
      var mid, s1 := WalkIsOvertaken(s, x, still);
      Stop(Apply(s1, WalkDone(x)), x, still);
    }
  }

  /** If the user may be made active at any time, deactivation does not help: the session must be spent, or expired and
      wanted by no refresh in flight. */
  lemma WhenUsersComeBack(active: set<UserId>, ttl: nat, before: seq<Step>, s: State, x: TxnId)
    requires Runs(Init(active, ttl), before, s) && Enabled(s, HopStart(x)) && s.txns[x].w.hops == 0
      && s.txns[x].t in s.rows
    ensures var t := s.txns[x].t;
      (s.rows[t].revoked || (s.rows[t].expiresAt <= s.now && forall y :: y in s.txns ==> !Wants(s.rows, s.txns[y], t)))
      <==> ClosesForGood(s, x, t, WalkDone(x), {})
  {
    var t := s.txns[x].t;
    forall y | y in s.txns ensures CanConsume(s, s.txns[y], t, {}) <==> Wants(s.rows, s.txns[y], t) {}
    WhenARefusalClosesTheFamily(active, ttl, before, s, x, {});
  }

  /** If the user is not made active during the call, an inactive user's session is as good as an expired one, and a
      refresh that has not matched it yet does not count. */
  lemma WhenTheUserStaysAway(active: set<UserId>, ttl: nat, before: seq<Step>, s: State, x: TxnId)
    requires Runs(Init(active, ttl), before, s) && Enabled(s, HopStart(x)) && s.txns[x].w.hops == 0
      && s.txns[x].t in s.rows
    ensures var t := s.txns[x].t;
      (s.rows[t].revoked
       || ((s.rows[t].expiresAt <= s.now || s.rows[t].user !in s.active)
           && forall y :: y in s.txns && Wants(s.rows, s.txns[y], t) ==>
             s.txns[y].Arrived? && s.rows[t].user !in s.active))
      <==> ClosesForGood(s, x, t, WalkDone(x), {s.rows[t].user})
  {
    var t, still := s.txns[x].t, {s.rows[s.txns[x].t].user};
    forall y | y in s.txns
      ensures CanConsume(s, s.txns[y], t, still)
        <==> Wants(s.rows, s.txns[y], t) && !(s.txns[y].Arrived? && s.rows[t].user !in s.active) {}
    WhenARefusalClosesTheFamily(active, ttl, before, s, x, still);
  }

  // ----- The fallback -----

  /** What the walk has locked, or what nobody can consume. */
  ghost predicate Settled(s: State, ids: set<Token>, a: Token, still: set<UserId>) {
    a in s.rows && (a in ids || Uncontended(s, a, still))
  }

  /** The fallback of the walk of `t` goes on, `d` gets no new successors, and what is open in it is in the base. */
  ghost predicate Sealed(s: State, x: TxnId, t: Token, d: set<Token>, still: set<UserId>) {
    && x in s.txns && s.txns[x].Sweeping? && s.txns[x].t == t && t in s.rows && t in d
    && (forall a :: a in d ==> Settled(s, s.txns[x].ids, a, still) && s.rows[a].user == s.rows[t].user)
    && (forall a :: a in d && !s.rows[a].revoked ==> a in s.txns[x].sweep.base)
    && (forall a :: a in s.rows && s.rows[a].prev.Some? && s.rows[a].prev.value in d ==> a in d)
  }

  lemma SealedHasNoRotation(s: State, x: TxnId, t: Token, d: set<Token>, y: TxnId, still: set<UserId>)
    requires Inv(s) && Sealed(s, x, t, d, still) && y in s.txns && s.txns[y].Rotating?
    ensures s.txns[y].spent !in d
  {
    hide CopiesOwn, GrantsOk, Linear, TxnsOk, Uncontended, Apart;
    var a := s.txns[y].spent;
    assert a in Locks(s.txns[y]);
    if a in d {
      assert Settled(s, s.txns[x].ids, a, still);
      if a in s.txns[x].ids {
        assert a in Locks(s.txns[x]);
        LocksApart(s, x);
      } else {
        UncontendedHasNoRotation(s, a, y, still);
      }
    }
  }

  ghost predicate SettledAgain(s: State, ids: set<Token>, t: Token, a: Token, still: set<UserId>) {
    Settled(s, ids, a, still) && t in s.rows && s.rows[a].user == s.rows[t].user
  }

  lemma SettledStays(s: State, st: Step, x: TxnId, t: Token, d: set<Token>, a: Token, still: set<UserId>)
    requires Inv(s) && Enabled(s, st) && !Restores(st, still) && Sealed(s, x, t, d, still) && a in d
    ensures SettledAgain(Apply(s, st), s.txns[x].ids, t, a, still)
  {
    hide Inv, Uncontended, LogoutRows, OpenRowsOf, Answers, HopStarted, HopEnded, Consumable, Taken, Locked, FreeOf;
    assert Settled(s, s.txns[x].ids, a, still);
    if st.CommitRotation? { RotatingIsApart(s, st.x); }
    if a !in s.txns[x].ids { UncontendedStays(s, st, a, still); }
  }

  lemma RotatingIsApart(s: State, y: TxnId)
    requires Inv(s) && y in s.txns && s.txns[y].Rotating?
    ensures s.txns[y].next !in s.rows && s.txns[y].session.prev == Some(s.txns[y].spent)
  {
    assert TxnOk(s.rows, s.now, s.txns[y]);
  }

  lemma SealedStays(s: State, st: Step, x: TxnId, t: Token, d: set<Token>, still: set<UserId>)
    requires Inv(s) && Enabled(s, st) && !Ends(st, x) && !Restores(st, still) && Sealed(s, x, t, d, still)
    ensures Sealed(Apply(s, st), x, t, d, still)
  {
    hide Inv, Uncontended, LogoutRows, OpenRowsOf, Answers, HopStarted, HopEnded, Consumable, Taken, FreeOf;
    forall a | a in d ensures a in s.rows && SettledAgain(Apply(s, st), s.txns[x].ids, t, a, still) {
      assert Settled(s, s.txns[x].ids, a, still);
      SettledStays(s, st, x, t, d, a, still);
    }
    if st.CommitRotation? {
      SealedHasNoRotation(s, x, t, d, st.x, still);
      RotatingIsApart(s, st.x);
    }
  }

  lemma {:induction false} SealedAlong(s: State, steps: seq<Step>, s': State, x: TxnId, t: Token, d: set<Token>,
      still: set<UserId>)
    requires Inv(s) && Along(s, steps, s', x, still) && Sealed(s, x, t, d, still)
    ensures Inv(s') && Sealed(s', x, t, d, still)
    decreases |steps|
  {
    hide Inv, Sealed, Enabled, Apply;
    if steps != [] {
      AlongTail(s, steps, s', x, still);
      StepKeeps(s, steps[0]);
      SealedStays(s, steps[0], x, t, d, still);
      SealedAlong(Apply(s, steps[0]), steps[1..], s', x, t, d, still);
    }
  }

  lemma SweepClosesAll(s: State, x: TxnId, t: Token, d: set<Token>, still: set<UserId>)
    requires Inv(s) && Enabled(s, SweepDone(x)) && Sealed(s, x, t, d, still)
    ensures Extinct(Apply(s, SweepDone(x)), d)
  {
    hide Linear, CopiesOwn, GrantsOk, Uncontended, Apart, TxnsOk, Locks;
    forall a | a in d ensures a in s.rows { assert Settled(s, s.txns[x].ids, a, still); }
    forall y | y in s.txns && y != x && s.txns[y].Rotating? ensures s.txns[y].spent !in d {
      SealedHasNoRotation(s, x, t, d, y, still);
    }
  }

  lemma DescendantsAreClosed(rows: Rows, t: Token) returns (d: set<Token>)
    requires t in rows
    ensures t in d && Closed(rows, t, d) && forall a :: a in d <==> Descends(rows, t, a)
  {
    d := set a | a in rows && Descends(rows, t, a);
    var top := [t];
    assert Path(rows, t, top) && top[|top| - 1] == t;
    forall a | Descends(rows, t, a) ensures a in rows {
      var path :| Path(rows, t, path) && path[|path| - 1] == a;
      assert path[|path| - 1] in rows;
    }
    forall a | a in rows && rows[a].prev.Some? && (rows[a].prev.value == t || rows[a].prev.value in d) ensures a in d {
      Parent(rows, t, rows[a].prev.value, a);
    }
  }

  lemma SweepSeals(s: State, x: TxnId, still: set<UserId>) returns (d: set<Token>)
    requires Inv(s) && Enabled(s, SweepStart(x))
    requires forall a :: Descends(s.rows, s.txns[x].t, a) ==> Settled(s, s.txns[x].w.ids, a, still)
    ensures Sealed(Apply(s, SweepStart(x)), x, s.txns[x].t, d, still)
  {
    hide CopiesOwn, Apart, GrantsOk, CanConsume, Descends;
    var t, s' := s.txns[x].t, Apply(s, SweepStart(x));
    assert TxnOk(s.rows, s.now, s.txns[x]);
    d := DescendantsAreClosed(s.rows, t);
    forall a | a in d ensures Settled(s', s.txns[x].w.ids, a, still) && s.rows[a].user == s.rows[t].user {
      assert Settled(s, s.txns[x].w.ids, a, still);
      UserOfDescendant(s.rows, t, a);
      if a !in s.txns[x].w.ids { StillUncontended(s, x, s', a, still); }
    }
  }

  lemma UserOfDescendant(rows: Rows, t: Token, a: Token)
    requires Linear(rows) && t in rows && Descends(rows, t, a)
    ensures a in rows && rows[a].user == rows[t].user
  {
    var path :| Path(rows, t, path) && path[|path| - 1] == a;
    DescendantsShareTheUser(rows, t, path, |path| - 1);
  }

  lemma StillUncontended(s: State, x: TxnId, s': State, a: Token, still: set<UserId>)
    requires x in s'.txns && s'.txns[x].Sweeping? && Uncontended(s, a, still)
    requires s' == s.(txns := s.txns[x := s'.txns[x]])
    ensures Uncontended(s', a, still)
  {
    if !s.rows[a].revoked {
      forall y | y in s'.txns ensures !CanConsume(s', s'.txns[y], a, still) {
        if y != x { assert !CanConsume(s, s.txns[y], a, still); }
      }
    }
  }

  /** A fallback whose statement begins when every descendant of the token is locked by the walk or nobody can consume
      it closes the whole family, in every continuation. */
  lemma FallbackClosesTheFamily(s: State, x: TxnId, mid: seq<Step>, s1: State, after: seq<Step>, s2: State,
      still: set<UserId>)
    requires Inv(s) && Enabled(s, SweepStart(x))
    requires forall a :: Descends(s.rows, s.txns[x].t, a) ==> Settled(s, s.txns[x].w.ids, a, still)
    requires Along(Apply(s, SweepStart(x)), mid, s1, x, still) && Enabled(s1, SweepDone(x))
      && Runs(Apply(s1, SweepDone(x)), after, s2)
    ensures FamilyClosed(s2.rows, s.txns[x].t)
  {
    var t := s.txns[x].t;
    hide Inv, Runs, Along, Settled, FamilyClosed, Extinct;
    StepKeeps(s, SweepStart(x));
    var d := SweepSeals(s, x, still);
    SealedAlong(Apply(s, SweepStart(x)), mid, s1, x, t, d, still);
    SweepClosesAll(s1, x, t, d, still);
    StepKeeps(s1, SweepDone(x));
    ExtinctIsClosed(Apply(s1, SweepDone(x)), after, s2, t, d);
  }

  lemma DescendsStill(rows: Rows, rows': Rows, t: Token, a: Token)
    requires Descends(rows, t, a) && forall b :: b in rows ==> b in rows' && rows'[b].prev == rows[b].prev
    ensures Descends(rows', t, a)
  {
    var path :| Path(rows, t, path) && path[|path| - 1] == a;
    assert Path(rows, t, path);
    assert Path(rows', t, path);
  }

  /** The fallback begins, and the descendant `a` of its token can still be consumed. */
  ghost predicate Overtakable(s: State, x: TxnId, t: Token, a: Token, still: set<UserId>) {
    && Inv(s) && TimesOk(s) && t in s.rows && a in s.rows && Descends(s.rows, t, a) && !Uncontended(s, a, still)
    && x in s.txns && s.txns[x].Sweeping? && a !in Locks(s.txns[x]) && s.txns[x].sweep.base <= s.rows.Keys
  }

  lemma SweepBegins(s: State, x: TxnId, a: Token, still: set<UserId>)
    requires Inv(s) && TimesOk(s) && Enabled(s, SweepStart(x)) && Descends(s.rows, s.txns[x].t, a)
      && !Settled(s, s.txns[x].w.ids, a, still)
    ensures Overtakable(Apply(s, SweepStart(x)), x, s.txns[x].t, a, still)
  {
    assert s.txns[x].t in s.rows && Linear(s.rows) by { assert TxnOk(s.rows, s.now, s.txns[x]); }
    hide Inv, Linear, Uncontended, Descends;
    StepKeeps(s, SweepStart(x));
    UserOfDescendant(s.rows, s.txns[x].t, a);
    StillContended(s, x, Apply(s, SweepStart(x)), a, still);
  }

  lemma FinishesSweep(s0: State, steps: seq<Step>, s: State, x: TxnId, rows: Rows, t: Token, a: Token, n: Token,
      still: set<UserId>)
    returns (longer: seq<Step>, s': State)
    requires Along(s0, steps, s, x, still) && s.txns.Keys == {x} && s.txns[x].Sweeping?
      && s.txns[x].sweep.base <= rows.Keys
    requires t in rows && Descends(rows, t, a) && forall b :: b in rows ==>
      b in s.rows && s.rows[b].prev == rows[b].prev
    requires n !in rows && n in s.rows && !s.rows[n].revoked && s.rows[n].prev == Some(a)
    ensures Along(s0, longer, s', x, still) && Enabled(s', SweepDone(x))
      && !FamilyClosed(Apply(s', SweepDone(x)).rows, t)
  {
    hide Along, Runs, SameFamily, Descends;
    longer, s' := LocksAll(s0, steps, s, x, still);
    var rows' := Apply(s', SweepDone(x)).rows;
    DescendsStill(rows, rows', t, a);
    Parent(rows', t, a, n);
  }

  /** While the fallback waits for its locks, a rotation of the family's open session commits: its successor stays
      open. */
  lemma FallbackIsOvertaken(s: State, x: TxnId, t: Token, a: Token, still: set<UserId>)
    returns (mid: seq<Step>, s1: State)
    requires Overtakable(s, x, t, a, still)
    ensures Along(s, mid, s1, x, still) && Enabled(s1, SweepDone(x)) && !FamilyClosed(Apply(s1, SweepDone(x)).rows, t)
  {
    hide Inv, Runs, Uncontended, Descends, Along, FamilyClosed, TimesOk, Locks, Apply, Enabled;
    Stop(s, x, still);
    var id, n, at;
    mid, s1, id, n, at := Overtakes(s, [], s, x, a, still);
    mid, s1 := FinishesSweep(s, mid, s1, x, s.rows, t, a, n, still);
  }

  /** The fallback, exactly, for any users `still` who are not made active while it goes on: judged when its statement
      begins, it closes the family of the presented token iff each descendant is locked by the walk, or spent, or beyond
      a new refresh with none in flight that can still consume it. */
  lemma WhenTheFallbackSuffices(active: set<UserId>, ttl: nat, before: seq<Step>, s: State, x: TxnId,
      still: set<UserId>)
    requires Runs(Init(active, ttl), before, s) && Enabled(s, SweepStart(x))
    ensures (forall a :: Descends(s.rows, s.txns[x].t, a) ==> Settled(s, s.txns[x].w.ids, a, still))
      <==> ClosesForGood(Apply(s, SweepStart(x)), x, s.txns[x].t, SweepDone(x), still)
  {
    var t, s0 := s.txns[x].t, Apply(s, SweepStart(x));
    hide Runs, Along, FamilyClosed, Inv, Settled, Descends, Overtakable;
    Reached(active, ttl, before, s);
    if a :| Descends(s.rows, t, a) && !Settled(s, s.txns[x].w.ids, a, still) {
      SweepBegins(s, x, a, still);
      var mid, s1 := FallbackIsOvertaken(s0, x, t, a, still);
      Stop(Apply(s1, SweepDone(x)), x, still);
    } else {
      forall mid, s1, after, s2 | Along(s0, mid, s1, x, still) && Enabled(s1, SweepDone(x))
        && Runs(Apply(s1, SweepDone(x)), after, s2)
        ensures FamilyClosed(s2.rows, t)
      {
        FallbackClosesTheFamily(s, x, mid, s1, after, s2, still);
      }
    }
  }
}
