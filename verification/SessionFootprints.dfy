/** What the revocations leave alone: which step of which transaction can close a session, over every interleaving. */
module SessionFootprints {
  import opened Prelude
  import opened SessionModel
  import opened SessionRaces
  import opened SessionSafety
  import opened SessionTheorems

  // ----- Rows only ever close -----

  /** Every row stays, unchanged or closed. */
  ghost predicate OnlyCloses(rows: Rows, rows': Rows) {
    forall a :: a in rows ==>
      a in rows' && (rows'[a] == rows[a] || rows'[a] == rows[a].(revoked := true, grace := None))
  }

  lemma RevokedOnlyCloses(rows: Rows, ts: set<Token>)
    ensures OnlyCloses(rows, Revoked(rows, ts))
  {
  }

  lemma NewTokenIsNew(s: State, x: TxnId)
    requires Inv(s) && Enabled(s, CommitRotation(x))
    ensures s.txns[x].next !in s.rows
  {
    assert TxnOk(s.rows, s.now, s.txns[x]);
  }

  lemma RowsStay(s: State, st: Step)
    requires Inv(s) && Enabled(s, st)
    ensures OnlyCloses(s.rows, Apply(s, st).rows)
  {
    hide Inv, Revoked, OnlyCloses;
    match st
    case CommitRotation(x) =>
      NewTokenIsNew(s, x);
      RevokedOnlyCloses(s.rows, {s.txns[x].spent});
      OneMore(s.rows, Revoked(s.rows, {s.txns[x].spent}), s.txns[x].next, s.txns[x].session);
    case Issue(u, id, a) =>
      NothingCloses(s.rows);
      OneMore(s.rows, s.rows, a, Login(id, u, s.now, s.ttl));
    case WalkDone(x) => RevokedOnlyCloses(s.rows, s.txns[x].w.ids);
    case SweepDone(x) => RevokedOnlyCloses(s.rows, s.txns[x].sweep.base);
    case LogoutDone(x) => RevokedOnlyCloses(s.rows, s.txns[x].sweep.base);
    case _ => NothingCloses(s.rows);
  }

  lemma NothingCloses(rows: Rows)
    ensures OnlyCloses(rows, rows)
  {
  }

  lemma OneMore(rows: Rows, rows': Rows, a: Token, n: Session)
    requires OnlyCloses(rows, rows') && a !in rows
    ensures OnlyCloses(rows, rows'[a := n])
  {
  }

  // ----- Logout -----

  /** The logout goes on, with the rows it found at its start; those that stood then are still there. */
  ghost predicate LoggingOutFrom(rows: Rows, s: State, x: TxnId, t: Token, base: set<Token>) {
    OnlyCloses(rows, s.rows) && x in s.txns && s.txns[x].LoggingOut? && s.txns[x].t == t && s.txns[x].sweep.base == base
  }

  lemma {:induction false} LogoutKeepsItsRows(rows: Rows, s: State, steps: seq<Step>, s': State, x: TxnId, t: Token,
      base: set<Token>)
    requires Inv(s) && Along(s, steps, s', x, {}) && LoggingOutFrom(rows, s, x, t, base)
    ensures LoggingOutFrom(rows, s', x, t, base)
    decreases |steps|
  {
    hide Inv, Enabled, Apply, LoggingOutFrom;
    if steps != [] {
      AlongTail(s, steps, s', x, {});
      StepKeeps(s, steps[0]);
      LogoutStays(rows, s, steps[0], x, t, base);
      LogoutKeepsItsRows(rows, Apply(s, steps[0]), steps[1..], s', x, t, base);
    }
  }

  lemma LogoutStays(rows: Rows, s: State, st: Step, x: TxnId, t: Token, base: set<Token>)
    requires Inv(s) && Enabled(s, st) && !Ends(st, x) && LoggingOutFrom(rows, s, x, t, base)
    ensures LoggingOutFrom(rows, Apply(s, st), x, t, base)
  {
    hide Inv;
    RowsStay(s, st);
    hide Revoked, HopRows, OpenRowsOf, LogoutRows, Answers, Graced;
  }

  /** A logout closes exactly the session of its token and, when that was rotated less than 30 seconds before the
      statement began, the successor, each if it stood then and is still open: it leaves every other session as the
      others left it. */
  lemma WhatALogoutCloses(active: set<UserId>, ttl: nat, before: seq<Step>, s: State, x: TxnId, t: Token,
      mid: seq<Step>, s1: State, a: Token)
    requires Runs(Init(active, ttl), before, s) && Enabled(s, LogoutStart(x, t))
    requires Along(Apply(s, LogoutStart(x, t)), mid, s1, x, {}) && Enabled(s1, LogoutDone(x)) && a in s1.rows
    ensures var s2 := Apply(s1, LogoutDone(x));
      var closes := !s1.rows[a].revoked && a in s.rows
        && (a == t || (s.rows[a].prev == Some(t) && s.rows[a].rotatedAt + 30 > s.now));
      a in s2.rows && s2.rows[a] == if closes then s1.rows[a].(revoked := true, grace := None) else s1.rows[a]
  {
    hide Inv, Runs, Along;
    Reached(active, ttl, before, s);
    StepKeeps(s, LogoutStart(x, t));
    NothingCloses(s.rows);
    LogoutKeepsItsRows(s.rows, Apply(s, LogoutStart(x, t)), mid, s1, x, t, LogoutRows(s.rows, t, s.now));
  }

  // ----- The walk -----

  /** A walk has found nothing but the session of its token and sessions derived from it, a logout nothing but that
      session and its successor. */
  ghost predicate FindsFamily(rows: Rows, x: Txn) {
    && (x.LoggingOut? ==> forall a :: a in x.sweep.base ==> a in rows && (a == x.t || rows[a].prev == Some(x.t)))
    && (x.Walking? ==>
      && (forall a :: a in x.w.ids ==> Descends(rows, x.t, a))
      && (x.w.hop.Some? ==> forall a :: a in x.w.hop.value.rows ==> Descends(rows, x.t, a))
      && (forall a :: a in x.w.frontier ==> a == x.t || Descends(rows, x.t, a)))
  }

  ghost predicate WalksFindFamilies(s: State) { forall x :: x in s.txns ==> FindsFamily(s.rows, s.txns[x]) }

  lemma DescendsOn(rows: Rows, rows': Rows, t: Token, a: Token)
    requires Descends(rows, t, a) && OnlyCloses(rows, rows')
    ensures Descends(rows', t, a)
  {
    var path :| Path(rows, t, path) && path[|path| - 1] == a;
    assert Path(rows, t, path);
    assert Path(rows', t, path);
  }

  lemma FindsFamilyStill(rows: Rows, rows': Rows, x: Txn)
    requires FindsFamily(rows, x) && OnlyCloses(rows, rows')
    ensures FindsFamily(rows', x)
  {
    hide Descends;
    forall t, a | Descends(rows, t, a) ensures Descends(rows', t, a) { DescendsOn(rows, rows', t, a); }
  }

  /** The session of `t` and every successor of a session derived from `t` descend from `t`. */
  lemma NextDescends(rows: Rows, t: Token, h: Token, a: Token)
    requires a in rows && (h == t || Descends(rows, t, h)) && (a == h || rows[a].prev == Some(h))
    ensures Descends(rows, t, a)
  {
    if h == t {
      assert Path(rows, t, [a]) && [a][|[a]| - 1] == a;
    } else if a != h {
      var path :| Path(rows, t, path) && path[|path| - 1] == h;
      assert Path(rows, t, path);
      var longer := path + [a];
      forall i | 0 <= i < |longer| - 1 ensures rows[longer[i + 1]].prev == Some(longer[i]) {
        if i + 1 < |path| { assert rows[path[i + 1]].prev == Some(path[i]); }
      }
      assert Path(rows, t, longer) && longer[|longer| - 1] == a;
    }
  }

  lemma HopFindsFamily(rows: Rows, t: Token, w: Walk)
    requires FindsFamily(rows, Walking(t, w))
    ensures FindsFamily(rows, Walking(t, HopStarted(rows, w)))
  {
    hide Descends;
    forall a | a in HopRows(rows, w.frontier) ensures Descends(rows, t, a) {
      NextDescends(rows, t, if a in w.frontier then a else rows[a].prev.value, a);
    }
  }

  lemma WalksStay(s: State, st: Step)
    requires Inv(s) && Enabled(s, st) && WalksFindFamilies(s)
    ensures WalksFindFamilies(Apply(s, st))
  {
    RowsStay(s, st);
    var s' := Apply(s, st);
    forall y | y in s'.txns ensures FindsFamily(s'.rows, s'.txns[y]) {
      if y in s.txns {
        assert FindsFamily(s.rows, s.txns[y]);
        WalkStays(s, st, y);
      }
    }
  }

  lemma WalkStays(s: State, st: Step, y: TxnId)
    requires Enabled(s, st) && OnlyCloses(s.rows, Apply(s, st).rows) && y in s.txns && y in Apply(s, st).txns
    requires FindsFamily(s.rows, s.txns[y])
    ensures FindsFamily(Apply(s, st).rows, Apply(s, st).txns[y])
  {
    hide Descends, OnlyCloses, Revoked, HopRows, OpenRowsOf, LogoutRows, Answers, Graced, HopStarted;
    if st.HopStart? && st.x == y { HopFindsFamily(s.rows, s.txns[y].t, s.txns[y].w); }
    if Apply(s, st).txns[y] == s.txns[y] { FindsFamilyStill(s.rows, Apply(s, st).rows, s.txns[y]); }
  }

  lemma {:induction false} WalksFindFamiliesAlways(s: State, steps: seq<Step>, s': State)
    requires Inv(s) && Runs(s, steps, s') && WalksFindFamilies(s)
    ensures WalksFindFamilies(s')
    decreases |steps|
  {
    hide Inv, WalksFindFamilies, Enabled, Apply;
    if steps != [] {
      StepKeeps(s, steps[0]);
      WalksStay(s, steps[0]);
      WalksFindFamiliesAlways(Apply(s, steps[0]), steps[1..], s');
    }
  }

  // ----- Every way a session closes -----

  /** An open session closes only by its own rotation; by the walk of a refused refresh of a token it derives from; by
      the fallback of one, and then it is the same user's; or by a logout with its own token or the one before. */
  lemma WhatCloses(active: set<UserId>, ttl: nat, steps: seq<Step>, s: State, st: Step, a: Token)
    requires Runs(Init(active, ttl), steps, s) && Enabled(s, st) && a in s.rows && !s.rows[a].revoked
    requires a in Apply(s, st).rows ==> Apply(s, st).rows[a].revoked
    ensures match st
      case CommitRotation(x) => s.txns[x].spent == a
      case WalkDone(x) => Descends(s.rows, s.txns[x].t, a)
      case SweepDone(x) => s.txns[x].t in s.rows && s.rows[a].user == s.rows[s.txns[x].t].user
      case LogoutDone(x) => a == s.txns[x].t || s.rows[a].prev == Some(s.txns[x].t)
      case _ => false
  {
    hide Linear, CopiesOwn, Apart, GrantsOk, Descends;
    Reached(active, ttl, steps, s);
    WalksFindFamiliesAlways(Init(active, ttl), steps, s) by { InitInv(active, ttl); }
    RowsStay(s, st);
    if st.WalkDone? || st.LogoutDone? { assert FindsFamily(s.rows, s.txns[st.x]); }
    if st.SweepDone? { assert TxnOk(s.rows, s.now, s.txns[st.x]); }
  }
}
