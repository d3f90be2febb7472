/** What every interleaving of session transactions keeps. */
module SessionSafety {
  import opened Prelude
  import opened SessionModel
  import opened SessionRaces

  ghost predicate RotatingOk(rows: Rows, spent: Token, next: Token, n: Session) {
    && spent in rows && !rows[spent].revoked && (forall a :: a in rows ==> rows[a].prev != Some(spent))
    && next !in rows && next != spent
    && n.prev == Some(spent) && n.user == rows[spent].user && !n.revoked && n.grace == Some(GraceCopy(n.id, next))
  }

  /** The session of `h` and its successor, if they exist, are in `d`. */
  ghost predicate Caught(rows: Rows, h: Token, d: set<Token>) {
    && (h in rows ==> h in d)
    && (forall a :: a in rows && rows[a].prev == Some(h) ==> a in d)
  }

  /** Of every token the walk is done with, it holds the session, and unless it is the presented one also the successor;
      the frontier is what is left. */
  ghost predicate WalkOk(rows: Rows, t: Token, w: Walk) {
    var found := if w.hop.Some? then w.hop.value.rows else {};
    && (w.hop.Some? ==> w.hop.value.pending <= w.hop.value.rows)
    && w.ids + found <= rows.Keys
    && w.frontier <= w.ids + {t} && w.seen <= w.ids + {t}
    && (w.hop.None? ==> t in w.seen + w.frontier && w.ids <= w.seen + w.frontier && w.seen !! w.frontier)
    && (w.hop.Some? ==> t in w.seen && w.ids <= w.seen && w.frontier <= w.seen)
    && (w.hops == 0 ==> w.ids == {} && w.frontier == {t} && (w.hop.None? ==> w.seen == {}))
    && (forall h :: h in w.seen && !(w.hop.Some? && h in w.frontier) ==> if h == t then t in rows ==>
      t in w.ids else Caught(rows, h, w.ids))
    && (w.hop.Some? ==> forall h :: h in w.frontier ==> if h == t then t in rows ==>
      t in found else Caught(rows, h, found))
    && (forall a :: a in w.ids + found ==> t in rows && rows[a].user == rows[t].user)
    && (w.user.Some? ==> t in rows && w.user == Some(rows[t].user))
    && (w.ids != {} ==> w.user.Some?)
    && (if w.hop.Some? then w.hops < MAX_REVOKE_CHAIN_HOPS else w.hops <= MAX_REVOKE_CHAIN_HOPS)
  }

  ghost predicate SweepOk(rows: Rows, sw: Sweep) { sw.pending <= sw.base <= sw.known <= rows.Keys }

  /** Open rows of the user that were committed when the statement started are in its base. */
  ghost predicate SweepsUser(rows: Rows, user: UserId, sw: Sweep) {
    && SweepOk(rows, sw)
    && (forall a :: a in sw.known && !rows[a].revoked && rows[a].user == user ==> a in sw.base)
    && (forall a :: a in sw.base ==> rows[a].user == user)
  }

  ghost predicate SweepsLogout(rows: Rows, t: Token, now: nat, sw: Sweep) {
    && SweepOk(rows, sw)
    && (t in rows ==> t in sw.known)
    && (t in rows && !rows[t].revoked ==> t in sw.base)
    && (forall a ::
      a in sw.known && !rows[a].revoked && rows[a].prev == Some(t) && rows[a].rotatedAt + REFRESH_REUSE_GRACE > now ==>
      a in sw.base)
  }

  ghost predicate TxnOk(rows: Rows, now: nat, x: Txn) {
    match x
    case Arrived(_, at) => at <= now
    case Waiting(t, at) => at <= now && t in rows && rows[t].expiresAt > at
    case Rotating(spent, next, n) => RotatingOk(rows, spent, next, n) && n.rotatedAt <= now
    case Refused(_, at) => at <= now
    case Walking(t, w) => WalkOk(rows, t, w)
    case Sweeping(t, ids, user, sw) => t in rows && rows[t].user == user && ids <= rows.Keys
      && SweepsUser(rows, user, sw)
    case LoggingOut(t, sw) => SweepsLogout(rows, t, now, sw)
  }

  ghost predicate TxnsOk(rows: Rows, now: nat, txns: map<TxnId, Txn>) {
    forall x :: x in txns ==> TxnOk(rows, now, txns[x])
  }

  /** Row locks are exclusive, new tokens differ, and presented tokens are nobody's new token. */
  ghost predicate Apart(txns: map<TxnId, Txn>) {
    && (forall x, y :: x in txns && y in txns && x != y ==> Locks(txns[x]) !! Locks(txns[y]))
    && (forall x, y :: x in txns && y in txns && x != y && txns[x].Rotating? && txns[y].Rotating? ==>
      txns[x].next != txns[y].next)
    && (forall x, y :: x in txns && y in txns && txns[x].Rotating? && !txns[y].Rotating? ==> txns[x].next != txns[y].t)
  }

  /** Every granted token is the committed successor of the token that was presented. */
  ghost predicate GrantsOk(rows: Rows, grants: set<(Token, Token)>) {
    forall g :: g in grants ==> g.1 in rows && rows[g.1].prev == Some(g.0)
  }

  ghost predicate Inv(s: State) {
    && Linear(s.rows) && CopiesOwn(s.rows)
    && TxnsOk(s.rows, s.now, s.txns)
    && Apart(s.txns)
    && GrantsOk(s.rows, s.grants)
  }

  // ----- Rows change -----

  lemma RevokeKeepsRows(rows: Rows, ts: set<Token>)
    requires Linear(rows) && CopiesOwn(rows)
    ensures Linear(Revoked(rows, ts)) && CopiesOwn(Revoked(rows, ts))
  {
  }

  lemma RevokeKeepsTxn(rows: Rows, now: nat, ts: set<Token>, x: Txn)
    requires TxnOk(rows, now, x) && Locks(x) !! ts
    ensures TxnOk(Revoked(rows, ts), now, x)
  {
    match x
    case Walking(t, w) => RevokeKeepsWalk(rows, ts, t, w);
    case _ =>
  }

  lemma RevokeKeepsWalk(rows: Rows, ts: set<Token>, t: Token, w: Walk)
    requires WalkOk(rows, t, w)
    ensures WalkOk(Revoked(rows, ts), t, w)
  {
    var rows' := Revoked(rows, ts);
    forall h, d | Caught(rows, h, d) ensures Caught(rows', h, d) {}
  }

  /** A transaction commits by revoking rows it holds locked. */
  lemma RevokeKeeps(s: State, x: TxnId, ts: set<Token>)
    requires Inv(s) && x in s.txns && ts <= Locks(s.txns[x])
    ensures Inv(s.(rows := Revoked(s.rows, ts), txns := Without(s.txns, x)))
  {
    hide Linear, CopiesOwn, TxnOk;
    RevokeKeepsRows(s.rows, ts);
    forall y | y in s.txns && y != x ensures TxnOk(Revoked(s.rows, ts), s.now, s.txns[y]) {
      RevokeKeepsTxn(s.rows, s.now, ts, s.txns[y]);
    }
  }

  lemma InsertKeepsRows(rows: Rows, next: Token, n: Session)
    requires Linear(rows) && CopiesOwn(rows) && next !in rows
    requires n.prev.Some? ==> n.prev.value in rows && rows[n.prev.value].revoked && rows[n.prev.value].user == n.user
    requires n.prev.Some? ==> forall a :: a in rows ==> rows[a].prev != n.prev
    requires n.grace.Some? ==> !n.revoked && n.grace == Some(GraceCopy(n.id, next))
    ensures Linear(rows[next := n]) && CopiesOwn(rows[next := n])
  {
  }

  lemma InsertKeepsTxn(rows: Rows, now: nat, next: Token, n: Session, x: Txn)
    requires TxnOk(rows, now, x) && next !in rows
    requires if x.Rotating? then next != x.next && n.prev != Some(x.spent) else next != x.t
    requires n.prev.Some? ==> n.prev.value !in Locks(x)
    ensures TxnOk(rows[next := n], now, x)
  {
    match x
    case Walking(t, w) => InsertKeepsWalk(rows, next, n, t, w);
    case _ =>
  }

  lemma InsertKeepsWalk(rows: Rows, next: Token, n: Session, t: Token, w: Walk)
    requires WalkOk(rows, t, w) && next !in rows && next != t
    requires n.prev.Some? ==> n.prev.value !in w.ids
    ensures WalkOk(rows[next := n], t, w)
  {
    forall h, d | Caught(rows, h, d) && h in w.ids ensures Caught(rows[next := n], h, d) {}
  }

  lemma CommitKeeps(s: State, x: TxnId)
    requires Inv(s) && Enabled(s, CommitRotation(x))
    ensures Inv(Apply(s, CommitRotation(x)))
  {
    hide TxnOk, Linear, CopiesOwn;
    var r := s.txns[x];
    assert RotatingOk(s.rows, r.spent, r.next, r.session) by {
      assert TxnOk(s.rows, s.now, r);
      ReadRotating(s.rows, s.now, r);
    }
    RevokeKeeps(s, x, {r.spent});
    var mid := s.(rows := Revoked(s.rows, {r.spent}), txns := Without(s.txns, x));
    InsertKeepsRows(mid.rows, r.next, r.session);
    forall y | y in mid.txns ensures TxnOk(mid.rows[r.next := r.session], s.now, mid.txns[y]) {
      InsertKeepsTxn(mid.rows, s.now, r.next, r.session, mid.txns[y]);
    }
  }

  lemma ReadRotating(rows: Rows, now: nat, r: Txn)
    requires TxnOk(rows, now, r) && r.Rotating?
    ensures RotatingOk(rows, r.spent, r.next, r.session)
  {
  }

  lemma IssueKeeps(s: State, u: UserId, id: SessionId, a: Token)
    requires Inv(s) && Enabled(s, Issue(u, id, a))
    ensures Inv(Apply(s, Issue(u, id, a)))
  {
    hide TxnOk, Linear, CopiesOwn;
    var n := Login(id, u, s.now, s.ttl);
    InsertKeepsRows(s.rows, a, n);
    forall y | y in s.txns ensures TxnOk(s.rows[a := n], s.now, s.txns[y]) {
      InsertKeepsTxn(s.rows, s.now, a, n, s.txns[y]);
    }
  }

  /** A statement that writes nothing and moves transaction `x` to `next`. */
  lemma MoveKeeps(s: State, x: TxnId, next: Txn)
    requires Inv(s) && TxnOk(s.rows, s.now, next)
    requires forall y :: y in s.txns && y != x ==> Locks(next) !! Locks(s.txns[y])
    requires !next.Rotating? ==> forall y :: y in s.txns && y != x && s.txns[y].Rotating? ==> s.txns[y].next != next.t
    requires next.Rotating? ==>
      forall y :: y in s.txns && y != x ==>
        if s.txns[y].Rotating? then next.next != s.txns[y].next else next.next != s.txns[y].t
    ensures Inv(s.(txns := s.txns[x := next]))
  {
    hide TxnOk, Linear, CopiesOwn, GrantsOk;
  }

  lemma AbortKeeps(s: State, x: TxnId)
    requires Inv(s) && x in s.txns
    ensures Inv(s.(txns := Without(s.txns, x)))
  {
    hide TxnOk, Linear, CopiesOwn, GrantsOk;
  }

  lemma GraceAnswer(rows: Rows, active: set<UserId>, t: Token, now: nat, r: Token)
    requires CopiesOwn(rows) && Answers(rows, active, t, now, r)
    ensures InGrace(rows, active, t, now, r)
  {
    var a :| Graced(rows, active, t, now) == {a} && a in rows && rows[a].grace.Some?
      && Decrypt(rows[a].id, rows[a].grace.value) == Some(r);
    assert a in Graced(rows, active, t, now);
  }

  lemma PresentKeeps(s: State, x: TxnId, t: Token)
    requires Inv(s) && Enabled(s, Present(x, t))
    ensures Inv(Apply(s, Present(x, t)))
  {
    hide CopiesOwn, GrantsOk, TxnsOk, Linear;
    MoveKeeps(s, x, Arrived(t, s.now));
  }

  lemma TryUpdateKeeps(s: State, x: TxnId)
    requires Inv(s) && Enabled(s, TryUpdate(x))
    ensures Inv(Apply(s, TryUpdate(x)))
  {
    hide CopiesOwn, GrantsOk, Apart, Linear;
    assert TxnOk(s.rows, s.now, s.txns[x]);
    SameTokenMove(s, x, Apply(s, TryUpdate(x)).txns[x]);
  }

  lemma TakeRowKeeps(s: State, x: TxnId, id: SessionId, next: Token)
    requires Inv(s) && Enabled(s, TakeRow(x, id, next))
    ensures Inv(Apply(s, TakeRow(x, id, next)))
  {
    hide CopiesOwn, GrantsOk, Apart;
    var moved := Taken(s, s.txns[x], id, next);
    assert TxnOk(s.rows, s.now, s.txns[x]);
    assert TxnOk(s.rows, s.now, moved);
    if moved.Rotating? {
      forall y | y in s.txns && y != x
        ensures if s.txns[y].Rotating? then next != s.txns[y].next else next != s.txns[y].t {
        assert next !in Shown(s.txns[y]);
      }
      MoveKeeps(s, x, moved);
    } else {
      SameTokenMove(s, x, moved);
    }
  }

  lemma TryGraceKeeps(s: State, x: TxnId, r: Token)
    requires Inv(s) && Enabled(s, TryGrace(x, r))
    ensures Inv(Apply(s, TryGrace(x, r)))
  {
    hide Linear, CopiesOwn, TxnOk;
    GraceAnswer(s.rows, s.active, s.txns[x].t, s.txns[x].at, r);
    AbortKeeps(s, x);
  }

  /** The presented token of a refused refresh stays apart from every rotation. */
  lemma SameTokenMove(s: State, x: TxnId, next: Txn)
    requires Inv(s) && x in s.txns && TxnOk(s.rows, s.now, next)
    requires !s.txns[x].Rotating? && !next.Rotating? && next.t == s.txns[x].t
    requires forall y :: y in s.txns && y != x ==> Locks(next) !! Locks(s.txns[y])
    ensures Inv(s.(txns := s.txns[x := next]))
  {
    hide TxnOk, Linear, CopiesOwn, GrantsOk, TxnsOk;
    MoveKeeps(s, x, next);
  }

  lemma HopStartOk(rows: Rows, t: Token, w: Walk)
    requires Linear(rows) && WalkOk(rows, t, w) && w.hop.None? && w.frontier != {} && w.hops < MAX_REVOKE_CHAIN_HOPS
    ensures WalkOk(rows, t, HopStarted(rows, w))
  {
  }

  lemma HopEndOk(rows: Rows, t: Token, w: Walk, first: Token)
    requires WalkOk(rows, t, w) && w.hop.Some? && w.hop.value.pending == {}
    requires w.hop.value.rows != {} ==> first in w.hop.value.rows && first in rows
    ensures WalkOk(rows, t, HopEnded(rows, w, first))
  {
    var w' := HopEnded(rows, w, first);
    forall h | h in w'.seen && h != t ensures Caught(rows, h, w'.ids) {
      if h in w.frontier { assert Caught(rows, h, w.hop.value.rows); } else { assert Caught(rows, h, w.ids); }
    }
  }

  lemma HopStartKeeps(s: State, x: TxnId)
    requires Inv(s) && Enabled(s, HopStart(x))
    ensures Inv(Apply(s, HopStart(x)))
  {
    hide CopiesOwn, GrantsOk, Apart, WalkOk, Linear;
    var t, w := s.txns[x].t, s.txns[x].w;
    assert TxnOk(s.rows, s.now, s.txns[x]);
    HopStartOk(s.rows, t, w);
    var next := Walking(t, HopStarted(s.rows, w));
    assert Locks(next) == Locks(s.txns[x]);
    LocksApart(s, x);
    SameTokenMove(s, x, next);
  }

  lemma LocksApart(s: State, x: TxnId)
    requires Inv(s) && x in s.txns
    ensures forall y :: y in s.txns && y != x ==> Locks(s.txns[x]) !! Locks(s.txns[y])
  {
  }

  lemma LockRowKeeps(s: State, x: TxnId, a: Token)
    requires Inv(s) && Enabled(s, LockRow(x, a))
    ensures Inv(Apply(s, LockRow(x, a)))
  {
    hide CopiesOwn, GrantsOk, Apart, Linear;
    var next := Locked(s.txns[x], a);
    assert TxnOk(s.rows, s.now, s.txns[x]);
    assert TxnOk(s.rows, s.now, next);
    assert Locks(next) <= Locks(s.txns[x]) + {a};
    LocksApart(s, x);
    SameTokenMove(s, x, next);
  }

  lemma HopEndKeeps(s: State, x: TxnId, first: Token)
    requires Inv(s) && Enabled(s, HopEnd(x, first))
    ensures Inv(Apply(s, HopEnd(x, first)))
  {
    hide CopiesOwn, GrantsOk, Apart, Linear, WalkOk;
    var t, w := s.txns[x].t, s.txns[x].w;
    assert TxnOk(s.rows, s.now, s.txns[x]);
    HopEndOk(s.rows, t, w, first);
    var next := Walking(t, HopEnded(s.rows, w, first));
    assert Locks(next) == Locks(s.txns[x]);
    LocksApart(s, x);
    SameTokenMove(s, x, next);
  }

  lemma SweepStartKeeps(s: State, x: TxnId)
    requires Inv(s) && Enabled(s, SweepStart(x))
    ensures Inv(Apply(s, SweepStart(x)))
  {
    hide CopiesOwn, GrantsOk, Apart, Linear;
    assert TxnOk(s.rows, s.now, s.txns[x]);
    var next := Apply(s, SweepStart(x)).txns[x];
    assert Locks(next) == Locks(s.txns[x]);
    LocksApart(s, x);
    SameTokenMove(s, x, next);
  }

  lemma LogoutStartKeeps(s: State, x: TxnId, t: Token)
    requires Inv(s) && Enabled(s, LogoutStart(x, t))
    ensures Inv(Apply(s, LogoutStart(x, t)))
  {
    hide CopiesOwn, GrantsOk, Linear, TxnsOk;
    MoveKeeps(s, x, Apply(s, LogoutStart(x, t)).txns[x]);
  }

  lemma ClockKeeps(s: State, s': State)
    requires Inv(s) && s'.rows == s.rows && s'.txns == s.txns && s'.grants == s.grants && s.now <= s'.now
    ensures Inv(s')
  {
    hide CopiesOwn, GrantsOk, Linear, Apart;
    forall x | x in s.txns ensures TxnOk(s'.rows, s'.now, s'.txns[x]) {
      assert TxnOk(s.rows, s.now, s.txns[x]);
    }
  }

  lemma StepKeeps(s: State, st: Step)
    requires Inv(s) && Enabled(s, st)
    ensures Inv(Apply(s, st))
  {
    hide Linear, CopiesOwn, TxnOk, Apart, GrantsOk, Revoked, Consumable, Taken, HopStarted, HopEnded, LogoutRows,
      OpenRowsOf;
    match st
    case Tick(_) => ClockKeeps(s, Apply(s, st));
    case Deactivate(_) => ClockKeeps(s, Apply(s, st));
    case Activate(_) => ClockKeeps(s, Apply(s, st));
    case Issue(u, id, a) => IssueKeeps(s, u, id, a);
    case Present(x, t) => PresentKeeps(s, x, t);
    case TryUpdate(x) => TryUpdateKeeps(s, x);
    case TakeRow(x, id, next) => TakeRowKeeps(s, x, id, next);
    case CommitRotation(x) => CommitKeeps(s, x);
    case Abort(x) => AbortKeeps(s, x);
    case TryGrace(x, r) => TryGraceKeeps(s, x, r);
    case NoGrace(x) =>
      StartWalkOk(s, x);
      LocksApart(s, x);
      SameTokenMove(s, x, Apply(s, st).txns[x]);
    case HopStart(x) => HopStartKeeps(s, x);
    case LockRow(x, a) => LockRowKeeps(s, x, a);
    case HopEnd(x, first) => HopEndKeeps(s, x, first);
    case WalkDone(x) => RevokeKeeps(s, x, s.txns[x].w.ids);
    case SweepStart(x) => SweepStartKeeps(s, x);
    case SweepDone(x) => RevokeKeeps(s, x, s.txns[x].sweep.base);
    case LogoutStart(x, t) => LogoutStartKeeps(s, x, t);
    case LogoutDone(x) => RevokeKeeps(s, x, s.txns[x].sweep.base);
  }

  lemma StartWalkOk(s: State, x: TxnId)
    requires Inv(s) && x in s.txns && s.txns[x].Refused?
    ensures TxnOk(s.rows, s.now, Walking(s.txns[x].t, Walk(0, {}, {s.txns[x].t}, {}, None, None)))
  {
    assert TxnOk(s.rows, s.now, s.txns[x]);
  }

  lemma {:induction false} RunKeeps(s: State, steps: seq<Step>, s': State)
    requires Inv(s) && Runs(s, steps, s')
    ensures Inv(s')
    decreases |steps|
  {
    if steps != [] {
      StepKeeps(s, steps[0]);
      RunKeeps(Apply(s, steps[0]), steps[1..], s');
    }
  }

  lemma InitInv(active: set<UserId>, ttl: nat)
    ensures Inv(Init(active, ttl))
  {
  }
}
