/** How a run can go on: everybody else gives up, a rotation commits, and the statement that waited for it gets its
    locks. */
module SessionSchedules {
  import opened Prelude
  import opened Fresh
  import opened SessionModel
  import opened SessionRaces
  import opened SessionSafety
  import opened SessionTheorems

  /** A refresh under way that can consume row `a`, once the user is active and if nobody is faster. */
  predicate Wants(rows: Rows, x: Txn, a: Token) {
    a in rows &&
    match x
    case Rotating(spent, _, _) => spent == a
    case Waiting(t, _) => t == a
    case Arrived(t, at) => t == a && rows[a].Live(at)
    case _ => false
  }

  /** now() of the transaction, which dates the successor it inserts. */
  function Since(x: Txn): nat
    requires x.Rotating? || x.Waiting? || x.Arrived?
  {
    if x.Rotating? then x.session.rotatedAt else x.at
  }

  function Rotated(rows: Rows, a: Token, id: SessionId, n: Token, at: nat, ttl: nat): Rows
    requires a in rows
  {
    Revoked(rows, {a})[n := Successor(id, rows[a].user, a, n, at, ttl)]
  }

  function Only(txns: map<TxnId, Txn>, keep: set<TxnId>): map<TxnId, Txn> { map y | y in txns && y in keep :: txns[y] }

  function Drained(x: Txn): Txn {
    match x
    case Walking(t, w) => if w.hop.Some? then Walking(t, w.(hop := Some(w.hop.value.(pending := {})))) else x
    case Sweeping(t, ids, u, sw) => Sweeping(t, ids, u, sw.(pending := {}))
    case LoggingOut(t, sw) => LoggingOut(t, sw.(pending := {}))
    case _ => x
  }

  lemma FreshToken(s: State) returns (n: Token)
    ensures Unused(s, n)
  {
    n := FreshNat(s.rows.Keys + set y, a | y in s.txns && a in Shown(s.txns[y]) :: a);
  }

  lemma OnlyWithout(txns: map<TxnId, Txn>, y: TxnId, keep: set<TxnId>)
    requires y !in keep
    ensures Only(Without(txns, y), keep) == Only(txns, keep) && Without(txns, y).Keys == txns.Keys - {y}
  {
  }

  lemma OnlyThese(txns: map<TxnId, Txn>, keep: set<TxnId>)
    requires txns.Keys <= keep
    ensures Only(txns, keep) == txns
  {
  }

  lemma {:induction false} AbortOthers(s0: State, steps: seq<Step>, s: State, x: TxnId, keep: set<TxnId>,
      still: set<UserId>)
    returns (longer: seq<Step>, s': State)
    requires Along(s0, steps, s, x, still) && x in keep
    ensures Along(s0, longer, s', x, still) && s' == s.(txns := Only(s.txns, keep))
    decreases |s.txns.Keys - keep|
  {
    hide Along, Runs, Only, Without;
    if y :| y in s.txns.Keys - keep {
      GoesOn(s0, steps, s, x, still, Abort(y));
      var a := Apply(s, Abort(y));
      OnlyWithout(s.txns, y, keep);
      assert a.txns.Keys - keep == (s.txns.Keys - keep) - {y};
      longer, s' := AbortOthers(s0, steps + [Abort(y)], a, x, keep, still);
    } else {
      longer, s' := steps, s;
      assert s.txns.Keys <= keep by {
        forall z | z in s.txns.Keys ensures z in keep { assert z !in s.txns.Keys - keep; }
      }
      OnlyThese(s.txns, keep);
    }
  }

  /** The user is not active and, being among `still`, is not made so. */
  predicate Away(s: State, u: UserId, still: set<UserId>) { u in still && u !in s.active }

  /** A refresh under way that can still consume row `a`. */
  predicate CanConsume(s: State, x: Txn, a: Token, still: set<UserId>) {
    Wants(s.rows, x, a) && !(x.Arrived? && Away(s, s.rows[a].user, still))
  }

  /** Everybody else gives up, the user is made active if that may be, and a refresh can consume row `a`: `z`, or for `z
      == x` a new one. */
  lemma MakesWay(s0: State, steps: seq<Step>, s: State, x: TxnId, a: Token, z: TxnId, still: set<UserId>)
    returns (longer: seq<Step>, s': State, y: TxnId)
    requires Along(s0, steps, s, x, still) && x in s.txns && a in s.rows && z in s.txns
    requires z == x ==> s.rows[a].Live(s.now) && !Away(s, s.rows[a].user, still) && !s.txns[x].Rotating?
    requires z != x ==> CanConsume(s, s.txns[z], a, still)
    ensures Along(s0, longer, s', x, still) && y != x && s'.txns.Keys == {x, y} && s'.txns[x] == s.txns[x]
    ensures s' == s.(txns := s'.txns, active := s'.active)
    ensures s.rows[a].user in s'.active || (s.rows[a].user in still && !s'.txns[y].Arrived?)
    ensures Wants(s.rows, s'.txns[y], a) && Since(s'.txns[y]) == if z == x then s.now else Since(s.txns[z])
  {
    hide Along, Runs;
    longer, s' := AbortOthers(s0, steps, s, x, {x, z}, still);
    y := z;
    if s.rows[a].user !in still {
      var act := Activate(s.rows[a].user);
      GoesOn(s0, longer, s', x, still, act);
      longer, s' := longer + [act], Apply(s', act);
    }
    if z == x {
      y := FreshNat({x});
      GoesOn(s0, longer, s', x, still, Present(y, a));
      longer, s' := longer + [Present(y, a)], Apply(s', Present(y, a));
    }
  }

  lemma RotatingIsSuccessor(s: State, y: TxnId)
    requires Inv(s) && TimesOk(s) && y in s.txns && s.txns[y].Rotating?
    ensures var r := s.txns[y];
      r.spent in s.rows && r.next !in s.rows && r.next != r.spent
      && r.session == Successor(r.session.id, s.rows[r.spent].user, r.spent, r.next, r.session.rotatedAt, s.ttl)
  {
    assert TxnOk(s.rows, s.now, s.txns[y]);
  }

  /** With nobody else about, a refresh that wants an open, unlocked row goes on to rotate it. */
  lemma {:induction false} Rotates(s0: State, steps: seq<Step>, s: State, x: TxnId, y: TxnId, a: Token,
      still: set<UserId>)
    returns (longer: seq<Step>, s': State, id: SessionId, n: Token)
    requires Inv(s0) && TimesOk(s0) && Along(s0, steps, s, x, still)
    requires x != y && s.txns.Keys == {x, y} && a in s.rows && !s.rows[a].revoked && a !in Locks(s.txns[x])
    requires Wants(s.rows, s.txns[y], a) && (s.txns[y].Arrived? ==> s.rows[a].user in s.active)
    ensures Along(s0, longer, s', x, still) && n !in s.rows && n != a
    ensures s'
      == s.(rows := Rotated(s.rows, a, id, n, Since(s.txns[y]), s.ttl), txns := map[x := s.txns[x]],
      grants := s'.grants)
    decreases if s.txns[y].Arrived? then 2 else if s.txns[y].Waiting? then 1 else 0
  {
    hide Along, Runs, Inv, Revoked, TimesOk;
    RunsKeep(s0, steps, s, x, still);
    if s.txns[y].Rotating? {
      RotatingIsSuccessor(s, y);
      GoesOn(s0, steps, s, x, still, CommitRotation(y));
      longer, s', id, n :=
        steps + [CommitRotation(y)], Apply(s, CommitRotation(y)), s.txns[y].session.id, s.txns[y].next;
      assert Without(s.txns, y) == map[x := s.txns[x]];
    } else {
      var st := TryUpdate(y);
      if s.txns[y].Waiting? {
        var next := FreshToken(s);
        WaitingIsTimely(s, y);
        st := TakeRow(y, 0, next);
      }
      GoesOn(s0, steps, s, x, still, st);
      longer, s', id, n := Rotates(s0, steps + [st], Apply(s, st), x, y, a, still);
    }
  }

  lemma WaitingIsTimely(s: State, y: TxnId)
    requires Inv(s) && y in s.txns && s.txns[y].Waiting?
    ensures s.txns[y].t in s.rows && s.rows[s.txns[y].t].expiresAt > s.txns[y].at
  {
    assert TxnOk(s.rows, s.now, s.txns[y]);
  }

  lemma RunsKeep(s0: State, steps: seq<Step>, s: State, x: TxnId, still: set<UserId>)
    requires Inv(s0) && TimesOk(s0) && Along(s0, steps, s, x, still)
    ensures Inv(s) && TimesOk(s) && s.ttl == s0.ttl
  {
    hide Inv, TimesOk, Runs;
    RunKeeps(s0, steps, s);
    RunKeepsTimes(s0, steps, s);
  }

  /** With nobody else about, a statement gets all the locks it waits for. */
  lemma {:induction false} LocksAll(s0: State, steps: seq<Step>, s: State, x: TxnId, still: set<UserId>)
    returns (longer: seq<Step>, s': State)
    requires Along(s0, steps, s, x, still) && s.txns.Keys == {x}
    ensures Along(s0, longer, s', x, still) && s' == s.(txns := map[x := Drained(s.txns[x])])
    decreases |Pending(s.txns[x])|
  {
    hide Along, Runs;
    if a :| a in Pending(s.txns[x]) {
      GoesOn(s0, steps, s, x, still, LockRow(x, a));
      assert Pending(Locked(s.txns[x], a)) == Pending(s.txns[x]) - {a};
      longer, s' := LocksAll(s0, steps + [LockRow(x, a)], Apply(s, LockRow(x, a)), x, still);
    } else {
      longer, s' := steps, s;
      assert Pending(s.txns[x]) == {};
      assert s.txns == map[x := Drained(s.txns[x])];
    }
  }
}
