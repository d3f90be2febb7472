/** Three runs of the code that its comments rule out: a logout overtaken by a rotation of the same token, a chain
    longer than 32 hops whose last rotation survives the fallback, and a walk that misses the rotation of its own
    expired token. */
module SessionCounterexamples {
  import opened Prelude
  import opened SessionModel
  import opened SessionRaces

  lemma Extend(s0: State, steps: seq<Step>, s: State, st: Step) returns (longer: seq<Step>, s': State)
    requires Runs(s0, steps, s) && Enabled(s, st)
    ensures Runs(s0, longer, s') && s' == Apply(s, st)
  {
    RunsOn(s0, steps, s, st);
    longer, s' := steps + [st], Apply(s, st);
  }

  const OWNER: UserId := 7
  const LIFETIME: nat := 1209600

  function Start(): State { Init({OWNER}, LIFETIME) }

  // ----- The chain of n rotations of one login, all at time 0 -----

  function Link(n: nat, i: nat): Session {
    if i == 0 then Login(0, OWNER, 0, LIFETIME).(revoked := n > 0)
    else Session(i, OWNER, Some(i - 1), 0, LIFETIME, i < n, if i < n then None else Some(GraceCopy(i, i)))
  }

  function Chain(n: nat): Rows { map i: nat | i <= n :: Link(n, i) }

  ghost predicate At(s: State, rows: Rows, txns: map<TxnId, Txn>) {
    s.rows == rows && s.txns == txns && s.active == {OWNER} && s.now == 0 && s.ttl == LIFETIME
  }

  /** Execution `x` has consumed the last token of the chain and inserted, uncommitted, its successor. */
  function RotatingLast(n: nat): Txn { Rotating(n, n + 1, Successor(n + 1, OWNER, n, n + 1, 0, LIFETIME)) }

  lemma Begins(steps: seq<Step>, s: State, n: nat, x: TxnId, others: map<TxnId, Txn>)
    returns (longer: seq<Step>, s': State)
    requires Runs(Start(), steps, s) && At(s, Chain(n), others) && x !in others
    requires forall y :: y in others ==> others[y].Walking? && n !in Locks(others[y]) && others[y].t <= n
    ensures Runs(Start(), longer, s') && At(s', Chain(n), others[x := RotatingLast(n)])
  {
    assert n in Chain(n) && n + 1 !in Chain(n) && Chain(n)[n] == Link(n, n);
    hide Runs, Chain;
    longer, s' := Extend(Start(), steps, s, Present(x, n));
    longer, s' := Extend(Start(), longer, s', TryUpdate(x));
    assert s'.txns == others[x := Waiting(n, 0)];
    longer, s' := Takes(longer, s', n, x, others);
  }

  lemma Takes(steps: seq<Step>, s: State, n: nat, x: TxnId, others: map<TxnId, Txn>)
    returns (longer: seq<Step>, s': State)
    requires Runs(Start(), steps, s) && At(s, Chain(n), others[x := Waiting(n, 0)]) && x !in others
    requires forall y :: y in others ==> others[y].Walking? && n !in Locks(others[y]) && others[y].t <= n
    ensures Runs(Start(), longer, s') && At(s', Chain(n), others[x := RotatingLast(n)])
  {
    assert n in Chain(n) && n + 1 !in Chain(n) && Chain(n)[n] == Link(n, n);
    hide Runs, Chain;
    longer, s' := Extend(Start(), steps, s, TakeRow(x, n + 1, n + 1));
    assert others[x := Waiting(n, 0)][x := RotatingLast(n)] == others[x := RotatingLast(n)];
  }

  lemma Commits(steps: seq<Step>, s: State, n: nat, x: TxnId, others: map<TxnId, Txn>)
    returns (longer: seq<Step>, s': State)
    requires Runs(Start(), steps, s) && At(s, Chain(n), others[x := RotatingLast(n)]) && x !in others
    ensures Runs(Start(), longer, s') && At(s', Chain(n + 1), others)
  {
    hide Runs;
    longer, s' := Extend(Start(), steps, s, CommitRotation(x));
    assert Without(s.txns, x) == others;
    forall i: nat | i <= n + 1 ensures i in s'.rows && s'.rows[i] == Link(n + 1, i) {
      if i <= n { assert Chain(n)[i] == Link(n, i); }
    }
    assert s'.rows == Chain(n + 1);
  }

  lemma {:induction false} GrowsChain(n: nat) returns (steps: seq<Step>, s: State)
    ensures Runs(Start(), steps, s) && At(s, Chain(n), map[])
  {
    if n == 0 {
      assert Runs(Start(), [], Start());
      steps, s := Extend(Start(), [], Start(), Issue(OWNER, 0, 0));
      assert Chain(0)[0] == Link(0, 0);
      assert s.rows == Chain(0);
    } else {
      steps, s := GrowsChain(n - 1);
      steps, s := Begins(steps, s, n - 1, 0, map[]);
      steps, s := Commits(steps, s, n - 1, 0, map[]);
    }
  }

  // ----- Logout overtaken -----

  function LoggingOutFirst(pending: set<Token>): Txn { LoggingOut(0, Sweep({0}, {0}, pending)) }

  lemma LogoutBegins(steps: seq<Step>, s: State) returns (longer: seq<Step>, s': State)
    requires Runs(Start(), steps, s) && At(s, Chain(0), map[0 := RotatingLast(0)])
    ensures Runs(Start(), longer, s') && At(s', Chain(0), map[1 := LoggingOutFirst({0})][0 := RotatingLast(0)])
  {
    hide Runs;
    longer, s' := Extend(Start(), steps, s, LogoutStart(1, 0));
    assert Chain(0)[0] == Link(0, 0);
    assert LogoutRows(Chain(0), 0, 0) == {0};
    assert Chain(0).Keys == {0};
    assert map[0 := RotatingLast(0)][1 := LoggingOutFirst({0})] == map[1 := LoggingOutFirst({0})][0 := RotatingLast(0)];
  }

  lemma LogoutLocks(steps: seq<Step>, s: State) returns (longer: seq<Step>, s': State)
    requires Runs(Start(), steps, s) && At(s, Chain(1), map[1 := LoggingOutFirst({0})])
    ensures Runs(Start(), longer, s') && At(s', Chain(1), map[1 := LoggingOutFirst({})])
    ensures Enabled(s', LogoutDone(1)) && At(Apply(s', LogoutDone(1)), Chain(1), map[])
  {
    hide Runs;
    longer, s' := Extend(Start(), steps, s, LockRow(1, 0));
    assert {0} - {0} == {};
    assert s'.txns == map[1 := LoggingOutFirst({})];
    assert Chain(1)[0] == Link(1, 0) && Chain(1)[1] == Link(1, 1);
    assert Revoked(Chain(1), {0}) == Chain(1);
    assert Without(s'.txns, 1) == map[];
  }

  /** Refreshing the first token right after its rotation: refused, and then answered with the successor. */
  lemma FirstTokenStillAnswers(s: State) returns (after: seq<Step>, s': State)
    requires At(s, Chain(1), map[])
    ensures Runs(s, after, s') && Enabled(s', TryGrace(2, 1)) && s'.txns[2].t == 0
  {
    hide Runs;
    Stop(s, 2, {});
    after, s' := Extend(s, [], s, Present(2, 0));
    assert Chain(1)[0] == Link(1, 0) && Chain(1)[1] == Link(1, 1);
    after, s' := Extend(s, after, s', TryUpdate(2));
    assert Graced(Chain(1), {OWNER}, 0, 0) == {1};
    assert Answers(Chain(1), {OWNER}, 0, 0, 1);
  }

  /** A logout whose statement began while a rotation of its token was uncommitted leaves the successor open, and a
      later refresh of the logged-out token succeeds through the grace window. */
  lemma LogoutCanBeOvertaken() returns (before: seq<Step>, s: State, x: TxnId, after: seq<Step>, s': State)
    ensures Runs(Start(), before, s) && Enabled(s, LogoutDone(x)) && s.txns[x].t == 0
    ensures Runs(Apply(s, LogoutDone(x)), after, s')
    ensures exists y :: Enabled(s', TryGrace(y, 1)) && s'.txns[y].t == 0
  {
    hide Enabled, Apply, Chain, RotatingLast;
    before, s := GrowsChain(0);
    before, s := Begins(before, s, 0, 0, map[]);
    before, s := LogoutBegins(before, s);
    before, s := Commits(before, s, 0, 0, map[1 := LoggingOutFirst({0})]);
    before, s := LogoutLocks(before, s);
    x := 1;
    after, s' := FirstTokenStillAnswers(Apply(s, LogoutDone(1)));
  }

  // ----- More than 32 hops -----

  function UpTo(k: nat): set<Token> { Chain(k).Keys }

  /** The walk from token 0 after `k` hops along the chain, `k >= 1`: rows 0..k are locked, token k is next. */
  function WalkAt(k: nat): Walk
    requires k > 0
  {
    Walk(k, UpTo(k - 1), {k}, UpTo(k), Some(OWNER), None)
  }

  function Walks(w: Walk): map<TxnId, Txn> { map[1 := Walking(0, w)] }

  lemma StartsWalk(steps: seq<Step>, s: State, n: nat) returns (longer: seq<Step>, s': State)
    requires Runs(Start(), steps, s) && At(s, Chain(n), map[]) && n >= 2
    ensures Runs(Start(), longer, s') && At(s', Chain(n), Walks(Walk(0, {}, {0}, {}, None, None)))
  {
    hide Runs;
    assert Chain(n)[0] == Link(n, 0);
    var a;
    longer, a := Extend(Start(), steps, s, Present(1, 0));
    longer, a := Extend(Start(), longer, a, TryUpdate(1));
    assert Graced(Chain(n), {OWNER}, 0, 0) == {} by {
      forall i | i in Chain(n) ensures !InGrace(Chain(n), {OWNER}, 0, 0, i) { assert Chain(n)[i] == Link(n, i); }
    }
    longer, s' := Extend(Start(), longer, a, NoGrace(1));
  }

  lemma OpensHop(steps: seq<Step>, s: State, n: nat, w: Walk, k: nat, found: set<Token>)
    returns (longer: seq<Step>, s': State)
    requires Runs(Start(), steps, s) && At(s, Chain(n), Walks(w)) && k < n
    requires w.frontier == {k} && w.hop.None? && w.hops < MAX_REVOKE_CHAIN_HOPS && found == {k, k + 1}
    ensures Runs(Start(), longer, s')
    ensures At(s', Chain(n), Walks(w.(seen := w.seen + {k}, hop := Some(Hop(found, found)))))
  {
    hide Runs;
    assert HopRows(Chain(n), {k}) == found by {
      forall i | i in Chain(n) ensures i in HopRows(Chain(n), {k}) <==> i in found { assert Chain(n)[i] == Link(n, i); }
      assert k in Chain(n) && k + 1 in Chain(n);
    }
    longer, s' := Extend(Start(), steps, s, HopStart(1));
  }

  lemma Locks1(steps: seq<Step>, s: State, rows: Rows, w: Walk, found: set<Token>, pending: set<Token>, a: Token)
    returns (longer: seq<Step>, s': State)
    requires Runs(Start(), steps, s) && At(s, rows, Walks(w.(hop := Some(Hop(found, pending))))) && a in pending
    ensures Runs(Start(), longer, s') && At(s', rows, Walks(w.(hop := Some(Hop(found, pending - {a})))))
  {
    hide Runs;
    longer, s' := Extend(Start(), steps, s, LockRow(1, a));
  }

  lemma ClosesHop(steps: seq<Step>, s: State, n: nat, w: Walk, k: nat) returns (longer: seq<Step>, s': State)
    requires Runs(Start(), steps, s) && At(s, Chain(n), Walks(w.(hop := Some(Hop({k, k + 1}, {}))))) && k < n
    requires k in w.seen && k + 1 !in w.seen && (w.user == None || w.user == Some(OWNER))
    ensures Runs(Start(), longer, s')
    ensures At(s', Chain(n), Walks(Walk(w.hops + 1, w.seen, {k + 1}, w.ids + {k, k + 1}, Some(OWNER), None)))
  {
    hide Runs;
    assert Chain(n)[k] == Link(n, k);
    longer, s' := Extend(Start(), steps, s, HopEnd(1, k));
    assert {k, k + 1} - w.seen == {k + 1};
  }

  /** One whole hop from frontier {k}: the select finds rows k and k + 1 and waits for nobody. */
  lemma Hops(steps: seq<Step>, s: State, n: nat, w: Walk, k: nat) returns (longer: seq<Step>, s': State)
    requires Runs(Start(), steps, s) && At(s, Chain(n), Walks(w)) && k < n
    requires w.frontier == {k} && w.hop.None? && w.hops < MAX_REVOKE_CHAIN_HOPS && k + 1 !in w.seen
    requires w.user == None || w.user == Some(OWNER)
    ensures Runs(Start(), longer, s')
    ensures At(s', Chain(n), Walks(Walk(w.hops + 1, w.seen + {k}, {k + 1}, w.ids + {k, k + 1}, Some(OWNER), None)))
  {
    hide Runs, Chain, At, Walks;
    var found := {k, k + 1};
    var w1 := w.(seen := w.seen + {k});
    var a;
    longer, a := OpensHop(steps, s, n, w, k, found);
    assert w.(seen := w.seen + {k}, hop := Some(Hop(found, found))) == w1.(hop := Some(Hop(found, found)));
    longer, a := Locks1(longer, a, Chain(n), w1, found, found, k);
    longer, a := Locks1(longer, a, Chain(n), w1, found, found - {k}, k + 1);
    assert found - {k} - {k + 1} == {};
    longer, s' := ClosesHop(longer, a, n, w1, k);
  }

  lemma {:induction false} WalksTo(n: nat, k: nat) returns (steps: seq<Step>, s: State)
    requires 1 <= k < n && k <= MAX_REVOKE_CHAIN_HOPS
    ensures Runs(Start(), steps, s) && At(s, Chain(n), Walks(WalkAt(k)))
  {
    hide Runs, At, Walks;
    if k == 1 {
      steps, s := GrowsChain(n);
      steps, s := StartsWalk(steps, s, n);
      steps, s := Hops(steps, s, n, Walk(0, {}, {0}, {}, None, None), 0);
      assert {} + {0} == UpTo(0) && {} + {0, 1} == UpTo(1);
    } else {
      steps, s := WalksTo(n, k - 1);
      steps, s := Hops(steps, s, n, WalkAt(k - 1), k - 1);
      assert UpTo(k - 2) + {k - 1} == UpTo(k - 1) && UpTo(k - 1) + {k - 1, k} == UpTo(k);
    }
  }

  function SweepingLast(n: nat, pending: set<Token>): Txn
    requires n > 0
  {
    Sweeping(0, UpTo(n - 1), OWNER, Sweep(UpTo(n), {n}, pending))
  }

  lemma FallsBack(steps: seq<Step>, s: State, n: nat) returns (longer: seq<Step>, s': State)
    requires n == MAX_REVOKE_CHAIN_HOPS + 1
    requires Runs(Start(), steps, s) && At(s, Chain(n), Walks(WalkAt(n - 1))[0 := RotatingLast(n)])
    ensures Runs(Start(), longer, s') && At(s', Chain(n), map[1 := SweepingLast(n, {n})][0 := RotatingLast(n)])
  {
    hide Runs;
    longer, s' := Extend(Start(), steps, s, SweepStart(1));
    assert OpenRowsOf(Chain(n), OWNER) == {n} by {
      forall i | i in Chain(n) ensures i in OpenRowsOf(Chain(n), OWNER) <==> i == n {
        assert Chain(n)[i] == Link(n, i);
      }
      assert n in Chain(n);
    }
    assert s'.txns == map[1 := SweepingLast(n, {n})][0 := RotatingLast(n)];
  }

  lemma SweepLocks(steps: seq<Step>, s: State, n: nat) returns (longer: seq<Step>, s': State)
    requires n > 0 && Runs(Start(), steps, s) && At(s, Chain(n + 1), map[1 := SweepingLast(n, {n})])
    ensures Runs(Start(), longer, s') && At(s', Chain(n + 1), map[1 := SweepingLast(n, {})])
    ensures Enabled(s', SweepDone(1)) && At(Apply(s', SweepDone(1)), Chain(n + 1), map[])
  {
    hide Runs;
    longer, s' := Extend(Start(), steps, s, LockRow(1, n));
    assert {n} - {n} == {};
    assert s'.txns == map[1 := SweepingLast(n, {})];
    assert Chain(n + 1)[n] == Link(n + 1, n);
    assert Revoked(Chain(n + 1), {n}) == Chain(n + 1);
    assert Without(s'.txns, 1) == map[];
  }

  lemma ChainDescends(n: nat, a: nat)
    requires a <= n
    ensures Descends(Chain(n), 0, a)
  {
    var path := seq(a + 1, i => i);
    assert Path(Chain(n), 0, path) by {
      forall i | 0 <= i < |path| - 1 ensures Chain(n)[path[i + 1]].prev == Some(path[i]) {
        assert Chain(n)[i + 1] == Link(n, i + 1);
      }
    }
    assert path[|path| - 1] == a;
  }

  /** Reuse of the first token of a chain of 33 rotations, while the 34th is uncommitted: when the fallback commits, the
      newest session of the reused token's family is still open. */
  lemma FallbackCanLeaveASessionOpen() returns (steps: seq<Step>, s: State, x: TxnId, a: Token)
    ensures Runs(Start(), steps, s) && Enabled(s, SweepDone(x)) && Descends(s.rows, s.txns[x].t, a)
    ensures a in Apply(s, SweepDone(x)).rows && Apply(s, SweepDone(x)).rows[a].Live(s.now)
  {
    hide Runs, Enabled, Apply, Descends;
    var n := MAX_REVOKE_CHAIN_HOPS + 1;
    steps, s := WalksTo(n, n - 1);
    steps, s := Begins(steps, s, n, 0, Walks(WalkAt(n - 1)));
    steps, s := FallsBack(steps, s, n);
    steps, s := Commits(steps, s, n, 0, map[1 := SweepingLast(n, {n})]);
    steps, s := SweepLocks(steps, s, n);
    x, a := 1, n + 1;
    ChainDescends(n + 1, a);
    assert Chain(n + 1)[a] == Link(n + 1, a);
  }

  // ----- The walk and its own token's rotation -----

  function Mine(): Session { Login(0, OWNER, 0, LIFETIME) }

  function Late(): Session { Successor(1, OWNER, 0, 1, LIFETIME - 1, LIFETIME) }

  function Stuck(pending: set<Token>): Walk { Walk(0, {0}, {0}, {}, None, Some(Hop({0}, pending))) }

  lemma RotatesAtTheLastMoment() returns (steps: seq<Step>, s: State)
    ensures Runs(Start(), steps, s)
    ensures s == State(map[0 := Mine()], map[0 := Rotating(0, 1, Late())], {OWNER}, LIFETIME, LIFETIME, {})
  {
    hide Runs;
    Stop(Start(), 0, {});
    steps, s := Extend(Start(), [], Start(), Issue(OWNER, 0, 0));
    steps, s := Extend(Start(), steps, s, Tick(LIFETIME - 1));
    steps, s := Extend(Start(), steps, s, Present(0, 0));
    steps, s := Extend(Start(), steps, s, TryUpdate(0));
    steps, s := Extend(Start(), steps, s, TakeRow(0, 1, 1));
    steps, s := Extend(Start(), steps, s, Tick(1));
  }

  /** The token has expired: the second refresh waits for nobody, sees no successor, and begins its walk. */
  lemma SecondRefreshIsRefused(steps: seq<Step>, s: State) returns (longer: seq<Step>, s': State)
    requires Runs(Start(), steps, s)
    requires s == State(map[0 := Mine()], map[0 := Rotating(0, 1, Late())], {OWNER}, LIFETIME, LIFETIME, {})
    ensures Runs(Start(), longer, s')
    ensures s' == s.(txns := map[0 := Rotating(0, 1, Late()), 1 := Walking(0, Stuck({0}))])
  {
    hide Runs;
    longer, s' := Extend(Start(), steps, s, Present(1, 0));
    longer, s' := Extend(Start(), longer, s', TryUpdate(1));
    assert Graced(s.rows, s.active, 0, s.now) == {};
    longer, s' := Extend(Start(), longer, s', NoGrace(1));
    longer, s' := Extend(Start(), longer, s', HopStart(1));
    assert HopRows(s.rows, {0}) == {0} && {} + {0} == {0};
    assert s'.txns == map[0 := Rotating(0, 1, Late()), 1 := Walking(0, Stuck({0}))];
  }

  lemma RotationCommits(steps: seq<Step>, s: State) returns (longer: seq<Step>, s': State)
    requires Runs(Start(), steps, s)
    requires s
      == State(map[0 := Mine()], map[0 := Rotating(0, 1, Late()), 1 := Walking(0, Stuck({0}))], {OWNER}, LIFETIME,
      LIFETIME, {})
    ensures Runs(Start(), longer, s')
    ensures s'
      == State(map[0 := Mine().(revoked := true), 1 := Late()], map[1 := Walking(0, Stuck({}))], {OWNER}, LIFETIME,
      LIFETIME, {(0, 1)})
  {
    hide Runs;
    longer, s' := Extend(Start(), steps, s, CommitRotation(0));
    assert s'.rows == map[0 := Mine().(revoked := true), 1 := Late()];
    assert s'.txns == map[1 := Walking(0, Stuck({0}))];
    longer, s' := Extend(Start(), longer, s', LockRow(1, 0));
    assert {0} - {0} == {};
  }

  /** A token expires while its rotation is uncommitted; a second refresh with it is refused, and its walk, whose first
      select waits for the rotation but does not hold the successor, commits with the successor open and live. */
  lemma WalkCanMissItsOwnRotation() returns (steps: seq<Step>, s: State, x: TxnId, a: Token)
    ensures Runs(Start(), steps, s) && Enabled(s, WalkDone(x)) && s.txns[x].t == 0
    ensures var rows := Apply(s, WalkDone(x)).rows; a in rows && rows[a].prev == Some(0) && rows[a].Live(s.now)
  {
    hide Runs;
    steps, s := RotatesAtTheLastMoment();
    steps, s := SecondRefreshIsRefused(steps, s);
    steps, s := RotationCommits(steps, s);
    steps, s := Extend(Start(), steps, s, HopEnd(1, 0));
    x, a := 1, 1;
  }
}
