/** The promises of refresh, chain revocation and logout, over every interleaving. */
module SessionTheorems {
  import opened Prelude
  import opened SessionModel
  import opened SessionRaces
  import opened SessionSafety

  /** The lifetime of an inserted session counts from the start of its transaction. */
  ghost predicate TimesOk(s: State) {
    forall x :: x in s.txns && s.txns[x].Rotating? ==>
      s.txns[x].session.expiresAt == s.txns[x].session.rotatedAt + s.ttl
  }

  lemma {:induction false} RunKeepsTimes(s: State, steps: seq<Step>, s': State)
    requires TimesOk(s) && Runs(s, steps, s')
    ensures TimesOk(s') && s'.ttl == s.ttl
    decreases |steps|
  {
    if steps != [] { RunKeepsTimes(Apply(s, steps[0]), steps[1..], s'); }
  }

  lemma Reached(active: set<UserId>, ttl: nat, steps: seq<Step>, s: State)
    requires Runs(Init(active, ttl), steps, s)
    ensures Inv(s) && TimesOk(s) && s.ttl == ttl
  {
    InitInv(active, ttl);
    RunKeeps(Init(active, ttl), steps, s);
    RunKeepsTimes(Init(active, ttl), steps, s);
  }

  // ----- Families -----

  /** A session has at most one successor, of the same user, and then it is revoked; a family has at most one open
      session. */
  lemma FamiliesStayLinear(active: set<UserId>, ttl: nat, steps: seq<Step>, s: State, a: Token, b: Token)
    requires Runs(Init(active, ttl), steps, s) && a in s.rows && b in s.rows
    ensures s.rows[a].prev.Some? && s.rows[a].prev == s.rows[b].prev ==> a == b
    ensures s.rows[b].prev == Some(a) ==> s.rows[a].revoked && s.rows[a].user == s.rows[b].user
    ensures SameFamily(s.rows, a, b) && !s.rows[a].revoked && !s.rows[b].revoked ==> a == b
  {
    Reached(active, ttl, steps, s);
    if SameFamily(s.rows, a, b) && !s.rows[a].revoked && !s.rows[b].revoked { OneOpenPerFamily(s.rows, a, b); }
  }

  // ----- Chain revocation -----

  /** Nothing in `d` is open, nothing in `d` is being rotated, and every successor of `d` is in `d`: so it stays. */
  ghost predicate Extinct(s: State, d: set<Token>) {
    && (forall h :: h in d ==> h in s.rows && s.rows[h].revoked)
    && (forall a :: a in s.rows && s.rows[a].prev.Some? && s.rows[a].prev.value in d ==> a in d)
    && (forall y :: y in s.txns && s.txns[y].Rotating? ==> s.txns[y].spent !in d)
  }

  lemma ExtinctStays(s: State, st: Step, d: set<Token>)
    requires Inv(s) && Enabled(s, st) && Extinct(s, d)
    ensures Extinct(Apply(s, st), d)
  {
    hide CopiesOwn, Linear, Apart, GrantsOk, WalkOk, SweepsUser, SweepsLogout;
    if st.CommitRotation? { assert TxnOk(s.rows, s.now, s.txns[st.x]); }
  }

  lemma {:induction false} ExtinctForever(s: State, steps: seq<Step>, s': State, d: set<Token>)
    requires Inv(s) && Runs(s, steps, s') && Extinct(s, d)
    ensures Extinct(s', d)
    decreases |steps|
  {
    if steps != [] {
      StepKeeps(s, steps[0]);
      ExtinctStays(s, steps[0], d);
      ExtinctForever(Apply(s, steps[0]), steps[1..], s', d);
    }
  }

  /** Every step of a walk moves it forward: fewer rows to wait for, or the next hop, and hops are at most 32. */
  function HopsLeft(w: Walk): int { MAX_REVOKE_CHAIN_HOPS - w.hops }

  predicate Advances(w: Walk, w': Walk) {
    HopsLeft(w') < HopsLeft(w)
    || (HopsLeft(w') == HopsLeft(w) && w.hop.None? && w'.hop.Some?)
    || (HopsLeft(w') == HopsLeft(w) && w.hop.Some? && w'.hop.Some? && w'.hop.value.pending < w.hop.value.pending)
  }

  lemma WalkTerminates(active: set<UserId>, ttl: nat, steps: seq<Step>, s: State, st: Step, x: TxnId)
    requires Runs(Init(active, ttl), steps, s) && Enabled(s, st)
    requires x in s.txns && s.txns[x].Walking? && (st.HopStart? || st.LockRow? || st.HopEnd?) && st.x == x
    ensures Apply(s, st).txns[x].Walking? && Advances(s.txns[x].w, Apply(s, st).txns[x].w)
    ensures HopsLeft(Apply(s, st).txns[x].w) >= 0
  {
    hide Linear, CopiesOwn, Apart, GrantsOk;
    Reached(active, ttl, steps, s);
    assert TxnOk(s.rows, s.now, s.txns[x]);
    StepKeeps(s, st);
    assert TxnOk(Apply(s, st).rows, s.now, Apply(s, st).txns[x]);
  }

  // ----- Past 32 hops -----

  lemma {:induction false} DescendantsShareTheUser(rows: Rows, t: Token, path: seq<Token>, i: nat)
    requires Linear(rows) && t in rows && Path(rows, t, path) && i < |path|
    ensures rows[path[i]].user == rows[t].user
  {
    if i > 0 {
      DescendantsShareTheUser(rows, t, path, i - 1);
      assert rows[path[(i - 1) + 1]].prev == Some(path[i - 1]);
    }
  }

  /** The fallback revokes exactly the descendants that were committed when its statement began: one that a rotation
      committed in the meantime stays as it was. */
  lemma FallbackMissesLateSuccessors(active: set<UserId>, ttl: nat, steps: seq<Step>, s: State, x: TxnId, a: Token)
    requires Runs(Init(active, ttl), steps, s) && Enabled(s, SweepDone(x)) && Descends(s.rows, s.txns[x].t, a)
    ensures var s' := Apply(s, SweepDone(x));
      a in s.rows && a in s'.rows && (!s'.rows[a].revoked <==> !s.rows[a].revoked && a !in s.txns[x].sweep.known)
  {
    hide Linear, CopiesOwn, Apart, GrantsOk;
    Reached(active, ttl, steps, s);
    var t := s.txns[x].t;
    assert TxnOk(s.rows, s.now, s.txns[x]);
    var path :| Path(s.rows, t, path) && path[|path| - 1] == a;
    DescendantsShareTheUser(s.rows, t, path, |path| - 1);
  }

  // ----- Refresh answers -----

  /** A rotation hands out, at its commit, a token whose new session is open, belongs to the same user, and is not yet
      expired unless the transaction itself outlasted the session lifetime. */
  lemma RotationIsSound(active: set<UserId>, ttl: nat, steps: seq<Step>, s: State, x: TxnId)
    requires Runs(Init(active, ttl), steps, s) && Enabled(s, CommitRotation(x))
    ensures var s' := Apply(s, CommitRotation(x));
      var n := s.txns[x].next;
      && n in s'.rows && !s'.rows[n].revoked
      && s.txns[x].spent in s.rows && s'.rows[n].user == s.rows[s.txns[x].spent].user
      && (s.now < s.txns[x].session.rotatedAt + ttl ==> s'.rows[n].Live(s.now))
  {
    Reached(active, ttl, steps, s);
    assert TxnOk(s.rows, s.now, s.txns[x]);
  }

  /** A grace answer is a session that is open, of the same active user, and was unexpired when the refresh began. */
  lemma GraceIsSound(active: set<UserId>, ttl: nat, steps: seq<Step>, s: State, x: TxnId, r: Token)
    requires Runs(Init(active, ttl), steps, s) && Enabled(s, TryGrace(x, r))
    ensures s.txns[x].at <= s.now && r in s.rows && s.rows[r].Live(s.txns[x].at) && s.rows[r].user in s.active
    ensures s.txns[x].t in s.rows && s.rows[r].user == s.rows[s.txns[x].t].user
    ensures Apply(s, TryGrace(x, r)).rows == s.rows
  {
    Reached(active, ttl, steps, s);
    assert TxnOk(s.rows, s.now, s.txns[x]);
    GraceAnswer(s.rows, s.active, s.txns[x].t, s.txns[x].at, r);
  }

  /** All refreshes of one token that ever succeed, by rotation or by grace, hand out the same successor, the only row
      derived from it. */
  lemma GrantsAgree(active: set<UserId>, ttl: nat, steps: seq<Step>, s: State, t: Token, r: Token, q: Token)
    requires Runs(Init(active, ttl), steps, s) && (t, r) in s.grants && (t, q) in s.grants
    ensures r == q
    ensures (set a | a in s.rows && s.rows[a].prev == Some(t)) == {r}
  {
    Reached(active, ttl, steps, s);
    assert (t, r).1 in s.rows && s.rows[r].prev == Some(t) && (t, q).1 in s.rows;
  }
}
