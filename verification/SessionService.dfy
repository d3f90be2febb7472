/** AuthSessions: issue, refresh, revokeChain and revoke on the auth_session rows, one transaction at a time. */
module SessionService {
  import opened Prelude
  import opened SessionModel
  import opened SessionSafety

  // ----- What the hop-by-hop walk reaches -----

  /** Everything at most `k` hops down the chain from `t`, `t` included. */
  ghost function Within(rows: Rows, t: Token, k: nat): set<Token> {
    if k == 0 then {t} else Within(rows, t, k - 1) + HopRows(rows, Within(rows, t, k - 1))
  }

  ghost function Descendants(rows: Rows, t: Token): set<Token> { set a | a in rows && Descends(rows, t, a) }

  /** Path `path` starts at `t` itself, or with the first successor. */
  ghost function Hops(t: Token, path: seq<Token>): int
    requires |path| > 0
  {
    if path[0] == t then |path| - 1 else |path|
  }

  /** After `k` hops the walk has reached exactly the sessions a path of at most `k` hops leads to. */
  lemma {:induction false} WithinIsDistance(rows: Rows, t: Token, k: nat, a: Token)
    ensures a in Within(rows, t, k) && a in rows <==>
      exists path :: Path(rows, t, path) && path[|path| - 1] == a && Hops(t, path) <= k
  {
    if a in Within(rows, t, k) && a in rows { var path := WithinHasPath(rows, t, k, a); }
    forall path | Path(rows, t, path) && path[|path| - 1] == a && Hops(t, path) <= k
      ensures a in Within(rows, t, k) && a in rows {
      PathIsWithin(rows, t, k, path);
    }
  }

  lemma {:induction false} WithinHasPath(rows: Rows, t: Token, k: nat, a: Token) returns (path: seq<Token>)
    requires a in Within(rows, t, k) && a in rows
    ensures Path(rows, t, path) && path[|path| - 1] == a && Hops(t, path) <= k
  {
    if a == t {
      path := [t];
    } else if a in Within(rows, t, k - 1) {
      path := WithinHasPath(rows, t, k - 1, a);
    } else if rows[a].prev == Some(t) {
      path := [a];
    } else {
      var b := rows[a].prev.value;
      WithinIsRows(rows, t, k - 1, b);
      var front := WithinHasPath(rows, t, k - 1, b);
      path := front + [a];
      forall i | 0 <= i < |path| - 1 ensures rows[path[i + 1]].prev == Some(path[i]) {
        if i + 1 < |front| { assert rows[front[i + 1]].prev == Some(front[i]); }
      }
    }
  }

  lemma {:induction false} WithinIsRows(rows: Rows, t: Token, k: nat, a: Token)
    requires a in Within(rows, t, k) && a != t
    ensures a in rows
  {
    if k > 0 && a in Within(rows, t, k - 1) { WithinIsRows(rows, t, k - 1, a); }
  }

  lemma {:induction false} PathIsWithin(rows: Rows, t: Token, k: nat, path: seq<Token>)
    requires Path(rows, t, path) && Hops(t, path) <= k
    ensures path[|path| - 1] in Within(rows, t, k) && path[|path| - 1] in rows
  {
    if |path| == 1 {
      WithinGrows(rows, t, if path[0] == t then 0 else 1, k);
    } else {
      var front := path[..|path| - 1];
      assert forall i :: 0 <= i < |front| - 1 ==> rows[front[i + 1]].prev == Some(front[i]) by {
        forall i | 0 <= i < |front| - 1 ensures rows[front[i + 1]].prev == Some(front[i]) {
          assert rows[path[i + 1]].prev == Some(path[i]);
        }
      }
      PathIsWithin(rows, t, k - 1, front);
      assert rows[path[|path| - 2 + 1]].prev == Some(path[|path| - 2]);
    }
  }

  lemma {:induction false} WithinGrows(rows: Rows, t: Token, j: nat, k: nat)
    requires j <= k
    ensures Within(rows, t, j) <= Within(rows, t, k)
    decreases k
  {
    if j < k { WithinGrows(rows, t, j, k - 1); }
  }

  /** Once a hop finds nothing new, no later hop does. */
  lemma {:induction false} WithinSettles(rows: Rows, t: Token, j: nat, k: nat)
    requires 0 < j <= k && Within(rows, t, j) == Within(rows, t, j - 1)
    ensures Within(rows, t, k) == Within(rows, t, j)
    decreases k
  {
    if j < k { WithinSettles(rows, t, j, k - 1); }
  }

  /** A walk that found nothing new has found exactly the descendants. */
  lemma SettledIsDescendants(rows: Rows, t: Token, k: nat)
    requires k > 0 && Within(rows, t, k) == Within(rows, t, k - 1)
    ensures HopRows(rows, Within(rows, t, k - 1)) == Descendants(rows, t)
  {
    var w := Within(rows, t, k - 1);
    assert Closed(rows, t, w) by { WithinGrows(rows, t, 0, k - 1); }
    ClosedHoldsDescendants(rows, t, w);
    forall a | a in HopRows(rows, w) ensures Descends(rows, t, a) { var path := WithinHasPath(rows, t, k, a); }
  }

  // ----- What revokeChain does -----

  /** The walk runs out of new sessions before the hop limit. */
  ghost predicate ChainFits(rows: Rows, t: Token) {
    Within(rows, t, MAX_REVOKE_CHAIN_HOPS) == Within(rows, t, MAX_REVOKE_CHAIN_HOPS - 1)
  }

  /** Exactly the descendants are revoked; past the hop limit, every open session of the user met on the first hop. */
  ghost predicate ChainRevoked(rows: Rows, rows': Rows, t: Token) {
    if ChainFits(rows, t) then rows' == Revoked(rows, Descendants(rows, t))
    else exists a :: a in HopRows(rows, {t}) && rows' == Revoked(rows, OpenRowsOf(rows, rows[a].user))
  }

  /** That is: every session that descends from the token does so in at most 31 rotations. */
  lemma WhenTheWalkSuffices(rows: Rows, t: Token)
    ensures ChainFits(rows, t) <==> forall a :: Descends(rows, t, a) ==>
      exists path :: Path(rows, t, path) && path[|path| - 1] == a && Hops(t, path) <= 31
  {
    hide HopRows;
    if ChainFits(rows, t) {
      forall a | Descends(rows, t, a)
        ensures exists path :: Path(rows, t, path) && path[|path| - 1] == a && Hops(t, path) <= 31 {
        SettledIsDescendants(rows, t, 32);
        HopIsWithin(rows, t, 31);
        assert a in Descendants(rows, t) by { DescendantsAreRows(rows, t, a); }
        WithinIsDistance(rows, t, 31, a);
      }
    } else {
      WithinGrows(rows, t, 31, 32);
      var a :| a in Within(rows, t, 32) && a !in Within(rows, t, 31);
      assert t in Within(rows, t, 0);
      WithinGrows(rows, t, 0, 31);
      WithinIsRows(rows, t, 32, a);
      WithinIsDistance(rows, t, 32, a);
      var path :| Path(rows, t, path) && path[|path| - 1] == a && Hops(t, path) <= 32;
      assert Descends(rows, t, a);
      WithinIsDistance(rows, t, 31, a);
    }
  }

  lemma HopIsWithin(rows: Rows, t: Token, k: nat)
    requires Within(rows, t, k + 1) == Within(rows, t, k)
    ensures HopRows(rows, Within(rows, t, k)) <= Within(rows, t, k)
  {
  }

  lemma DescendantsAreRows(rows: Rows, t: Token, a: Token)
    requires Descends(rows, t, a)
    ensures a in Descendants(rows, t)
  {
  }

  lemma {:induction false} LineSharesTheUser(rows: Rows, t: Token, path: seq<Token>, i: nat)
    requires Linear(rows) && Path(rows, t, path) && i < |path|
    ensures t in rows && rows[path[i]].user == rows[t].user
  {
    if i > 0 {
      LineSharesTheUser(rows, t, path, i - 1);
      assert rows[path[(i - 1) + 1]].prev == Some(path[i - 1]);
    }
  }

  /** With no rotation in flight the hop limit costs nothing: either way no descendant stays open, and only sessions of
      the same user are touched. */
  lemma NoDescendantStaysOpen(rows: Rows, rows': Rows, t: Token, a: Token)
    requires Linear(rows) && ChainRevoked(rows, rows', t) && a in rows
    ensures a in rows' && (Descends(rows, t, a) ==> rows'[a].revoked)
    ensures rows'[a] != rows[a] ==> t in rows && rows[a].user == rows[t].user && rows'[a].revoked
  {
    if Descends(rows, t, a) {
      var path :| Path(rows, t, path) && path[|path| - 1] == a;
      LineSharesTheUser(rows, t, path, |path| - 1);
    }
  }

  lemma OnlyElement<T>(s: set<T>, x: T)
    requires |s| == 1 && x in s
    ensures s == {x}
  {
    assert |s - {x}| == 0;
  }

  lemma HopSplits(rows: Rows, a: set<Token>, b: set<Token>)
    ensures HopRows(rows, a + b) == HopRows(rows, a) + HopRows(rows, b)
  {
  }

  /** The session of `t` is open, unexpired and an active user's. */
  predicate Usable(rows: Rows, active: set<UserId>, t: Token, now: nat) {
    t in rows && !rows[t].revoked && rows[t].expiresAt > now && rows[t].user in active
  }

  /** `a` was put in the place of `t` less than 30 seconds ago, can still be read back, and is usable. */
  predicate JustRotated(rows: Rows, active: set<UserId>, t: Token, now: nat, a: Token) {
    Usable(rows, active, a, now) && rows[a].prev == Some(t) && rows[a].rotatedAt + 30 > now && rows[a].grace.Some?
  }

  lemma AnswersAreJustRotated(rows: Rows, active: set<UserId>, t: Token, now: nat, a: Token)
    requires Linear(rows) && CopiesOwn(rows)
    ensures Answers(rows, active, t, now, a) <==> JustRotated(rows, active, t, now, a)
    ensures JustRotated(rows, active, t, now, a) ==> !Usable(rows, active, t, now)
  {
    if Answers(rows, active, t, now, a) { GraceAnswer(rows, active, t, now, a); }
    if JustRotated(rows, active, t, now, a) { assert Graced(rows, active, t, now) == {a}; }
  }

  class AuthSessions {
    var rows: Rows
    const ttl: nat

    constructor (ttl: nat)
      requires ttl > 0
      ensures Valid() && rows == map[] && this.ttl == ttl
    {
      rows := map[];
      this.ttl := ttl;
    }

    ghost predicate Valid() reads this { Linear(rows) && CopiesOwn(rows) && ttl > 0 }

    /** A login's session. `id` and `token` are the random values drawn for it. */
    method Issue(user: UserId, now: nat, id: SessionId, token: Token)
      requires Valid() && token !in rows
      modifies this`rows
      ensures Valid()
      ensures rows == old(rows)[token := Session(id, user, None, 0, now + ttl, false, None)]
    {
      SaveSession(user, token, now, id, None);
    }

    /** Insert a row; a rotation also records the spent token and the encrypted copy of the new one. */
    method SaveSession(user: UserId, token: Token, now: nat, id: SessionId, spent: Option<Token>)
      requires Valid() && token !in rows
      requires spent.Some? ==> spent.value in rows && rows[spent.value].revoked && rows[spent.value].user == user
      requires spent.Some? ==> forall a :: a in rows ==> rows[a].prev != spent
      modifies this`rows
      ensures Valid()
      ensures rows
        == old(rows)[token := if spent.Some? then Successor(id, user, spent.value, token, now, ttl)
        else Login(id, user, now, ttl)]
    {
      var row := Session(id, user, spent, if spent.Some? then now else 0, now + ttl, false,
                         if spent.Some? then Some(GraceCopy(id, token)) else None);
      InsertKeepsRows(rows, token, row);
      rows := rows[token := row];
    }

    /** None is the 401 INVALID_REFRESH_TOKEN. `next` and `id` are the random values a rotation would use. */
    method Refresh(t: Token, active: set<UserId>, now: nat, id: SessionId, next: Token) returns (r: Option<Token>)
      requires Valid() && next !in rows && next != t
      modifies this`rows
      ensures Valid()
      // An open, unexpired session of an active user is rotated; one rotated less than 30 seconds ago is answered with
      // its successor, if that is such a session; anything else is refused.
      ensures Usable(old(rows), active, t, now) ==>
        var spent := old(rows)[t].(revoked := true, grace := None);
        var heir := Session(id, spent.user, Some(t), now, now + ttl, false, Some(GraceCopy(id, next)));
        r == Some(next) && rows == old(rows)[t := spent][next := heir]
      ensures forall a: Token :: JustRotated(old(rows), active, t, now, a) ==> r == Some(a) && rows == old(rows)
      ensures r == None
        <==> !Usable(old(rows), active, t, now) && forall a: Token :: !JustRotated(old(rows), active, t, now, a)
      ensures Consumable(old(rows), active, t, now) ==>
        r == Some(next) && rows == Revoked(old(rows), {t})[next := Successor(id, old(rows)[t].user, t, next, now, ttl)]
      ensures !Consumable(old(rows), active, t, now) ==> forall a: Token :: Answers(old(rows), active, t, now, a) ==>
        r == Some(a) && rows == old(rows)
      ensures r == None
        <==> !Consumable(old(rows), active, t, now) && forall a: Token :: !Answers(old(rows), active, t, now, a)
      ensures r == None ==> ChainRevoked(old(rows), rows, t)
      ensures r.Some? ==> t in rows && r.value in rows
      ensures r.Some? ==> rows[r.value].Live(now) && rows[r.value].user == rows[t].user && rows[t].user in active
      ensures r.Some? ==> (set a | a in rows && rows[a].prev == Some(t)) == {r.value}
    {
      forall a: Token ensures Answers(rows, active, t, now, a) <==> JustRotated(rows, active, t, now, a) {
        AnswersAreJustRotated(rows, active, t, now, a);
      }
      if Consumable(rows, active, t, now) {
        var user := rows[t].user;
        RevokeKeepsRows(rows, {t});
        rows := Revoked(rows, {t});
        SaveSession(user, next, now, id, Some(t));
        return Some(next);
      }
      var successor := Graced(rows, active, t, now);
      if |successor| == 1 {
        var a :| a in successor;
        OnlyElement(successor, a);
        var graced := Decrypt(rows[a].id, rows[a].grace.value);
        if graced.Some? {
          assert Answers(rows, active, t, now, graced.value);
          forall b | Answers(rows, active, t, now, b) ensures b == graced.value {
            assert Graced(rows, active, t, now) == {a};
          }
          return graced;
        }
      }
      RevokeChain(t);
      return None;
    }

    /** Revoke the session of `t` and all sessions derived from it, following the chain hop by hop. */
    method RevokeChain(t: Token)
      requires Valid()
      modifies this`rows
      ensures Valid() && ChainRevoked(old(rows), rows, t)
    {
      var ids: set<Token>, seen: set<Token>, frontier := {}, {}, {t};
      var user: Option<UserId> := None;
      var hops := 0;
      while frontier != {}
        invariant 0 <= hops <= MAX_REVOKE_CHAIN_HOPS && rows == old(rows)
        invariant seen == (if hops == 0 then {} else Within(rows, t, hops - 1))
        invariant frontier == Within(rows, t, hops) - seen && ids == HopRows(rows, seen)
        invariant hops > 0 && user.None? ==> HopRows(rows, {t}) == {} && frontier == {}
        invariant user.Some? ==> exists a :: a in HopRows(rows, {t}) && rows[a].user == user.value
        decreases MAX_REVOKE_CHAIN_HOPS - hops
      {
        if hops >= MAX_REVOKE_CHAIN_HOPS {
          assert !ChainFits(rows, t);
          RevokeAllSessionsOfUser(user.value);
          return;
        }
        assert hops > 0 ==> Within(rows, t, hops) == seen + HopRows(rows, seen);
        var hop := HopRows(rows, frontier);
        HopSplits(rows, seen, frontier);
        assert seen + frontier == Within(rows, t, hops);
        seen := seen + frontier;
        ids := ids + hop;
        if user.None? && hop != {} {
          var first :| first in hop;
          user := Some(rows[first].user);
        }
        frontier := hop - seen;
        hops := hops + 1;
      }
      assert t in Within(rows, t, 0) - {};
      assert Within(rows, t, hops) == seen by {
        WithinGrows(rows, t, hops - 1, hops);
        assert Within(rows, t, hops) <= seen + frontier;
      }
      WithinSettles(rows, t, hops, MAX_REVOKE_CHAIN_HOPS);
      if hops < MAX_REVOKE_CHAIN_HOPS { WithinSettles(rows, t, hops, MAX_REVOKE_CHAIN_HOPS - 1); }
      SettledIsDescendants(rows, t, hops);
      RevokeKeepsRows(rows, ids);
      rows := Revoked(rows, ids);
    }

    method RevokeAllSessionsOfUser(user: UserId)
      requires Valid()
      modifies this`rows
      ensures Valid() && rows == Revoked(old(rows), OpenRowsOf(old(rows), user))
      ensures rows.Keys == old(rows).Keys
      ensures forall a :: a in rows ==>
        var row := old(rows)[a];
        rows[a] == if row.user == user && !row.revoked then row.(revoked := true, grace := None) else row
    {
      hide Linear, CopiesOwn;
      ghost var open := OpenRowsOf(rows, user);
      RevokeKeepsRows(rows, open);
      rows := map a | a in rows :: if rows[a].user == user && !rows[a].revoked
        then rows[a].(revoked := true, grace := None) else rows[a];
      assert rows == Revoked(old(rows), open);
    }

    /** Logout. */
    method Revoke(t: Token, now: nat)
      requires Valid()
      modifies this`rows
      ensures Valid() && rows == Revoked(old(rows), LogoutRows(old(rows), t, now))
      // A row changes iff it is open and the token's own, or the successor of a rotation less than 30 seconds ago.
      ensures rows.Keys == old(rows).Keys
      ensures forall a :: a in rows ==>
        var row := old(rows)[a];
        var closes := !row.revoked && (a == t || (row.prev == Some(t) && row.rotatedAt + 30 > now));
        rows[a] == if closes then row.(revoked := true, grace := None) else row
      ensures forall active, later: nat :: later >= now ==> !Consumable(rows, active, t, later)
      ensures forall active, later: nat, a: Token :: later >= now ==> !Answers(rows, active, t, later, a)
    {
      hide Linear, CopiesOwn;
      ghost var gone := LogoutRows(rows, t, now);
      RevokeKeepsRows(rows, gone);
      rows := map a | a in rows ::
        if !rows[a].revoked && (a == t || (rows[a].prev == Some(t) && rows[a].rotatedAt + REFRESH_REUSE_GRACE > now))
        then rows[a].(revoked := true, grace := None) else rows[a];
      assert rows == Revoked(old(rows), gone);
      forall active, later: nat, a: Token | later >= now && Answers(rows, active, t, later, a) ensures false {
        GraceAnswer(rows, active, t, later, a);
      }
    }
  }
}
