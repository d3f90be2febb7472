/** Refresh sessions: the rows of auth_session and the statements on them. Tokens stand for their hashes
    (sha256 is taken to be injective), so a row is found by its own token. */
module SessionModel {
  import opened Prelude

  type Token = nat
  type SessionId = nat
  type UserId = nat

  /** Seconds in which an already rotated token still gets its successor. */
  const REFRESH_REUSE_GRACE := 30
  const MAX_REVOKE_CHAIN_HOPS := 32

  /** The encrypted successor token, bound to the id of the row that holds it. */
  datatype GraceCopy = GraceCopy(row: SessionId, token: Token)

  /** decryptGraceToken as an ideal box: it opens only for the row it was made for. */
  function Decrypt(id: SessionId, copy: GraceCopy): Option<Token> {
    if copy.row == id then Some(copy.token) else None
  }

  datatype Session = Session(id: SessionId, user: UserId, prev: Option<Token>, rotatedAt: nat, expiresAt: nat,
                             revoked: bool, grace: Option<GraceCopy>)
  {
    predicate Live(now: nat) { !revoked && expiresAt > now }
  }

  type Rows = map<Token, Session>

  /** `UPDATE ... SET revoked_at = now(), grace_refresh_token = NULL WHERE ... AND revoked_at IS NULL` on the rows
      `ts`. */
  function Revoked(rows: Rows, ts: set<Token>): Rows {
    map t | t in rows :: if t in ts && !rows[t].revoked then rows[t].(revoked := true, grace := None) else rows[t]
  }

  /** The condition of the rotating UPDATE. */
  predicate Consumable(rows: Rows, active: set<UserId>, t: Token, now: nat) {
    t in rows && rows[t].Live(now) && rows[t].user in active
  }

  /** The row saveSession inserts for a rotation of `t`. */
  function Successor(id: SessionId, user: UserId, t: Token, token: Token, now: nat, ttl: nat): Session {
    Session(id, user, Some(t), now, now + ttl, false, Some(GraceCopy(id, token)))
  }

  function Login(id: SessionId, user: UserId, now: nat, ttl: nat): Session {
    Session(id, user, None, 0, now + ttl, false, None)
  }

  /** Rows the grace query returns for the presented token `t`. */
  predicate InGrace(rows: Rows, active: set<UserId>, t: Token, now: nat, a: Token) {
    a in rows && rows[a].prev == Some(t) && rows[a].rotatedAt + REFRESH_REUSE_GRACE > now && rows[a].grace.Some?
    && rows[a].Live(now) && rows[a].user in active
  }

  function Graced(rows: Rows, active: set<UserId>, t: Token, now: nat): set<Token> {
    set a | a in rows && InGrace(rows, active, t, now, a)
  }

  /** One matching row whose copy opens: the answer is the token inside the copy. */
  predicate Answers(rows: Rows, active: set<UserId>, t: Token, now: nat, r: Token) {
    exists a ::
      Graced(rows, active, t, now) == {a} && a in rows && rows[a].grace.Some?
      && Decrypt(rows[a].id, rows[a].grace.value) == Some(r)
  }

  /** One hop of the chain walk: the frontier's own rows and their successors. */
  function HopRows(rows: Rows, frontier: set<Token>): set<Token> {
    set a | a in rows && (a in frontier || (rows[a].prev.Some? && rows[a].prev.value in frontier))
  }

  function OpenRowsOf(rows: Rows, user: UserId): set<Token> {
    set a | a in rows && !rows[a].revoked && rows[a].user == user
  }

  /** Rows the logout statement matches. */
  function LogoutRows(rows: Rows, t: Token, now: nat): set<Token> {
    set a | a in rows && !rows[a].revoked
      && (a == t || (rows[a].prev == Some(t) && rows[a].rotatedAt + REFRESH_REUSE_GRACE > now))
  }

  // ----- Families -----

  /** `path` leads from a row of token `t` or a successor of `t` down to its last row. */
  ghost predicate Path(rows: Rows, t: Token, path: seq<Token>) {
    && |path| > 0
    && (forall i :: 0 <= i < |path| ==> path[i] in rows)
    && (path[0] == t || rows[path[0]].prev == Some(t))
    && (forall i :: 0 <= i < |path| - 1 ==> rows[path[i + 1]].prev == Some(path[i]))
  }

  /** `a` is the session of `t` or was derived from it by rotations. */
  ghost predicate Descends(rows: Rows, t: Token, a: Token) {
    exists path :: Path(rows, t, path) && path[|path| - 1] == a
  }

  ghost predicate SameFamily(rows: Rows, a: Token, b: Token) {
    exists c :: c in rows && Descends(rows, c, a) && Descends(rows, c, b)
  }

  /** `d` holds the session of `t` and every successor of what it holds. */
  ghost predicate Closed(rows: Rows, t: Token, d: set<Token>) {
    && (t in rows ==> t in d)
    && (forall a :: a in rows && rows[a].prev.Some? && (rows[a].prev.value == t || rows[a].prev.value in d) ==> a in d)
  }

  lemma {:induction false} ClosedHoldsPath(rows: Rows, t: Token, d: set<Token>, path: seq<Token>, i: nat)
    requires Closed(rows, t, d) && Path(rows, t, path) && i < |path|
    ensures path[i] in d
  {
    if i > 0 {
      ClosedHoldsPath(rows, t, d, path, i - 1);
      assert rows[path[(i - 1) + 1]].prev == Some(path[i - 1]);
    }
  }

  lemma ClosedHoldsDescendants(rows: Rows, t: Token, d: set<Token>)
    requires Closed(rows, t, d)
    ensures forall a :: Descends(rows, t, a) ==> a in d
  {
    forall a | Descends(rows, t, a) ensures a in d {
      var path :| Path(rows, t, path) && path[|path| - 1] == a;
      ClosedHoldsPath(rows, t, d, path, |path| - 1);
    }
  }

  // ----- What every history of rotations keeps -----

  /** A session with a successor is revoked, has only that one, and the successor belongs to the same user. */
  ghost predicate Linear(rows: Rows) {
    && (forall a :: a in rows && rows[a].prev.Some? ==>
          rows[a].prev.value in rows && rows[rows[a].prev.value].revoked
            && rows[rows[a].prev.value].user == rows[a].user)
    && (forall a, b :: a in rows && b in rows && rows[a].prev.Some? && rows[a].prev == rows[b].prev ==> a == b)
  }

  /** A grace copy holds its own row's token, and only open rows hold one. */
  ghost predicate CopiesOwn(rows: Rows) {
    forall a :: a in rows && rows[a].grace.Some? ==> !rows[a].revoked && rows[a].grace.value == GraceCopy(rows[a].id, a)
  }

  /** Two downward paths from the same session: the shorter one is the start of the longer one. */
  lemma {:induction false} PathsAgree(rows: Rows, c: Token, p: seq<Token>, q: seq<Token>, i: nat)
    requires Linear(rows) && Path(rows, c, p) && Path(rows, c, q) && p[0] == q[0] == c
    requires i < |p| && i < |q|
    ensures p[i] == q[i]
  {
    if i > 0 {
      PathsAgree(rows, c, p, q, i - 1);
      assert rows[p[(i - 1) + 1]].prev == Some(p[i - 1]) && rows[q[(i - 1) + 1]].prev == Some(q[i - 1]);
    }
  }

  lemma PathFromTop(rows: Rows, c: Token, a: Token) returns (p: seq<Token>)
    requires c in rows && Descends(rows, c, a)
    ensures Path(rows, c, p) && p[0] == c && p[|p| - 1] == a
  {
    p :| Path(rows, c, p) && p[|p| - 1] == a;
    if p[0] != c {
      var q := [c] + p;
      assert forall i :: 0 <= i < |q| - 1 ==> rows[q[i + 1]].prev == Some(q[i]) by {
        forall i | 0 <= i < |q| - 1 ensures rows[q[i + 1]].prev == Some(q[i]) {
          if i > 0 { assert rows[p[(i - 1) + 1]].prev == Some(p[i - 1]); }
        }
      }
      p := q;
    }
  }

  /** Of two members of one family, one descends from the other; if they differ, the elder is revoked. */
  lemma FamilyIsALine(rows: Rows, a: Token, b: Token)
    requires Linear(rows) && SameFamily(rows, a, b)
    ensures a in rows && b in rows
    ensures (Descends(rows, a, b) && (a == b || rows[a].revoked))
      || (Descends(rows, b, a) && (a == b || rows[b].revoked))
  {
    var c :| c in rows && Descends(rows, c, a) && Descends(rows, c, b);
    var p := PathFromTop(rows, c, a);
    var q := PathFromTop(rows, c, b);
    if |p| <= |q| { Tail(rows, c, p, q); } else { Tail(rows, c, q, p); }
  }

  lemma Tail(rows: Rows, c: Token, p: seq<Token>, q: seq<Token>)
    requires Linear(rows) && Path(rows, c, p) && Path(rows, c, q) && p[0] == q[0] == c && |p| <= |q|
    ensures var a, b := p[|p| - 1], q[|q| - 1];
      a in rows && Descends(rows, a, b) && (a == b || rows[a].revoked)
  {
    var k := |p| - 1;
    PathsAgree(rows, c, p, q, k);
    var r := q[k..];
    assert Path(rows, q[k], r) by {
      forall i | 0 <= i < |r| - 1 ensures rows[r[i + 1]].prev == Some(r[i]) {
        assert rows[q[(k + i) + 1]].prev == Some(q[k + i]);
      }
    }
    assert r[|r| - 1] == q[|q| - 1];
    if |p| < |q| { assert rows[q[k + 1]].prev == Some(q[k]); }
  }

  /** Each family has at most one open session. */
  lemma OneOpenPerFamily(rows: Rows, a: Token, b: Token)
    requires Linear(rows) && SameFamily(rows, a, b)
    requires a in rows && b in rows && !rows[a].revoked && !rows[b].revoked
    ensures a == b
  {
    FamilyIsALine(rows, a, b);
  }
}
