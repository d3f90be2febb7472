/** Concurrent refreshes, chain revocations and logouts at the granularity of statements and row locks
    (READ COMMITTED: a statement sees the rows committed when it starts, waits for rows locked by others,
    and a transaction's writes appear when it commits). */
module SessionRaces {
  import opened Prelude
  import opened SessionModel

  type TxnId = nat

  /** One FOR UPDATE select of the walk: the rows it found and those it still waits for. */
  datatype Hop = Hop(rows: set<Token>, pending: set<Token>)

  /** The variables of revokeChain, and the select in progress. */
  datatype Walk = Walk(hops: nat, seen: set<Token>, frontier: set<Token>, ids: set<Token>, user: Option<UserId>,
      hop: Option<Hop>)

  /** A statement that updates the open rows `base` it found, lock by lock; `known` is everything committed at its
      start. */
  datatype Sweep = Sweep(known: set<Token>, base: set<Token>, pending: set<Token>)

  /** A refresh has begun (Arrived), its UPDATE has matched a row and wants its lock (Waiting), it has consumed the row
      and inserted the successor (Rotating), or it was refused and goes on to the grace query, the walk and the
      fallback. `at` is now() of the transaction: the moment it began. */
  datatype Txn =
    | Arrived(t: Token, at: nat)
    | Waiting(t: Token, at: nat)
    | Rotating(spent: Token, next: Token, session: Session)
    | Refused(t: Token, at: nat)
    | Walking(t: Token, w: Walk)
    | Sweeping(t: Token, ids: set<Token>, user: UserId, sweep: Sweep)
    | LoggingOut(t: Token, sweep: Sweep)

  /** `grants` remembers which successor was handed out for which presented token. */
  datatype State = State(rows: Rows, txns: map<TxnId, Txn>, active: set<UserId>, now: nat, ttl: nat,
      grants: set<(Token, Token)>)

  function Init(active: set<UserId>, ttl: nat): State { State(map[], map[], active, 0, ttl, {}) }

  /** The rows a transaction holds locked. */
  function Locks(x: Txn): set<Token> {
    match x
    case Rotating(spent, _, _) => {spent}
    case Walking(_, w) => w.ids + (if w.hop.Some? then w.hop.value.rows - w.hop.value.pending else {})
    case Sweeping(_, ids, _, sw) => ids + (sw.base - sw.pending)
    case LoggingOut(_, sw) => sw.base - sw.pending
    case _ => {}
  }

  predicate FreeOf(s: State, x: TxnId, a: Token) {
    forall y :: y in s.txns && y != x ==> a !in Locks(s.txns[y])
  }

  /** The tokens a transaction knows of. */
  function Shown(x: Txn): set<Token> { if x.Rotating? then {x.spent, x.next} else {x.t} }

  /** A fresh random token: not a row's, not one about to be inserted, not one somebody presented. */
  predicate Unused(s: State, a: Token) {
    a !in s.rows && forall y :: y in s.txns ==> a !in Shown(s.txns[y])
  }

  /** Nobody can present a token whose rotation has not committed: it has not been handed out. */
  predicate HandedOut(s: State, t: Token) { forall y :: y in s.txns && s.txns[y].Rotating? ==> s.txns[y].next != t }

  datatype Step =
    | Tick(seconds: nat)
    | Deactivate(user: UserId)
    | Activate(user: UserId)
    | Issue(user: UserId, id: SessionId, token: Token)
    | Present(x: TxnId, t: Token)
    | TryUpdate(x: TxnId)
    | TakeRow(x: TxnId, id: SessionId, next: Token)
    | CommitRotation(x: TxnId)
    | Abort(x: TxnId)
    | TryGrace(x: TxnId, r: Token)
    | NoGrace(x: TxnId)
    | HopStart(x: TxnId)
    | LockRow(x: TxnId, a: Token)
    | HopEnd(x: TxnId, first: Token)
    | WalkDone(x: TxnId)
    | SweepStart(x: TxnId)
    | SweepDone(x: TxnId)
    | LogoutStart(x: TxnId, t: Token)
    | LogoutDone(x: TxnId)

  function Pending(x: Txn): set<Token> {
    match x
    case Walking(_, w) => if w.hop.Some? then w.hop.value.pending else {}
    case Sweeping(_, _, _, sw) => sw.pending
    case LoggingOut(_, sw) => sw.pending
    case _ => {}
  }

  ghost predicate Enabled(s: State, st: Step) {
    match st
    case Tick(_) => true
    case Deactivate(_) => true
    case Activate(_) => true
    case Issue(_, _, a) => Unused(s, a)
    case Present(x, t) => x !in s.txns && HandedOut(s, t)
    case TryUpdate(x) => x in s.txns && s.txns[x].Arrived?
    case TakeRow(x, _, next) => x in s.txns && s.txns[x].Waiting? && FreeOf(s, x, s.txns[x].t) && Unused(s, next)
    case CommitRotation(x) => x in s.txns && s.txns[x].Rotating?
    case Abort(x) => x in s.txns
    case TryGrace(x, r) => x in s.txns && s.txns[x].Refused? && Answers(s.rows, s.active, s.txns[x].t, s.txns[x].at, r)
    case NoGrace(x) => x in s.txns && s.txns[x].Refused? && !exists r ::
      Answers(s.rows, s.active, s.txns[x].t, s.txns[x].at, r)
    case HopStart(x) =>
      x in s.txns && s.txns[x].Walking? && s.txns[x].w.hop.None? && s.txns[x].w.frontier != {}
        && s.txns[x].w.hops < MAX_REVOKE_CHAIN_HOPS
    case LockRow(x, a) => x in s.txns && a in Pending(s.txns[x]) && FreeOf(s, x, a)
    case HopEnd(x, first) =>
      x in s.txns && s.txns[x].Walking? && s.txns[x].w.hop.Some? && s.txns[x].w.hop.value.pending == {}
      && (s.txns[x].w.hop.value.rows != {} ==> first in s.txns[x].w.hop.value.rows && first in s.rows)
    case WalkDone(x) => x in s.txns && s.txns[x].Walking? && s.txns[x].w.hop.None? && s.txns[x].w.frontier == {}
    case SweepStart(x) =>
      x in s.txns && s.txns[x].Walking? && s.txns[x].w.hop.None? && s.txns[x].w.frontier != {}
      && s.txns[x].w.hops >= MAX_REVOKE_CHAIN_HOPS && s.txns[x].w.user.Some?
    case SweepDone(x) => x in s.txns && s.txns[x].Sweeping? && s.txns[x].sweep.pending == {}
    case LogoutStart(x, t) => x !in s.txns && HandedOut(s, t)
    case LogoutDone(x) => x in s.txns && s.txns[x].LoggingOut? && s.txns[x].sweep.pending == {}
  }

  function Without(txns: map<TxnId, Txn>, x: TxnId): map<TxnId, Txn> { map y | y in txns && y != x :: txns[y] }

  function Locked(x: Txn, a: Token): Txn
    requires a in Pending(x)
  {
    match x
    case Walking(t, w) => Walking(t, w.(hop := Some(w.hop.value.(pending := w.hop.value.pending - {a}))))
    case Sweeping(t, ids, u, sw) => Sweeping(t, ids, u, sw.(pending := sw.pending - {a}))
    case LoggingOut(t, sw) => LoggingOut(t, sw.(pending := sw.pending - {a}))
  }

  function HopStarted(rows: Rows, w: Walk): Walk {
    var found := HopRows(rows, w.frontier);
    w.(seen := w.seen + w.frontier, hop := Some(Hop(found, found)))
  }

  function HopEnded(rows: Rows, w: Walk, first: Token): Walk
    requires w.hop.Some? && (w.hop.value.rows != {} ==> first in rows)
  {
    var found := w.hop.value.rows;
    Walk(w.hops + 1, w.seen, found - w.seen, w.ids + found,
         if w.user.Some? || found == {} then w.user else Some(rows[first].user), None)
  }

  /** The UPDATE has its row: the condition on the row is evaluated again, on what is committed now. */
  function Taken(s: State, w: Txn, id: SessionId, next: Token): Txn
    requires w.Waiting?
  {
    if w.t in s.rows && s.rows[w.t].Live(w.at)
    then Rotating(w.t, next, Successor(id, s.rows[w.t].user, w.t, next, w.at, s.ttl))
    else Refused(w.t, w.at)
  }

  function Apply(s: State, st: Step): State
    requires Enabled(s, st)
  {
    match st
    case Tick(d) => s.(now := s.now + d)
    case Deactivate(u) => s.(active := s.active - {u})
    case Activate(u) => s.(active := s.active + {u})
    case Issue(u, id, a) => s.(rows := s.rows[a := Login(id, u, s.now, s.ttl)])
    case Present(x, t) => s.(txns := s.txns[x := Arrived(t, s.now)])
    case TryUpdate(x) =>
      var t, at := s.txns[x].t, s.txns[x].at;
      s.(txns := s.txns[x := if Consumable(s.rows, s.active, t, at) then Waiting(t, at) else Refused(t, at)])
    case TakeRow(x, id, next) => s.(txns := s.txns[x := Taken(s, s.txns[x], id, next)])
    case CommitRotation(x) =>
      var r := s.txns[x];
      s.(rows := Revoked(s.rows, {r.spent})[r.next := r.session], txns := Without(s.txns, x),
        grants := s.grants + {(r.spent, r.next)})
    case Abort(x) => s.(txns := Without(s.txns, x))
    case TryGrace(x, r) => s.(txns := Without(s.txns, x), grants := s.grants + {(s.txns[x].t, r)})
    case NoGrace(x) => s.(txns := s.txns[x := Walking(s.txns[x].t, Walk(0, {}, {s.txns[x].t}, {}, None, None))])
    case HopStart(x) => s.(txns := s.txns[x := s.txns[x].(w := HopStarted(s.rows, s.txns[x].w))])
    case LockRow(x, a) => s.(txns := s.txns[x := Locked(s.txns[x], a)])
    case HopEnd(x, first) => s.(txns := s.txns[x := s.txns[x].(w := HopEnded(s.rows, s.txns[x].w, first))])
    case WalkDone(x) => s.(rows := Revoked(s.rows, s.txns[x].w.ids), txns := Without(s.txns, x))
    case SweepStart(x) =>
      var open := OpenRowsOf(s.rows, s.txns[x].w.user.value);
      s.(txns :=
        s.txns[x := Sweeping(s.txns[x].t, s.txns[x].w.ids, s.txns[x].w.user.value, Sweep(s.rows.Keys, open, open))])
    case SweepDone(x) => s.(rows := Revoked(s.rows, s.txns[x].sweep.base), txns := Without(s.txns, x))
    case LogoutStart(x, t) =>
      var base := LogoutRows(s.rows, t, s.now);
      s.(txns := s.txns[x := LoggingOut(t, Sweep(s.rows.Keys, base, base))])
    case LogoutDone(x) => s.(rows := Revoked(s.rows, s.txns[x].sweep.base), txns := Without(s.txns, x))
  }

  ghost predicate Runs(s: State, steps: seq<Step>, s': State)
    decreases |steps|
  {
    if steps == [] then s == s'
    else Enabled(s, steps[0]) && Runs(Apply(s, steps[0]), steps[1..], s')
  }

  /** The transaction is over with this step. */
  predicate Ends(st: Step, x: TxnId) {
    (st.CommitRotation? || st.Abort? || st.TryGrace? || st.WalkDone? || st.SweepDone? || st.LogoutDone?) && st.x == x
  }

  /** One of the users `still` is made active. */
  predicate Restores(st: Step, still: set<UserId>) { st.Activate? && st.user in still }

  /** A run from `s0` to `s` throughout which transaction `x` goes on and none of the users `still` is made active. */
  ghost predicate Along(s0: State, steps: seq<Step>, s: State, x: TxnId, still: set<UserId>) {
    Runs(s0, steps, s) && forall i :: 0 <= i < |steps| ==> !Ends(steps[i], x) && !Restores(steps[i], still)
  }

  /** A run and one more step. */
  lemma {:induction false} RunsOn(s0: State, steps: seq<Step>, s: State, st: Step)
    requires Runs(s0, steps, s) && Enabled(s, st)
    ensures Runs(s0, steps + [st], Apply(s, st))
    decreases |steps|
  {
    if steps == [] {
      assert [] + [st] == [st];
      assert Runs(Apply(s, st), [], Apply(s, st));
    } else {
      RunsOn(Apply(s0, steps[0]), steps[1..], s, st);
      assert (steps + [st])[1..] == steps[1..] + [st];
    }
  }

  lemma GoesOn(s0: State, steps: seq<Step>, s: State, x: TxnId, still: set<UserId>, st: Step)
    requires Along(s0, steps, s, x, still) && Enabled(s, st) && !Ends(st, x) && !Restores(st, still)
    ensures Along(s0, steps + [st], Apply(s, st), x, still)
  {
    hide Runs, Ends, Restores;
    RunsOn(s0, steps, s, st);
  }

  lemma Stop(s: State, x: TxnId, still: set<UserId>)
    ensures Runs(s, [], s) && Along(s, [], s, x, still)
  {
  }

  lemma AlongTail(s: State, steps: seq<Step>, s': State, x: TxnId, still: set<UserId>)
    requires Along(s, steps, s', x, still) && steps != []
    ensures Enabled(s, steps[0]) && !Ends(steps[0], x) && !Restores(steps[0], still)
    ensures Along(Apply(s, steps[0]), steps[1..], s', x, still)
  {
    hide Enabled, Apply, Ends, Restores;
    forall i | 0 <= i < |steps[1..]| ensures !Ends(steps[1..][i], x) && !Restores(steps[1..][i], still) {
      assert steps[1..][i] == steps[i + 1];
    }
  }
}
