/** The worker's statements on the two tables, as one instance executes them. */
module NftWorker {
  import opened Prelude
  import opened NftModel

  const BATCH_LIMIT := 10

  // ----- Set statements over a batch, one row at a time -----

  function HoldAll(db: Db, cs: seq<Claim>, now: nat): Db {
    if cs == [] then db else HoldAll(db, cs[..|cs| - 1], now).Restamp(cs[|cs| - 1], now)
  }

  function ReleaseAll(db: Db, cs: seq<Claim>): Db {
    if cs == [] then db else ReleaseAll(db, cs[..|cs| - 1]).GiveBack(cs[|cs| - 1], None)
  }

  /** Releasing a batch gives up every claim in it and spends nothing: no retry, no schedule, no row of another
      claimant. */
  lemma {:induction false} ReleasedAll(db: Db, cs: seq<Claim>, k: JobKey)
    requires k in db.jobs
    ensures ReleaseAll(db, cs).nfts == db.nfts && ReleaseAll(db, cs).jobs.Keys == db.jobs.Keys
    ensures var held := exists i :: 0 <= i < |cs| && cs[i].key == k && db.Owned(cs[i]);
      ReleaseAll(db, cs).jobs[k] == if held then db.jobs[k].(status := Pending, token := None) else db.jobs[k]
  {
    if cs != [] {
      var c := cs[|cs| - 1];
      var front := cs[..|cs| - 1];
      ReleasedAll(db, front, k);
      if c.key in db.jobs { ReleasedAll(db, front, c.key); }
      assert forall i :: 0 <= i < |front| ==> front[i] == cs[i];
    }
  }

  /** Holding a batch moves only the start stamps of jobs the batch still owns. */
  lemma {:induction false} HeldAll(db: Db, cs: seq<Claim>, now: nat, k: JobKey)
    requires k in db.jobs
    ensures HoldAll(db, cs, now).nfts == db.nfts && HoldAll(db, cs, now).jobs.Keys == db.jobs.Keys
    ensures var held := exists i :: 0 <= i < |cs| && cs[i].key == k && db.Owned(cs[i]);
      HoldAll(db, cs, now).jobs[k] == if held then db.jobs[k].(startedAt := Some(now)) else db.jobs[k]
  {
    if cs != [] {
      var c := cs[|cs| - 1];
      var front := cs[..|cs| - 1];
      HeldAll(db, front, now, k);
      if c.key in db.jobs { HeldAll(db, front, now, c.key); }
      assert forall i :: 0 <= i < |front| ==> front[i] == cs[i];
    }
  }

  lemma UpsertOne(jobs: map<JobKey, Job>, done: set<NftId>, m: NftId, now: nat)
    requires m !in done
    ensures var k := AttachKey(m);
      var u := Upserted(jobs, done, now);
      Upserted(jobs, done + {m}, now) ==
        if k !in u then u[k := NewJob(now)] else if u[k].status == Pending then u[k := u[k].(scheduledAt := now)] else u
  {
    assert m in done + {m};
    assert (set c | c in done + {m} :: AttachKey(c)) == (set c | c in done :: AttachKey(c)) + {AttachKey(m)};
  }

  // ----- The claim statement -----

  /** The inner SELECT: PENDING, due, and not locked by a peer (SKIP LOCKED). */
  predicate Free(db: Db, locked: set<JobKey>, now: nat, k: JobKey) { db.Claimable(k, now) && k !in locked }

  ghost predicate Unpicked(batch: seq<Claim>, k: JobKey) { forall i :: 0 <= i < |batch| ==> batch[i].key != k }

  /** Every picked job is scheduled no later than `k`. */
  ghost predicate NoneLater(db: Db, batch: seq<Claim>, k: JobKey)
    requires k in db.jobs && forall i :: 0 <= i < |batch| ==> batch[i].key in db.jobs
  {
    forall i :: 0 <= i < |batch| ==> db.jobs[batch[i].key].scheduledAt <= db.jobs[k].scheduledAt
  }

  /** The row of a claimed job: PROCESSING, with the new token and start stamp, and otherwise as it was. */
  ghost predicate Taken(db: Db, db': Db, now: nat, c: Claim) {
    c.key in db.jobs && c.key in db'.jobs
    && db'.jobs[c.key] == db.jobs[c.key].(status := Processing, token := Some(c.token), startedAt := Some(now))
  }

  /** `batch` holds free jobs of `db`, earliest first, each now owned by its own new token below `next`; `db'` differs
      in nothing else. */
  ghost predicate Picked(db: Db, db': Db, locked: set<JobKey>, now: nat, batch: seq<Claim>, first: Token, next: Token) {
    && first <= next && db'.nfts == db.nfts && db'.jobs.Keys == db.jobs.Keys
    && (forall i :: 0 <= i < |batch| ==>
      Free(db, locked, now, batch[i].key) && batch[i].retries == db.jobs[batch[i].key].retries)
    && (forall i :: 0 <= i < |batch| ==> Taken(db, db', now, batch[i]) && first <= batch[i].token < next)
    && (forall i, j :: 0 <= i < j < |batch| ==> batch[i].key != batch[j].key && batch[i].token != batch[j].token)
    && (forall i, j :: 0 <= i < j < |batch| ==> db.jobs[batch[i].key].scheduledAt <= db.jobs[batch[j].key].scheduledAt)
    && (forall k :: k in db.jobs && Unpicked(batch, k) ==> db'.jobs[k] == db.jobs[k])
    && (forall k :: Free(db, locked, now, k) && Unpicked(batch, k) ==> NoneLater(db, batch, k))
  }

  /** A possible answer of CLAIM_PENDING_JOBS_SQL: at most ten, and fewer only when no free job is left. */
  ghost predicate ClaimsEarliest(db: Db, db': Db, locked: set<JobKey>, now: nat, batch: seq<Claim>, first: Token,
      next: Token) {
    && Picked(db, db', locked, now, batch, first, next)
    && |batch| <= BATCH_LIMIT
    && (|batch| < BATCH_LIMIT ==> forall k :: Free(db, locked, now, k) ==> !Unpicked(batch, k))
  }

  lemma StillFree(db: Db, db': Db, locked: set<JobKey>, now: nat, batch: seq<Claim>, first: Token, next: Token,
      k: JobKey)
    requires Picked(db, db', locked, now, batch, first, next)
    ensures Free(db', locked, now, k) <==> Free(db, locked, now, k) && Unpicked(batch, k)
  {
    if k in db.jobs && !Unpicked(batch, k) {
      var i :| 0 <= i < |batch| && batch[i].key == k;
      assert Taken(db, db', now, batch[i]);
    }
  }

  lemma PickTaken(db: Db, db': Db, batch: seq<Claim>, k: JobKey, c: Claim, now: nat)
    requires k in db.jobs && k in db'.jobs && db'.jobs[k] == db.jobs[k] && c.key == k && Unpicked(batch, k)
    requires forall i :: 0 <= i < |batch| ==> Taken(db, db', now, batch[i])
    ensures forall i :: 0 <= i < |batch| + 1 ==> Taken(db, db'.ClaimJob(k, c.token, now), now, (batch + [c])[i])
  {
    forall i | 0 <= i < |batch| + 1 ensures Taken(db, db'.ClaimJob(k, c.token, now), now, (batch + [c])[i]) {
      if i < |batch| { assert (batch + [c])[i] == batch[i] && Taken(db, db', now, batch[i]); }
    }
  }

  lemma PickOrder(db: Db, batch: seq<Claim>, c: Claim, next: Token)
    requires c.key in db.jobs && c.token == next
    requires forall i :: 0 <= i < |batch| ==> batch[i].key in db.jobs && batch[i].token < next
    requires Unpicked(batch, c.key) && NoneLater(db, batch, c.key)
    requires forall i, j :: 0 <= i < j < |batch| ==> batch[i].key != batch[j].key && batch[i].token != batch[j].token
    requires forall i, j :: 0 <= i < j < |batch| ==>
      db.jobs[batch[i].key].scheduledAt <= db.jobs[batch[j].key].scheduledAt
    ensures var b := batch + [c];
      && (forall i, j :: 0 <= i < j < |b| ==> b[i].key != b[j].key && b[i].token != b[j].token)
      && (forall i, j :: 0 <= i < j < |b| ==> db.jobs[b[i].key].scheduledAt <= db.jobs[b[j].key].scheduledAt)
  {
  }

  /** What was not picked is unchanged, and if it was free it is no earlier than the new pick. */
  lemma PickRest(db: Db, db': Db, locked: set<JobKey>, now: nat, batch: seq<Claim>, first: Token, next: Token,
      k: JobKey, c: Claim, j: JobKey)
    requires Picked(db, db', locked, now, batch, first, next) && k in db.jobs && k in db'.jobs && c.key == k
    requires Unpicked(batch, k)
    requires forall i :: Free(db', locked, now, i) ==>
      i in db'.jobs && db'.jobs[k].scheduledAt <= db'.jobs[i].scheduledAt
    requires j in db.jobs && Unpicked(batch + [c], j)
    ensures db'.ClaimJob(k, c.token, now).jobs[j] == db.jobs[j]
    ensures Free(db, locked, now, j) ==> NoneLater(db, batch + [c], j)
  {
    hide Free;
    assert (batch + [c])[|batch|].key != j;
    assert forall i :: 0 <= i < |batch| ==> (batch + [c])[i] == batch[i];
    assert Unpicked(batch, j);
    StillFree(db, db', locked, now, batch, first, next, j);
  }

  lemma PickNext(db: Db, db': Db, locked: set<JobKey>, now: nat, batch: seq<Claim>, first: Token, next: Token,
      k: JobKey)
    requires Picked(db, db', locked, now, batch, first, next)
    requires Free(db', locked, now, k) && forall j :: Free(db', locked, now, j) ==>
      db'.jobs[k].scheduledAt <= db'.jobs[j].scheduledAt
    ensures Picked(db, db'.ClaimJob(k, next, now), locked, now, batch + [Claim(k, next, db'.jobs[k].retries)], first,
      next + 1)
  {
    var c := Claim(k, next, db'.jobs[k].retries);
    StillFree(db, db', locked, now, batch, first, next, k);
    assert NoneLater(db, batch, k);
    PickTaken(db, db', batch, k, c, now);
    PickOrder(db, batch, c, next);
    forall j | j in db.jobs && Unpicked(batch + [c], j)
      ensures db'.ClaimJob(k, next, now).jobs[j] == db.jobs[j]
      ensures (Free(db, locked, now, j) ==> NoneLater(db, batch + [c], j))
    {
      PickRest(db, db', locked, now, batch, first, next, k, c, j);
    }
  }

  /** The claim statement as claims of single jobs. */
  function ClaimAll(db: Db, cs: seq<Claim>, now: nat): Db
    requires forall i :: 0 <= i < |cs| ==> cs[i].key in db.jobs
    ensures ClaimAll(db, cs, now).jobs.Keys == db.jobs.Keys
  {
    if cs == [] then db else ClaimAll(db, cs[..|cs| - 1], now).ClaimJob(cs[|cs| - 1].key, cs[|cs| - 1].token, now)
  }

  lemma ClaimAllLast(db: Db, cs: seq<Claim>, now: nat)
    requires cs != [] && forall i :: 0 <= i < |cs| ==> cs[i].key in db.jobs
    ensures var front, c := cs[..|cs| - 1], cs[|cs| - 1];
      (forall i :: 0 <= i < |front| ==> front[i].key in db.jobs)
      && ClaimAll(db, cs, now) == ClaimAll(db, front, now).ClaimJob(c.key, c.token, now)
  {
  }

  lemma {:induction false} ClaimAllRows(db: Db, cs: seq<Claim>, now: nat, k: JobKey)
    requires k in db.jobs && (forall i :: 0 <= i < |cs| ==> cs[i].key in db.jobs)
    requires forall i, j :: 0 <= i < j < |cs| ==> cs[i].key != cs[j].key
    ensures ClaimAll(db, cs, now).nfts == db.nfts
    ensures Unpicked(cs, k) ==> ClaimAll(db, cs, now).jobs[k] == db.jobs[k]
    ensures forall i :: 0 <= i < |cs| && cs[i].key == k ==> Taken(db, ClaimAll(db, cs, now), now, cs[i])
  {
    if cs != [] {
      var front := cs[..|cs| - 1];
      assert forall i :: 0 <= i < |front| ==> front[i] == cs[i];
      ClaimAllRows(db, front, now, k);
      if cs[|cs| - 1].key == k { assert Unpicked(front, k); }
    }
  }

  lemma PickedIsClaimAll(db: Db, db': Db, locked: set<JobKey>, now: nat, batch: seq<Claim>, first: Token, next: Token)
    requires Picked(db, db', locked, now, batch, first, next)
    ensures (forall i :: 0 <= i < |batch| ==> batch[i].key in db.jobs) && db' == ClaimAll(db, batch, now)
  {
    forall k | k in db.jobs ensures db'.jobs[k] == ClaimAll(db, batch, now).jobs[k] {
      ClaimAllRows(db, batch, now, k);
      if !Unpicked(batch, k) {
        var i :| 0 <= i < |batch| && batch[i].key == k;
        assert Taken(db, db', now, batch[i]) && Taken(db, ClaimAll(db, batch, now), now, batch[i]);
      }
    }
    if db.jobs.Keys != {} { var k :| k in db.jobs; ClaimAllRows(db, batch, now, k); }
    assert db'.jobs == ClaimAll(db, batch, now).jobs;
  }

  lemma PickedAreFree(db: Db, db': Db, locked: set<JobKey>, now: nat, batch: seq<Claim>, first: Token, next: Token)
    requires Picked(db, db', locked, now, batch, first, next)
    ensures forall i :: 0 <= i < |batch| ==> Free(db, locked, now, batch[i].key)
  {
  }

  lemma PickedNone(db: Db, locked: set<JobKey>, now: nat, next: Token)
    ensures Picked(db, db, locked, now, [], next, next)
  {
  }

  // ----- A batch, against the transition system -----

  /** What the outside decides while one job is processed: the pause setting on entry and before the broadcast, whether
      the chain client is configured, and whether its mint call fails. */
  datatype Conditions = Conditions(enabled: bool, enabledLater: bool, configured: bool, mintFails: bool)

  /** How far execute() is from its end. */
  function Rank(b: Body): nat {
    match b
    case WillRead => 9
    case WillMark => 8
    case WillProbe => 7
    case WillRecover => 6
    case WillRecheck => 6
    case WillBroadcast => 5
    case Broadcasting => 4
    case WillRecord => 3
    case AfterMint => 2
    case WillQueueAttach => 1
    case WillAttach => 1
    case Finished(_) => 0
  }

  lemma GoAdvances(db: Db, chain: set<NftId>, x: Exec)
    requires !x.body.Finished?
    ensures Rank(GoBody(db, chain, x)) < Rank(x.body)
  {
  }

  /** The execution of claim `c` waits in the batch. */
  ghost predicate Waits(s: State, c: Claim) {
    c.token in s.execs && s.execs[c.token] == Exec(c, None, WillRead, Held) && c.token !in s.txs
  }

  /** Claim `c` has been dealt with. */
  ghost predicate Over(s: State, c: Claim) { c.token in s.execs && s.execs[c.token].wrap == Settled }

  ghost predicate AllWait(s: State, cs: seq<Claim>) {
    && (forall i :: 0 <= i < |cs| ==> Waits(s, cs[i]))
    && (forall i, j :: 0 <= i < j < |cs| ==> cs[i].token != cs[j].token)
  }

  /** Only execution `t` moved; the clock stood still. */
  ghost predicate Beside(s: State, s': State, t: Token) {
    && s'.clock == s.clock
    && (forall u :: u in s.execs && u != t ==> u in s'.execs && s'.execs[u] == s.execs[u])
    && (forall u :: u != t && u !in s.txs ==> u !in s'.txs)
  }

  /** Execution `t` is under way in state `s` as `x`. */
  ghost predicate UnderWay(s0: State, steps: seq<Step>, s: State, t: Token, x: Exec) {
    Runs(s0, steps, s) && t in s.execs && s.execs[t] == x && x.wrap == Racing
    && (x.body == Broadcasting ==> t in s.txs && s.txs[t] == InFlight)
  }

  lemma {:induction false} HoldRuns(s0: State, before: seq<Step>, s: State, cs: seq<Claim>) returns (steps: seq<Step>)
    requires Runs(s0, before, s) && AllWait(s, cs)
    ensures Runs(s0, steps, s.(db := HoldAll(s.db, cs, s.clock)))
  {
    hide Runs;
    steps := before;
    if cs != [] {
      var front, c := cs[..|cs| - 1], cs[|cs| - 1];
      steps := HoldRuns(s0, before, s, front);
      var a;
      steps, a := Extend(s0, steps, s.(db := HoldAll(s.db, front, s.clock)), Hold(c.token));
    }
  }

  /** Every execution from token `first` on belongs to a claim of `cs`. */
  ghost predicate OnlyFrom(s: State, first: Token, cs: seq<Claim>) {
    forall t :: t in s.execs && t >= first ==> exists i :: 0 <= i < |cs| && cs[i].token == t
  }

  lemma ClaimOne(s0: State, before: seq<Step>, s: State, front: seq<Claim>, c: Claim, first: Token)
    returns (steps: seq<Step>, s': State)
    requires Runs(s0, before, s) && AllWait(s, front) && OnlyFrom(s, first, front)
    requires s.db.Claimable(c.key, s.clock) && c.retries == s.db.jobs[c.key].retries && c.token !in s.txs
    requires first <= c.token
    requires forall i :: 0 <= i < |front| ==> front[i].token != c.token
    ensures Runs(s0, steps, s') && s'.db == s.db.ClaimJob(c.key, c.token, s.clock)
    ensures s'.chain == s.chain && s'.clock == s.clock && s'.txs == s.txs
    ensures AllWait(s', front + [c]) && OnlyFrom(s', first, front + [c])
  {
    hide Runs;
    steps, s' := Extend(s0, before, s, TakeClaim(c.key, c.token));
    var all := front + [c];
    forall i | 0 <= i < |all| ensures Waits(s', all[i]) { if i < |front| { assert Waits(s, front[i]); } }
    forall t | t in s'.execs && t >= first ensures exists i :: 0 <= i < |all| && all[i].token == t {
      if t == c.token { assert all[|front|].token == t; } else {
        var i :| 0 <= i < |front| && front[i].token == t;
        assert all[i].token == t;
      }
    }
  }

  /** The claim statement is a run of single claims, after which the whole batch waits. */
  lemma {:induction false} ClaimRuns(s0: State, before: seq<Step>, s: State, cs: seq<Claim>, first: Token)
    returns (steps: seq<Step>, s': State)
    requires Runs(s0, before, s) && forall i :: 0 <= i < |cs| ==> cs[i].key in s.db.jobs
    requires forall i :: 0 <= i < |cs| ==>
      s.db.Claimable(cs[i].key, s.clock) && cs[i].retries == s.db.jobs[cs[i].key].retries
    requires forall i :: 0 <= i < |cs| ==> first <= cs[i].token
    requires forall i, j :: 0 <= i < j < |cs| ==> cs[i].key != cs[j].key && cs[i].token != cs[j].token
    requires (forall t :: t in s.execs ==> t < first) && (forall t :: t in s.txs ==> t < first)
    ensures Runs(s0, steps, s') && s'.db == ClaimAll(s.db, cs, s.clock) && s'.chain == s.chain
    ensures s'.clock == s.clock && s'.txs == s.txs
    ensures AllWait(s', cs) && OnlyFrom(s', first, cs)
  {
    hide Runs;
    steps, s' := before, s;
    if cs != [] {
      hide AllWait, OnlyFrom, ClaimAll;
      var front, c := cs[..|cs| - 1], cs[|cs| - 1];
      assert forall i :: 0 <= i < |front| ==> front[i] == cs[i];
      steps, s' := ClaimRuns(s0, before, s, front, first);
      assert Unpicked(front, c.key) && forall i :: 0 <= i < |front| ==> front[i].token != c.token;
      ClaimAllRows(s.db, front, s.clock, c.key);
      assert c.token !in s'.txs && s'.db.Claimable(c.key, s'.clock) && c.retries == s'.db.jobs[c.key].retries;
      ClaimAllLast(s.db, cs, s.clock);
      steps, s' := ClaimOne(s0, steps, s', front, c, first);
      assert front + [c] == cs;
    }
  }

  lemma {:induction false} ReleaseRuns(s0: State, before: seq<Step>, s: State, cs: seq<Claim>)
    returns (steps: seq<Step>, s': State)
    requires Runs(s0, before, s) && AllWait(s, cs)
    ensures Runs(s0, steps, s') && s'.db == ReleaseAll(s.db, cs) && s'.chain == s.chain && s'.clock == s.clock
    ensures forall u :: u in s.execs && (forall i :: 0 <= i < |cs| ==> cs[i].token != u) ==>
      u in s'.execs && s'.execs[u] == s.execs[u]
    ensures forall i :: 0 <= i < |cs| ==> Over(s', cs[i])
  {
    hide Runs;
    steps, s' := before, s;
    if cs != [] {
      var front, c := cs[..|cs| - 1], cs[|cs| - 1];
      steps, s' := ReleaseRuns(s0, before, s, front);
      assert forall i :: 0 <= i < |front| ==> front[i].token != c.token;
      steps, s' := Extend(s0, steps, s', Release(c.token));
    }
  }

  /** Whoever is told that the claim is lost does not own the job. */
  lemma LostIsNotOwned(db: Db, chain: set<NftId>, x: Exec, now: nat)
    requires !x.body.Finished? && GoBody(db, chain, x) == Finished(ClaimLost)
    ensures !GoDb(db, x, now).Owned(x.claim)
  {
  }

  /** Recording a result gives the claim up. */
  lemma SettlingGivesUp(db: Db, x: Exec, now: nat)
    requires x.body.Finished? && (x.body == Finished(ClaimLost) ==> !db.Owned(x.claim))
    ensures !SettleDb(db, x, now).Owned(x.claim)
  {
  }

  lemma BesideItself(s: State, t: Token)
    ensures Beside(s, s, t)
  {
  }

  /** The pause setting is seen before the broadcast. */
  lemma Paused(s0: State, before: seq<Step>, first: State, s: State, t: Token, x: Exec)
    returns (steps: seq<Step>, s': State)
    requires UnderWay(s0, before, s, t, x) && x.body == WillBroadcast && Beside(first, s, t)
    ensures UnderWay(s0, steps, s', t, x.(body := Finished(PausedOut))) && Beside(first, s', t)
    ensures s'.db == s.db && s'.chain == s.chain && s'.clock == s.clock
  {
    hide Runs;
    steps, s' := Extend(s0, before, s, GoPause(t));
  }

  /** The chain call fails. */
  lemma Thrown(s0: State, before: seq<Step>, first: State, s: State, t: Token, x: Exec)
    returns (steps: seq<Step>, s': State)
    requires UnderWay(s0, before, s, t, x) && !x.body.Finished? && Beside(first, s, t)
    ensures UnderWay(s0, steps, s', t, x.(body := Finished(Threw))) && Beside(first, s', t)
    ensures s'.db == s.db && s'.chain == s.chain && s'.clock == s.clock
  {
    hide Runs;
    steps, s' := Extend(s0, before, s, GoThrow(t));
  }

  /** The next action of execute(); while broadcasting, after its mint has landed. */
  lemma Gone(s0: State, before: seq<Step>, first: State, s: State, t: Token, x: Exec)
    returns (steps: seq<Step>, s': State)
    requires UnderWay(s0, before, s, t, x) && !x.body.Finished? && Beside(first, s, t)
    requires x.body == Broadcasting ==> x.claim.key.nft !in s.chain
    ensures s'.chain == if x.body == Broadcasting then s.chain + {x.claim.key.nft} else s.chain
    ensures UnderWay(s0, steps, s', t, GoExec(s.db, s'.chain, x)) && Beside(first, s', t)
    ensures s'.db == GoDb(s.db, x, s.clock) && s'.clock == s.clock
  {
    hide Runs, GoDb;
    steps, s' := before, s;
    if x.body == Broadcasting { steps, s' := Extend(s0, steps, s', Land(t)); }
    steps, s' := Extend(s0, steps, s', Go(t));
  }

  lemma BesideBoth(a: State, b: State, c: State, t: Token)
    requires Beside(a, b, t) && Beside(b, c, t)
    ensures Beside(a, c, t)
  {
  }

  /** The pause setting is seen before the start. */
  lemma Released(s0: State, before: seq<Step>, s: State, c: Claim) returns (steps: seq<Step>, s': State)
    requires Runs(s0, before, s) && Waits(s, c)
    ensures Runs(s0, steps, s') && Beside(s, s', c.token) && Over(s', c) && s'.chain == s.chain
    ensures s'.db == ReleaseAll(s.db, [c]) && !s'.db.Owned(c)
  {
    hide Runs;
    steps, s' := Extend(s0, before, s, Release(c.token));
    assert [c][..0] == [];
  }

  lemma Started(s0: State, before: seq<Step>, s: State, c: Claim) returns (steps: seq<Step>, s': State)
    requires Runs(s0, before, s) && Waits(s, c)
    ensures Runs(s0, steps, s') && Beside(s, s', c.token) && s'.db == s.db.Restamp(c, s.clock)
    ensures s'.chain == s.chain && s'.clock == s.clock
    ensures if s.db.Owned(c) then UnderWay(s0, steps, s', c.token, Exec(c, None, WillRead, Racing))
      else Over(s', c) && s'.db == s.db
  {
    hide Runs;
    steps, s' := Extend(s0, before, s, Start(c.token));
  }

  lemma Unconfigured(s0: State, before: seq<Step>, first: State, s: State, c: Claim)
    returns (steps: seq<Step>, s': State)
    requires UnderWay(s0, before, s, c.token, Exec(c, None, WillRead, Racing)) && Beside(first, s, c.token)
    ensures Runs(s0, steps, s') && Beside(first, s', c.token) && Over(s', c) && s'.chain == s.chain
    ensures s'.db == s.db.GiveBack(c, Some(s.clock + POSTPONE_DELAY)) && !s'.db.Owned(c)
  {
    hide Runs;
    steps, s' := Extend(s0, before, s, NotConfigured(c.token));
  }

  lemma Recorded(s0: State, before: seq<Step>, first: State, s: State, c: Claim, x: Exec)
    returns (steps: seq<Step>, s': State)
    requires UnderWay(s0, before, s, c.token, x) && x.claim == c && x.body.Finished? && Beside(first, s, c.token)
    ensures Runs(s0, steps, s') && Beside(first, s', c.token) && Over(s', c) && s'.chain == s.chain
    ensures s'.db == SettleDb(s.db, x, s.clock)
  {
    hide Runs, SettleDb;
    steps, s' := Extend(s0, before, s, Settle(c.token));
  }

  // ----- What one undisturbed execution does, in terms of the rows -----

  /** The tables and the chain once the mint phase of NFT `n` is over: already minted before, found on chain, or minted
      now. */
  ghost predicate MintOver(db: Db, chain: set<NftId>, k: Conditions, n: NftId, nfts: map<NftId, Nft>,
      chain': set<NftId>) {
    n in db.nfts
    && if db.nfts[n].status in {Minted, Attached} then nfts == db.nfts && chain' == chain
       else
         && nfts == db.nfts[n := db.nfts[n].(status := Minted, tokenId := Some(n))] && chain' == chain + {n}
         && (n in chain || (k.enabledLater && !k.mintFails))
  }

  /** A parent's MINTED children have attach jobs, pulled forward to `now` where they are PENDING; no other job
      moves. */
  ghost predicate ChildrenQueued(jobs: map<JobKey, Job>, nfts: map<NftId, Nft>, parent: NftId, now: nat,
      jobs': map<JobKey, Job>) {
    var waiting := set m | m in nfts && nfts[m].parent == Some(parent) && nfts[m].kind == CompletionChild
      && nfts[m].status == Minted;
    && (forall m :: m in waiting && AttachKey(m) !in jobs ==>
      AttachKey(m) in jobs' && jobs'[AttachKey(m)] == Job(Pending, 0, None, now, None))
    && (forall q :: q in jobs ==> q in jobs')
    && (forall m :: m in waiting && AttachKey(m) in jobs && jobs[AttachKey(m)].status == Pending ==>
      jobs'[AttachKey(m)] == jobs[AttachKey(m)].(scheduledAt := now))
    && (forall m :: m in waiting && AttachKey(m) in jobs && jobs[AttachKey(m)].status != Pending ==>
      jobs'[AttachKey(m)] == jobs[AttachKey(m)])
    && (forall q :: q in jobs' && !(q.AttachKey? && q.nft in waiting) ==> q in jobs && jobs'[q] == jobs[q])
  }

  /** A child whose parent is MINTED or ATTACHED has an attach job; no other job is touched. */
  ghost predicate ChildQueued(jobs: map<JobKey, Job>, nfts: map<NftId, Nft>, row: Nft, n: NftId, now: nat,
      jobs': map<JobKey, Job>) {
    if row.status != Attached && row.parent.Some? && row.parent.value in nfts
      && nfts[row.parent.value].kind == NinjaParent && nfts[row.parent.value].status in {Minted, Attached}
      && AttachKey(n) !in jobs
    then jobs' == jobs[AttachKey(n) := Job(Pending, 0, None, now, None)]
    else jobs' == jobs
  }

  /** The attach statement finds its row: MINTED or ATTACHING, below a MINTED or ATTACHED parent. */
  predicate Attaches(nfts: map<NftId, Nft>, n: NftId) {
    n in nfts && nfts[n].status in {Minted, Attaching} && nfts[n].parent.Some? && nfts[n].parent.value in nfts
    && nfts[nfts[n].parent.value].status in {Minted, Attached}
  }

  /** The row of a job whose attempt failed at `now`, when its claim counted `spent` failures before. */
  function Retried(j: Job, spent: nat, now: nat): Job {
    if spent + 1 < 5
    then j.(status := Pending, retries := j.retries + 1, token := None, scheduledAt := now + 600)
    else j.(status := Failed, retries := j.retries + 1, token := None)
  }

  /** A mint job: SUCCEEDED with the row minted and the attach jobs queued; or paused before the broadcast, with
      nothing spent and the row back to PENDING unless it holds a token; or a failed broadcast. `j` is its started
      row. */
  ghost predicate MintProcessed(db: Db, chain: set<NftId>, k: Conditions, c: Claim, j: Job, now: nat, db': Db,
      chain': set<NftId>)
    requires c.key.nft in db.nfts
  {
    var n, row := c.key.nft, db.nfts[c.key.nft];
    if row.status in {Minted, Attached} || n in chain || (k.enabledLater && !k.mintFails) then
      && MintOver(db, chain, k, n, db'.nfts, chain')
      && var own := db.jobs[c.key := j.(status := Succeeded, token := None)];
         if row.kind == NinjaParent then ChildrenQueued(own, db'.nfts, n, now, db'.jobs)
         else ChildQueued(own, db'.nfts, row, n, now, db'.jobs)
    else if !k.enabledLater then
      && db'.jobs == db.jobs[c.key := j.(status := Pending, token := None)] && chain' == chain
      && db'.nfts == db.nfts[n := row.(status := if row.tokenId == None then Waiting else Minting)]
    else
      && db'.jobs == db.jobs[c.key := Retried(j, c.retries, now)] && chain' == chain
      && db'.nfts == db.nfts[n := row.(status := if c.retries + 1 < 5 || row.attachedAt.Some? then Minting else Broken)]
  }

  /** An attach job: SUCCEEDED with the row ATTACHED, put off for an hour until the parent is ready, or failed in any
      other status. */
  ghost predicate AttachProcessed(db: Db, c: Claim, j: Job, now: nat, db': Db)
    requires c.key.nft in db.nfts
  {
    var n, row := c.key.nft, db.nfts[c.key.nft];
    if row.status == Attached then
      db'.jobs == db.jobs[c.key := j.(status := Succeeded, token := None)] && db'.nfts == db.nfts
    else if Attaches(db.nfts, n) then
      && db'.jobs == db.jobs[c.key := j.(status := Succeeded, token := None)]
      && db'.nfts == db.nfts[n := row.(status := Attached, attachedAt := Some(now))]
    else if row.status in {Minted, Attaching} then
      && db'.jobs == db.jobs[c.key := j.(status := Pending, token := None, scheduledAt := now + 3600)]
      && db'.nfts == db.nfts
    else
      && db'.jobs == db.jobs[c.key := Retried(j, c.retries, now)]
      && db'.nfts == if c.retries + 1 < 5 || row.attachedAt.Some? then db.nfts
                     else db.nfts[n := row.(status := Broken)]
  }

  /** What processing claim `c` without a timeout makes of the tables and the chain. */
  ghost predicate Processed(db: Db, chain: set<NftId>, k: Conditions, c: Claim, now: nat, db': Db,
      chain': set<NftId>) {
    if !db.Owned(c) then db' == db && chain' == chain
    else
      var j := db.jobs[c.key].(startedAt := Some(now));
      if !k.enabled then
        && db'.jobs == db.jobs[c.key := db.jobs[c.key].(status := Pending, token := None)]
        && db'.nfts == db.nfts && chain' == chain
      else if !k.configured then
        && db'.jobs == db.jobs[c.key := j.(status := Pending, token := None, scheduledAt := now + 3600)]
        && db'.nfts == db.nfts && chain' == chain
      else if c.key.nft !in db.nfts then
        && db'.jobs == db.jobs[c.key := Retried(j, c.retries, now)] && db'.nfts == db.nfts && chain' == chain
      else if c.key.AttachKey? then AttachProcessed(db, c, j, now, db') && chain' == chain
      else MintProcessed(db, chain, k, c, j, now, db', chain')
  }

  /** How far execute() has come when it is at `x`: started on `db` and `chain`, it now sees `db'` and `chain'`. */
  ghost predicate Reached(db: Db, chain: set<NftId>, k: Conditions, now: nat, x: Exec, db': Db, chain': set<NftId>) {
    var key, n := x.claim.key, x.claim.key.nft;
    && db.Owned(x.claim) && key in db'.jobs && db'.jobs[key] == db.jobs[key]
    && (x.body != WillRead && n in db.nfts ==> x.seen == Some(db.nfts[n]))
    && match x.body
       case WillRead => db' == db && chain' == chain
       case WillAttach => db' == db && chain' == chain && n in db.nfts && key.AttachKey?
         && db.nfts[n].status != Attached
       case AfterMint => key.MintKey? && db'.jobs == db.jobs && MintOver(db, chain, k, n, db'.nfts, chain')
       case WillQueueAttach =>
         && key.MintKey? && db'.jobs == db.jobs && MintOver(db, chain, k, n, db'.nfts, chain')
         && db.nfts[n].kind != NinjaParent && db.nfts[n].status != Attached && db.nfts[n].parent.Some?
         && db'.ParentReady(db.nfts[n].parent.value)
       case Finished(Done) =>
         && n in db.nfts
         && if key.MintKey? then
              && MintOver(db, chain, k, n, db'.nfts, chain')
              && if db.nfts[n].kind == NinjaParent then ChildrenQueued(db.jobs, db'.nfts, n, now, db'.jobs)
                 else ChildQueued(db.jobs, db'.nfts, db.nfts[n], n, now, db'.jobs)
            else
              && chain' == chain && db'.jobs == db.jobs
              && if db.nfts[n].status == Attached then db'.nfts == db.nfts
                 else
                   && Attaches(db.nfts, n)
                   && db'.nfts == db.nfts[n := db.nfts[n].(status := Attached, attachedAt := Some(now))]
       case Finished(Deferred) =>
         && db' == db && chain' == chain && key.AttachKey? && n in db.nfts && db.nfts[n].status in {Minted, Attaching}
         && !Attaches(db.nfts, n)
       case Finished(PausedOut) => Marked(db, chain, key, db', chain') && n !in chain && !k.enabledLater
       case Finished(Threw) =>
         if key.MintKey? && n in db.nfts then
           Marked(db, chain, key, db', chain') && n !in chain && k.enabledLater && k.mintFails
         else
           && db' == db && chain' == chain
           && (n in db.nfts ==> db.nfts[n].status != Attached && db.nfts[n].status !in {Minted, Attaching})
       case Finished(ClaimLost) => false
       case WillMark => db' == db && chain' == chain && n in db.nfts && key.MintKey? && !db.nfts[n].Ready()
       case WillProbe => Marked(db, chain, key, db', chain')
       case WillRecover => Marked(db, chain, key, db', chain') && n in chain
       case WillRecheck => Marked(db, chain, key, db', chain') && n !in chain
       case WillBroadcast => Marked(db, chain, key, db', chain') && n !in chain
       case Broadcasting => Marked(db, chain, key, db', chain') && n !in chain && k.enabledLater
       case WillRecord =>
         && Marked(db, chain, key, db', chain' - {n}) && n in chain' && n !in chain && k.enabledLater && !k.mintFails
  }

  /** Only the row of the mint job's NFT has changed, to MINTING. */
  ghost predicate Marked(db: Db, chain: set<NftId>, key: JobKey, db': Db, chain': set<NftId>) {
    && key.MintKey? && key.nft in db.nfts && !db.nfts[key.nft].Ready()
    && db'.jobs == db.jobs && chain' == chain
    && db'.nfts == db.nfts[key.nft := db.nfts[key.nft].(status := Minting)]
  }

  lemma UpsertedQueues(jobs: map<JobKey, Job>, db: Db, parent: NftId, now: nat)
    ensures ChildrenQueued(jobs, db.nfts, parent, now,
      Upserted(jobs, (set m | m in db.nfts && db.WaitsFor(m, parent)), now))
  {
  }

  /** Each action of execute() takes it one stage further. */
  lemma GoReaches(db: Db, chain: set<NftId>, k: Conditions, now: nat, x: Exec, db': Db, chain': set<NftId>,
      chain'': set<NftId>)
    requires Reached(db, chain, k, now, x, db', chain') && !x.body.Finished?
    requires x.body == WillBroadcast ==> k.enabledLater
    requires x.body == Broadcasting ==> !k.mintFails
    requires chain'' == if x.body == Broadcasting then chain' + {x.claim.key.nft} else chain'
    ensures Reached(db, chain, k, now, GoExec(db', chain'', x), GoDb(db', x, now), chain'')
  {
    hide ChildrenQueued;
    if x.body == AfterMint { UpsertedQueues(db.jobs, db', x.claim.key.nft, now); }
  }

  lemma ReachedAtFirst(db: Db, chain: set<NftId>, k: Conditions, now: nat, c: Claim)
    requires db.Owned(c)
    ensures Reached(db, chain, k, now, Exec(c, None, WillRead, Racing), db, chain)
  {
  }

  /** A pause seen before the broadcast, or a failed broadcast, ends it. */
  lemma CutReaches(db: Db, chain: set<NftId>, k: Conditions, now: nat, x: Exec, db': Db, chain': set<NftId>,
      o: Outcome)
    requires Reached(db, chain, k, now, x, db', chain')
    requires if o == PausedOut then x.body == WillBroadcast && !k.enabledLater
      else o == Threw && x.body == Broadcasting && (k.mintFails || x.claim.key.nft in chain')
    ensures Reached(db, chain, k, now, x.(body := Finished(o)), db', chain')
  {
  }

  /** Recording the result of an execution that was started in `db` completes what processing its claim does. */
  lemma SettledIsProcessed(db: Db, chain: set<NftId>, k: Conditions, now: nat, x: Exec, db': Db, chain': set<NftId>)
    requires db.Owned(x.claim) && k.enabled && k.configured && x.body.Finished? && x.wrap == Racing
    requires Reached(db.Restamp(x.claim, now), chain, k, now, x, db', chain')
    ensures Processed(db, chain, k, x.claim, now, SettleDb(db', x, now), chain')
  {
  }

  lemma ReleasedIsProcessed(db: Db, chain: set<NftId>, k: Conditions, c: Claim, now: nat)
    requires !k.enabled
    ensures Processed(db, chain, k, c, now, ReleaseAll(db, [c]), chain)
  {
    assert [c][..0] == [];
  }

  /** Nothing happens to a claim that is no longer owned, and an unconfigured chain client puts the job off. */
  lemma NotStartedIsProcessed(db: Db, chain: set<NftId>, k: Conditions, c: Claim, now: nat)
    ensures !db.Owned(c) ==> Processed(db, chain, k, c, now, db, chain)
    ensures k.enabled && !k.configured ==>
      Processed(db, chain, k, c, now, db.Restamp(c, now).GiveBack(c, Some(now + POSTPONE_DELAY)), chain)
  {
  }

  /** A mint job whose row is still PENDING, and whose token exists or whose broadcast goes through. */
  ghost predicate WillMint(db: Db, chain: set<NftId>, k: Conditions, c: Claim) {
    && db.Owned(c) && k.enabled && k.configured && c.key.MintKey? && c.key.nft in db.nfts
    && db.nfts[c.key.nft].status == Waiting && (c.key.nft in chain || (k.enabledLater && !k.mintFails))
  }

  lemma WaitingIsMinted(db: Db, chain: set<NftId>, k: Conditions, c: Claim, now: nat, db': Db, chain': set<NftId>)
    requires Processed(db, chain, k, c, now, db', chain') && WillMint(db, chain, k, c)
    ensures c.key in db'.jobs && db'.jobs[c.key].status == Succeeded && db'.jobs[c.key].token == None
    ensures db'.nfts == db.nfts[c.key.nft := db.nfts[c.key.nft].(status := Minted, tokenId := Some(c.key.nft))]
    ensures chain' == chain + {c.key.nft}
  {
  }

  /** What working through a batch makes of the tables: while the rest is held, claim by claim, until a stop gives back
      what is left. */
  ghost predicate Worked(db: Db, chain: set<NftId>, batch: seq<Claim>, stops: seq<bool>, ks: seq<Conditions>, now: nat,
      db': Db, chain': set<NftId>)
    requires |stops| == |ks| == |batch|
    decreases |batch|
  {
    if batch == [] then db' == db && chain' == chain
    else if stops[0] then db' == ReleaseAll(db, batch) && chain' == chain
    else exists next, after ::
      Processed(HoldAll(db, batch[1..], now), chain, ks[0], batch[0], now, next, after)
      && Worked(next, after, batch[1..], stops[1..], ks[1..], now, db', chain')
  }

  /** What is worked from here on is worked from the start of the batch. */
  ghost predicate SoFar(db: Db, chain: set<NftId>, batch: seq<Claim>, stops: seq<bool>, ks: seq<Conditions>, now: nat,
      i: nat, here: Db, there: set<NftId>)
    requires |stops| == |ks| == |batch| && i <= |batch|
  {
    forall db', chain' :: Worked(here, there, batch[i..], stops[i..], ks[i..], now, db', chain') ==>
      Worked(db, chain, batch, stops, ks, now, db', chain')
  }

  lemma SoFarNone(db: Db, chain: set<NftId>, batch: seq<Claim>, stops: seq<bool>, ks: seq<Conditions>, now: nat)
    requires |stops| == |ks| == |batch|
    ensures SoFar(db, chain, batch, stops, ks, now, 0, db, chain)
  {
    hide Worked;
    assert batch[0..] == batch && stops[0..] == stops && ks[0..] == ks;
  }

  lemma SoFarOne(db: Db, chain: set<NftId>, batch: seq<Claim>, stops: seq<bool>, ks: seq<Conditions>, now: nat, i: nat,
      here: Db, there: set<NftId>, next: Db, after: set<NftId>)
    requires |stops| == |ks| == |batch| && i < |batch| && !stops[i]
    requires SoFar(db, chain, batch, stops, ks, now, i, here, there)
    requires Processed(HoldAll(here, batch[i + 1..], now), there, ks[i], batch[i], now, next, after)
    ensures SoFar(db, chain, batch, stops, ks, now, i + 1, next, after)
  {
    hide Processed, HoldAll, Worked;
    forall db', chain' | Worked(next, after, batch[i + 1..], stops[i + 1..], ks[i + 1..], now, db', chain')
      ensures Worked(db, chain, batch, stops, ks, now, db', chain') {
      WorkedOne(batch, stops, ks, now, i, here, there, next, after, db', chain');
    }
  }

  lemma WorkedOne(batch: seq<Claim>, stops: seq<bool>, ks: seq<Conditions>, now: nat, i: nat, here: Db,
      there: set<NftId>, next: Db, after: set<NftId>, db': Db, chain': set<NftId>)
    requires |stops| == |ks| == |batch| && i < |batch| && !stops[i]
    requires Processed(HoldAll(here, batch[i + 1..], now), there, ks[i], batch[i], now, next, after)
    requires Worked(next, after, batch[i + 1..], stops[i + 1..], ks[i + 1..], now, db', chain')
    ensures Worked(here, there, batch[i..], stops[i..], ks[i..], now, db', chain')
  {
    hide Processed, HoldAll;
    assert batch[i..][1..] == batch[i + 1..] && stops[i..][1..] == stops[i + 1..] && ks[i..][1..] == ks[i + 1..];
  }

  lemma SoFarStops(db: Db, chain: set<NftId>, batch: seq<Claim>, stops: seq<bool>, ks: seq<Conditions>, now: nat,
      i: nat, here: Db, there: set<NftId>)
    requires |stops| == |ks| == |batch| && i <= |batch| && (i < |batch| ==> stops[i])
    requires SoFar(db, chain, batch, stops, ks, now, i, here, there)
    ensures Worked(db, chain, batch, stops, ks, now, ReleaseAll(here, batch[i..]), there)
  {
    hide ReleaseAll, Processed, HoldAll;
    if i == |batch| { NothingReleased(here); }
    assert Worked(here, there, batch[i..], stops[i..], ks[i..], now, ReleaseAll(here, batch[i..]), there);
  }

  lemma NothingReleased(db: Db)
    ensures ReleaseAll(db, []) == db
  {
  }

  function Firsts<T>(f: nat -> T, n: nat): (r: seq<T>)
    ensures |r| == n && forall i :: 0 <= i < n ==> r[i] == f(i)
  {
    seq(n, i requires 0 <= i < n => f(i))
  }

  /** The stale jobs have been given back. */
  ghost predicate Swept(db: Db, now: nat, db': Db) {
    exists stale :: (forall k :: k in stale <==> db.Stale(k, now)) && db' == db.RequeueStale(stale, now)
  }

  lemma IsSwept(db: Db, stale: set<JobKey>, now: nat)
    requires forall k :: k in stale <==> db.Stale(k, now)
    ensures Swept(db, now, db.RequeueStale(stale, now))
  {
    hide Db.RequeueStale;
  }

  /** What a poll makes of the tables: stale jobs given back, the earliest due jobs claimed, the batch worked
      through. */
  ghost predicate Polled(db: Db, chain: set<NftId>, locked: set<JobKey>, stops: seq<bool>, ks: seq<Conditions>,
      now: nat, batch: seq<Claim>, first: Token, next: Token, db': Db, chain': set<NftId>)
    requires |stops| == |ks| == |batch|
  {
    exists swept, claimed ::
      && Swept(db, now, swept) && ClaimsEarliest(swept, claimed, locked, now, batch, first, next)
      && Worked(claimed, chain, batch, stops, ks, now, db', chain')
  }

  lemma IsPicked(db: Db, db': Db, locked: set<JobKey>, now: nat, batch: seq<Claim>, first: Token, next: Token)
    requires ClaimsEarliest(db, db', locked, now, batch, first, next)
    ensures Picked(db, db', locked, now, batch, first, next)
    ensures |batch| <= BATCH_LIMIT && forall i :: 0 <= i < |batch| ==>
      db.Claimable(batch[i].key, now) && batch[i].retries == db.jobs[batch[i].key].retries
    ensures forall i :: 0 <= i < |batch| ==> first <= batch[i].token
    ensures forall i, j :: 0 <= i < j < |batch| ==> batch[i].key != batch[j].key && batch[i].token != batch[j].token
  {
  }

  class NftJobWorker {
    var jobs: map<JobKey, Job>
    var nfts: map<NftId, Nft>
    /** gen_random_uuid(): every value below has been used. */
    var nextToken: Token

    function Tables(): Db
      reads this
    {
      Db(jobs, nfts)
    }

    method EarliestFree(locked: set<JobKey>, now: nat) returns (k: Option<JobKey>)
      ensures k.None? ==> forall j :: !Free(Tables(), locked, now, j)
      ensures k.Some? ==> Free(Tables(), locked, now, k.value)
      ensures k.Some? ==> forall j :: Free(Tables(), locked, now, j) ==>
        jobs[k.value].scheduledAt <= jobs[j].scheduledAt
    {
      k := None;
      var rest := jobs.Keys;
      while rest != {}
        invariant rest <= jobs.Keys
        invariant k.None? ==> forall j :: Free(Tables(), locked, now, j) ==> j in rest
        invariant k.Some? ==> Free(Tables(), locked, now, k.value)
        invariant k.Some? ==> forall j :: Free(Tables(), locked, now, j) && j !in rest ==>
          jobs[k.value].scheduledAt <= jobs[j].scheduledAt
        decreases |rest|
      {
        var j :| j in rest;
        rest := rest - {j};
        if Free(Tables(), locked, now, j) && (k.None? || jobs[j].scheduledAt < jobs[k.value].scheduledAt) {
          k := Some(j);
        }
      }
    }

    /** CLAIM_PENDING_JOBS_SQL with the batch in processing order: the earliest due jobs no peer holds locked. */
    method ClaimPending(locked: set<JobKey>, now: nat) returns (batch: seq<Claim>)
      modifies this
      ensures ClaimsEarliest(old(Tables()), Tables(), locked, now, batch, old(nextToken), nextToken)
      ensures |batch| <= 10
      ensures forall i :: 0 <= i < |batch| ==> batch[i].key in old(jobs) && batch[i].key !in locked
      ensures forall i :: 0 <= i < |batch| ==>
        old(jobs)[batch[i].key].status == Pending && old(jobs)[batch[i].key].scheduledAt <= now
    {
      hide Picked, Unpicked;
      batch := [];
      ghost var db, first := Tables(), nextToken;
      PickedNone(db, locked, now, first);
      var open := true;
      while open && |batch| < BATCH_LIMIT
        invariant |batch| <= BATCH_LIMIT && Picked(db, Tables(), locked, now, batch, first, nextToken)
        invariant !open ==> forall k :: Free(db, locked, now, k) ==> !Unpicked(batch, k)
        decreases open, BATCH_LIMIT - |batch|
      {
        var k := EarliestFree(locked, now);
        if k.None? {
          forall j | Free(db, locked, now, j) ensures !Unpicked(batch, j) {
            StillFree(db, Tables(), locked, now, batch, first, nextToken, j);
          }
          open := false;
        } else {
          PickNext(db, Tables(), locked, now, batch, first, nextToken, k.value);
          batch := batch + [Claim(k.value, nextToken, jobs[k.value].retries)];
          jobs := jobs[k.value := jobs[k.value].(status := Processing, token := Some(nextToken),
                                                 startedAt := Some(now))];
          nextToken := nextToken + 1;
        }
      }
      PickedAreFree(db, Tables(), locked, now, batch, first, nextToken);
    }

    predicate Owns(c: Claim)
      reads this
    {
      c.key in jobs && jobs[c.key].status == Processing && jobs[c.key].token == Some(c.token)
    }

    /** The stamp that keeps waiting jobs out of a peer's stale sweep. */
    method HoldUnstarted(tail: seq<Claim>, now: nat)
      modifies this`jobs
      ensures Tables() == HoldAll(old(Tables()), tail, now)
    {
      for i := 0 to |tail|
        invariant Tables() == HoldAll(old(Tables()), tail[..i], now)
      {
        assert tail[..i + 1][..i] == tail[..i];
        if Owns(tail[i]) {
          jobs := jobs[tail[i].key := jobs[tail[i].key].(startedAt := Some(now))];
        }
      }
      assert tail[..|tail|] == tail;
    }

    method ReleaseUnstarted(batch: seq<Claim>)
      modifies this`jobs
      ensures Tables() == ReleaseAll(old(Tables()), batch)
    {
      for i := 0 to |batch|
        invariant Tables() == ReleaseAll(old(Tables()), batch[..i])
      {
        assert batch[..i + 1][..i] == batch[..i];
        if Owns(batch[i]) {
          jobs := jobs[batch[i].key := jobs[batch[i].key].(status := Pending, token := None)];
        }
      }
      assert batch[..|batch|] == batch;
    }

    /** Jobs over 15 minutes in PROCESSING go back, and with them the NFTs they left MINTING. */
    method RequeueStaleJobs(now: nat) returns (stale: set<JobKey>)
      modifies this`jobs, this`nfts
      ensures Tables() == old(Tables()).RequeueStale(stale, now)
      ensures forall k :: k in stale <==> (k in old(jobs) && old(jobs)[k].status == Processing
        && old(jobs)[k].startedAt.Some? && old(jobs)[k].startedAt.value + 900 < now)
      ensures jobs.Keys == old(jobs).Keys && nfts.Keys == old(nfts).Keys
      ensures forall k :: k in jobs && k !in stale ==> jobs[k] == old(jobs)[k]
      ensures forall k :: k in stale ==>
        jobs[k] == old(jobs)[k].(status := Pending, scheduledAt := now, token := None)
      ensures forall n :: n in nfts ==>
        var back := old(nfts)[n].status == Minting && (MintKey(n) in stale || AttachKey(n) in stale);
        nfts[n] == if back then old(nfts)[n].(status := Waiting) else old(nfts)[n]
    {
      ghost var before := Tables();
      stale := set k | k in jobs && Tables().Stale(k, now);
      jobs := map k | k in jobs :: if k in stale then jobs[k].(status := Pending, scheduledAt := now, token := None)
        else jobs[k];
      var reclaimed := set k | k in stale :: k.nft;
      nfts := map n | n in nfts :: if nfts[n].status == Minting && n in reclaimed then nfts[n].(status := Waiting)
        else nfts[n];
      forall n ensures n in reclaimed <==> MintKey(n) in stale || AttachKey(n) in stale {
        if MintKey(n) in stale { assert MintKey(n).nft in reclaimed; }
        if AttachKey(n) in stale { assert AttachKey(n).nft in reclaimed; }
      }
    }

    /** execute()'s next action against the tables and the chain it sees. */
    method Advance(x: Exec, chain: set<NftId>, now: nat) returns (x': Exec)
      modifies this`jobs, this`nfts
      ensures Tables() == GoDb(old(Tables()), x, now)
      ensures x' == GoExec(old(Tables()), chain, x)
    {
      var c, n := x.claim, x.claim.key.nft;
      var owned := Owns(c);
      x' := x;
      match x.body
      case WillRead =>
        if !owned {
          x' := x.(body := Finished(ClaimLost));
        } else if n !in nfts {
          x' := x.(body := Finished(Threw));
        } else {
          var b := if c.key.MintKey?
            then (if nfts[n].status == Minted || nfts[n].status == Attached then AfterMint else WillMark)
                   else if nfts[n].status == Attached then Finished(Done) else WillAttach;
          x' := x.(body := b, seen := Some(nfts[n]));
        }
      case WillMark =>
        if owned && n in nfts { nfts := nfts[n := nfts[n].(status := Minting)]; }
        x' := x.(body := if owned then WillProbe else Finished(ClaimLost));
      case WillProbe =>
        x' := x.(body := if n in chain then WillRecover else WillRecheck);
      case WillRecheck =>
        x' := x.(body := if owned then WillBroadcast else Finished(ClaimLost));
      case WillBroadcast =>
        x' := x.(body := Broadcasting);
      case Broadcasting =>
        x' := x.(body := WillRecord);
      case AfterMint =>
        if x.seen.None? {
          x' := x.(body := Finished(Threw));
        } else if x.seen.value.kind == NinjaParent {
          if owned { QueueWaitingChildren(n, now); }
          x' := x.(body := if owned then Finished(Done) else Finished(ClaimLost));
        } else if x.seen.value.parent.None? || x.seen.value.status == Attached {
          x' := x.(body := Finished(Done));
        } else if !owned {
          x' := x.(body := Finished(ClaimLost));
        } else {
          var p := x.seen.value.parent.value;
          var ready := p in nfts && nfts[p].kind == NinjaParent
            && (nfts[p].status == Minted || nfts[p].status == Attached);
          x' := x.(body := if ready then WillQueueAttach else Finished(Done));
        }
      case WillQueueAttach =>
        if owned && AttachKey(n) !in jobs { jobs := jobs[AttachKey(n) := NewJob(now)]; }
        x' := x.(body := if owned then Finished(Done) else Finished(ClaimLost));
      case WillAttach =>
        if !owned {
          x' := x.(body := Finished(ClaimLost));
        } else if Tables().CanAttach(n) {
          nfts := nfts[n := nfts[n].(status := Attached, attachedAt := Some(now))];
          x' := x.(body := Finished(Done));
        } else {
          x' := x.(body := if x.seen.Some? && x.seen.value.Attachable() then Finished(Deferred) else Finished(Threw));
        }
      case Finished(_) =>
      case _ => // WillRecover, WillRecord
        if owned && n in nfts { nfts := nfts[n := nfts[n].(status := Minted, tokenId := Some(n))]; }
        x' := x.(body := if owned then AfterMint else Finished(ClaimLost));
    }

    /** One upsert per MINTED child of `parent`; a job already there is only pulled forward, and only while PENDING. */
    method QueueWaitingChildren(parent: NftId, now: nat)
      modifies this`jobs
      ensures jobs == Upserted(old(jobs), (set m | m in nfts && old(Tables()).WaitsFor(m, parent)), now)
      ensures ChildrenQueued(old(jobs), nfts, parent, now, jobs)
    {
      hide ChildrenQueued;
      UpsertedQueues(jobs, Tables(), parent, now);
      ghost var before := jobs;
      var waiting := set m | m in nfts && Tables().WaitsFor(m, parent);
      var left := waiting;
      assert Upserted(before, {}, now) == before;
      while left != {}
        invariant left <= waiting && jobs == Upserted(before, waiting - left, now)
        decreases |left|
      {
        var m :| m in left;
        var k := AttachKey(m);
        UpsertOne(before, waiting - left, m, now);
        if k !in jobs {
          jobs := jobs[k := NewJob(now)];
        } else if jobs[k].status == Pending {
          jobs := jobs[k := jobs[k].(scheduledAt := now)];
        }
        assert waiting - left + {m} == waiting - (left - {m});
        left := left - {m};
      }
      assert waiting - {} == waiting;
    }

    /** process() after the race between execute() and the deadline. */
    method Conclude(x: Exec, now: nat)
      modifies this`jobs, this`nfts
      ensures Tables() == SettleDb(old(Tables()), x, now)
      ensures !old(Owns(x.claim)) ==> Tables() == old(Tables())
      ensures old(Owns(x.claim)) && x.wrap != TimedOut && x.body == Finished(Done) ==>
        var k := x.claim.key;
        jobs == old(jobs)[k := old(jobs)[k].(status := Succeeded, token := None)] && nfts == old(nfts)
      ensures old(Owns(x.claim)) && x.wrap != TimedOut && x.body == Finished(Deferred) ==>
        var k := x.claim.key;
        jobs == old(jobs)[k := old(jobs)[k].(status := Pending, token := None, scheduledAt := now + 3600)]
        && nfts == old(nfts)
      ensures old(Owns(x.claim)) && x.wrap != TimedOut && x.body == Finished(PausedOut) ==>
        var k, n := x.claim.key, x.claim.key.nft;
        jobs == old(jobs)[k := old(jobs)[k].(status := Pending, token := None)]
        && nfts == if n in old(nfts) && old(nfts)[n].status == Minting && old(nfts)[n].tokenId == None
                   then old(nfts)[n := old(nfts)[n].(status := Waiting)] else old(nfts)
      ensures old(Owns(x.claim)) && (x.wrap == TimedOut || x.body == Finished(Threw)) ==>
        var k, n, r := x.claim.key, x.claim.key.nft, old(jobs)[x.claim.key].retries + 1;
        if x.claim.retries + 1 < 5 then
          jobs == old(jobs)[k := old(jobs)[k].(status := Pending, retries := r, token := None,
                                               scheduledAt := now + 600)]
          && nfts == old(nfts)
        else
          jobs == old(jobs)[k := old(jobs)[k].(status := Failed, retries := r, token := None)]
          && nfts == if n in old(nfts) && old(nfts)[n].status != Attached && old(nfts)[n].attachedAt == None
                     then old(nfts)[n := old(nfts)[n].(status := Broken)] else old(nfts)
    {
      if !Owns(x.claim) { return; }
      var k, n := x.claim.key, x.claim.key.nft;
      if x.wrap == TimedOut || x.body == Finished(Threw) {
        var exhausted := x.claim.retries + 1 >= MAX_RETRY;
        jobs := jobs[k := jobs[k].(status := if exhausted then Failed else Pending,
                                   retries := jobs[k].retries + 1, token := None,
                                   scheduledAt := if exhausted then jobs[k].scheduledAt else now + RETRY_DELAY)];
        if exhausted && n in nfts && nfts[n].status != Attached && nfts[n].attachedAt.None? {
          nfts := nfts[n := nfts[n].(status := Broken)];
        }
      } else if x.body == Finished(Deferred) {
        jobs := jobs[k := jobs[k].(status := Pending, token := None, scheduledAt := now + POSTPONE_DELAY)];
      } else if x.body == Finished(PausedOut) {
        if n in nfts && nfts[n].status == Minting && nfts[n].tokenId.None? {
          nfts := nfts[n := nfts[n].(status := Waiting)];
        }
        jobs := jobs[k := jobs[k].(status := Pending, token := None)];
      } else if x.body == Finished(Done) {
        jobs := jobs[k := jobs[k].(status := Succeeded, token := None)];
      }
    }

    /** The operator's retry: 404 unless the job is FAILED. */
    method Retry(k: JobKey, now: nat) returns (found: bool)
      modifies this`jobs, this`nfts
      ensures found == (k in old(jobs) && old(jobs)[k].status == Failed)
      ensures Tables() == if found then old(Tables()).OperatorRequeue(k, now) else old(Tables())
      ensures found ==> jobs == old(jobs)[k := old(jobs)[k].(status := Pending, retries := 0, scheduledAt := now,
                                                             startedAt := None)]
      ensures found && k.nft in old(nfts) ==>
        var row := old(nfts)[k.nft];
        nfts == if row.status != Broken then old(nfts)
                else if row.attachedAt.Some? then old(nfts)[k.nft := row.(status := Attached)]
                else if row.tokenId.Some? then old(nfts)[k.nft := row.(status := Minted)]
                else old(nfts)[k.nft := row.(status := Waiting)]
    {
      found := k in jobs && jobs[k].status == Failed;
      if found {
        jobs := jobs[k := jobs[k].(status := Pending, retries := 0, scheduledAt := now, startedAt := None)];
        if k.nft in nfts && nfts[k.nft].status == Broken {
          var v := nfts[k.nft];
          var restored := if v.attachedAt.Some? then Attached else if v.tokenId.Some? then Minted else Waiting;
          nfts := nfts[k.nft := v.(status := restored)];
        }
      }
    }

    /** execute() to its end, for a claim that has just been started. */
    method Execute(c: Claim, chain: set<NftId>, k: Conditions, now: nat, ghost s0: State, ghost before: seq<Step>,
        ghost s: State)
      returns (x: Exec, chain': set<NftId>, ghost steps: seq<Step>, ghost s': State)
      requires UnderWay(s0, before, s, c.token, Exec(c, None, WillRead, Racing))
      requires s.db == Tables() && s.chain == chain && s.clock == now
      modifies this`jobs, this`nfts
      ensures UnderWay(s0, steps, s', c.token, x) && x.claim == c && x.body.Finished? && x.wrap == Racing
      ensures s'.db == Tables() && s'.chain == chain' && Beside(s, s', c.token)
      ensures x.body == Finished(ClaimLost) ==> !Owns(c)
      ensures old(Owns(c)) ==> Reached(old(Tables()), chain, k, now, x, Tables(), chain')
    {
      hide Runs, GoDb, GoBody, Beside, UnderWay, Reached;
      ghost var db, owned := Tables(), Owns(c);
      x, chain', steps, s' := Exec(c, None, WillRead, Racing), chain, before, s;
      if owned { ReachedAtFirst(db, chain, k, now, c); }
      BesideItself(s, c.token);
      while !x.body.Finished?
        invariant UnderWay(s0, steps, s', c.token, x) && x.claim == c && x.wrap == Racing
        invariant s'.db == Tables() && s'.chain == chain' && s'.clock == now && Beside(s, s', c.token)
        invariant x.body == Finished(ClaimLost) ==> !Tables().Owned(c)
        invariant owned ==> Reached(db, chain, k, now, x, Tables(), chain')
        decreases Rank(x.body)
      {
        if x.body == WillBroadcast && !k.enabledLater {
          steps, s' := Paused(s0, steps, s, s', c.token, x);
          if owned { CutReaches(db, chain, k, now, x, Tables(), chain', PausedOut); }
          x := x.(body := Finished(PausedOut));
        } else if x.body == Broadcasting && (k.mintFails || c.key.nft in chain') {
          steps, s' := Thrown(s0, steps, s, s', c.token, x);
          if owned { CutReaches(db, chain, k, now, x, Tables(), chain', Threw); }
          x := x.(body := Finished(Threw));
        } else {
          ghost var seen := chain';
          if x.body == Broadcasting { chain' := chain' + {c.key.nft}; }
          if owned { GoReaches(db, chain, k, now, x, Tables(), seen, chain'); }
          steps, s' := Gone(s0, steps, s, s', c.token, x);
          GoAdvances(Tables(), chain', x);
          if GoBody(Tables(), chain', x) == Finished(ClaimLost) { LostIsNotOwned(Tables(), chain', x, now); }
          x := Advance(x, chain', now);
        }
      }
    }

    /** process() without a timeout: from the start stamp through every action of execute() to the bookkeeping, it is a
        run of the transition system in which no other execution moves; at its end the claim is dealt with and given
        up. */
    method Process(c: Claim, chain: set<NftId>, k: Conditions, now: nat, ghost s0: State, ghost before: seq<Step>,
        ghost s: State)
      returns (chain': set<NftId>, ghost steps: seq<Step>, ghost s': State)
      requires Runs(s0, before, s) && s.db == Tables() && s.chain == chain && s.clock == now && Waits(s, c)
      modifies this`jobs, this`nfts
      ensures Runs(s0, steps, s') && s'.db == Tables() && s'.chain == chain' && Beside(s, s', c.token)
      ensures Over(s', c) && !Owns(c)
      ensures Processed(old(Tables()), chain, k, c, now, Tables(), chain')
      // A mint job whose token exists, or whose broadcast goes through: SUCCEEDED, with the row MINTED and on chain.
      ensures WillMint(old(Tables()), chain, k, c) ==>
        && c.key in jobs && jobs[c.key].status == Succeeded && jobs[c.key].token == None
        && nfts == old(nfts)[c.key.nft := old(nfts)[c.key.nft].(status := Minted, tokenId := Some(c.key.nft))]
        && chain' == chain + {c.key.nft}
    {
      hide Runs, GoDb, GoBody, SettleDb, Beside, UnderWay, ReleaseAll, Reached, Processed;
      chain', steps, s' := chain, before, s;
      if !k.enabled {
        steps, s' := Released(s0, before, s, c);
        ReleasedIsProcessed(Tables(), chain, k, c, now);
        ReleaseUnstarted([c]);
        return;
      }
      BesideItself(s, c.token);
      steps, s' := Started(s0, steps, s', c);
      ghost var db := Tables();
      NotStartedIsProcessed(db, chain, k, c, now);
      if !Owns(c) { return; }
      jobs := jobs[c.key := jobs[c.key].(startedAt := Some(now))];
      if !k.configured {
        steps, s' := Unconfigured(s0, steps, s, s', c);
        jobs := jobs[c.key := jobs[c.key].(status := Pending, token := None, scheduledAt := now + POSTPONE_DELAY)];
        return;
      }
      var x;
      ghost var started := s';
      x, chain', steps, s' := Execute(c, chain', k, now, s0, steps, s');
      BesideBoth(s, started, s', c.token);
      SettlingGivesUp(Tables(), x, now);
      steps, s' := Recorded(s0, steps, s, s', c, x);
      SettledIsProcessed(db, chain, k, now, x, Tables(), chain');
      Conclude(x, now);
      if WillMint(db, chain, k, c) { WaitingIsMinted(db, chain, k, c, now, Tables(), chain'); }
    }

    /** The batch loop of pollOnce: hold the tail, process the head; on a stop, give the rest back. Whatever happens on
        the way is a run of the transition system, and at its end every claim of the batch is dealt with. */
    method RunBatch(batch: seq<Claim>, chain: set<NftId>, stops: seq<bool>, ks: seq<Conditions>, now: nat,
                    ghost s0: State, ghost before: seq<Step>, ghost s: State)
      returns (chain': set<NftId>, ghost steps: seq<Step>, ghost s': State)
      requires |stops| == |ks| == |batch|
      requires Runs(s0, before, s) && s.db == Tables() && s.chain == chain && s.clock == now && AllWait(s, batch)
      modifies this`jobs, this`nfts
      ensures Runs(s0, steps, s') && s'.db == Tables() && s'.chain == chain'
      ensures forall i :: 0 <= i < |batch| ==> Over(s', batch[i])
      ensures Worked(old(Tables()), chain, batch, stops, ks, now, Tables(), chain')
    {
      hide Runs, HoldAll, ReleaseAll, Processed, Worked, SoFar;
      chain', steps, s' := chain, before, s;
      ghost var db := Tables();
      SoFarNone(db, chain, batch, stops, ks, now);
      for i := 0 to |batch|
        invariant Runs(s0, steps, s') && s'.db == Tables() && s'.chain == chain' && s'.clock == now
        invariant AllWait(s', batch[i..])
        invariant forall j :: 0 <= j < i ==> Over(s', batch[j])
        invariant SoFar(db, chain, batch, stops, ks, now, i, Tables(), chain')
      {
        ghost var here, tail, mine := batch[i..], batch[i + 1..], Tables();
        if stops[i] {
          steps, s' := ReleaseRuns(s0, steps, s', here);
          SoFarStops(db, chain, batch, stops, ks, now, i, Tables(), chain');
          ReleaseUnstarted(batch[i..]);
          assert forall j :: i <= j < |batch| ==> batch[j] == here[j - i];
          return;
        }
        assert here[0] == batch[i] && forall j :: 0 <= j < |tail| ==> tail[j] == here[j + 1];
        steps := HoldRuns(s0, steps, s', tail);
        HoldUnstarted(batch[i + 1..], now);
        s' := s'.(db := Tables());
        ghost var there := chain';
        chain', steps, s' := Process(batch[i], chain', ks[i], now, s0, steps, s');
        SoFarOne(db, chain, batch, stops, ks, now, i, mine, there, Tables(), chain');
        forall j | 0 <= j < |tail| ensures Waits(s', tail[j]) { assert tail[j] == here[j + 1]; }
      }
      SoFarStops(db, chain, batch, stops, ks, now, |batch|, Tables(), chain');
      assert batch[|batch|..] == [];
      NothingReleased(Tables());
    }

    /** pollOnce: reclaim stale jobs, claim a batch, work through it; nothing while minting is switched off, and no
        claim while the process is stopping. The whole poll is a run of the transition system. */
    method PollOnce(enabled: bool, stopping: bool, locked: set<JobKey>, chain: set<NftId>, stops: nat -> bool,
                    ks: nat -> Conditions, now: nat, ghost s0: State, ghost before: seq<Step>, ghost s: State)
      returns (batch: seq<Claim>, chain': set<NftId>, ghost steps: seq<Step>, ghost s': State)
      requires Runs(s0, before, s) && s.db == Tables() && s.chain == chain && s.clock == now
      requires (forall t :: t in s.execs ==> t < nextToken) && (forall t :: t in s.txs ==> t < nextToken)
      modifies this
      ensures Runs(s0, steps, s') && s'.db == Tables() && s'.chain == chain'
      ensures |batch| <= BATCH_LIMIT && forall i :: 0 <= i < |batch| ==> Over(s', batch[i])
      ensures !enabled ==> batch == [] && Tables() == old(Tables()) && chain' == chain
      ensures enabled && stopping ==> batch == [] && Swept(old(Tables()), now, Tables()) && chain' == chain
      ensures enabled && !stopping ==> Polled(old(Tables()), chain, locked, Firsts(stops, |batch|), Firsts(ks, |batch|),
        now, batch, old(nextToken), nextToken, Tables(), chain')
    {
      hide Runs, ClaimAll, Worked, ClaimsEarliest, Picked, Db.RequeueStale;
      batch, chain', steps, s' := [], chain, before, s;
      if !enabled { return; }
      ghost var db := Tables();
      var stale := RequeueStaleJobs(now);
      steps, s' := Extend(s0, before, s, ReclaimStale(stale));
      IsSwept(db, stale, now);
      if stopping { return; }
      ghost var swept, first := Tables(), nextToken;
      batch := ClaimPending(locked, now);
      ghost var claimed := Tables();
      IsPicked(swept, claimed, locked, now, batch, first, nextToken);
      PickedIsClaimAll(swept, claimed, locked, now, batch, first, nextToken);
      steps, s' := ClaimRuns(s0, steps, s', batch, first);
      chain', steps, s' := RunBatch(batch, chain, Firsts(stops, |batch|), Firsts(ks, |batch|), now, s0, steps, s');
      assert Swept(db, now, swept) && ClaimsEarliest(swept, claimed, locked, now, batch, first, nextToken);
    }
  }
}
