/** A risky requeue can cost a row its ATTACHED status: the exact condition. */
module NftRequeues {
  import opened Prelude
  import opened Fresh
  import opened NftModel
  import opened NftSafety
  import opened NftAttached

  // ----- What else every run keeps -----

  ghost predicate TokenKnown(db: Db, n: NftId) { n in db.nfts && db.nfts[n].tokenId.Some? }

  ghost predicate ParentKnown(db: Db, n: NftId) {
    n in db.nfts && db.nfts[n].parent.Some? ==> TokenKnown(db, db.nfts[n].parent.value)
  }

  predicate PastProbe(b: Body) { b in {WillRecheck, WillBroadcast, Broadcasting, WillRecord} }

  /** A live mint that found no token on the chain has none in its row; one that finished has. */
  ghost predicate ExecBacked(db: Db, x: Exec) {
    var n := x.claim.key.nft;
    && (x.wrap == Held ==> x.body == WillRead)
    && (x.body == AfterMint ==> TokenKnown(db, n))
    && (x.body == WillQueueAttach ==> ParentKnown(db, n))
    && (db.Owned(x.claim) && PastProbe(x.body) ==> !TokenKnown(db, n))
    && (MintsLive(db, x) && n in db.nfts && db.nfts[n].kind == NinjaParent ==> !TokenKnown(db, n))
  }

  /** A parent with a token is MINTED, or its mint job failed for good after the mint. */
  ghost predicate RowBacked(db: Db, n: NftId) {
    TokenKnown(db, n) && db.nfts[n].kind == NinjaParent ==>
      db.nfts[n].status == Minted
      || (db.nfts[n].status == Broken && MintKey(n) in db.jobs && db.jobs[MintKey(n)].status == Failed)
  }

  ghost predicate Backed(s: State) {
    && (forall t :: t in s.execs ==> ExecBacked(s.db, s.execs[t]))
    && (forall n :: n in s.db.nfts ==> RowBacked(s.db, n))
    && (forall k :: k in s.db.jobs && k.AttachKey? ==> ParentKnown(s.db, k.nft))
  }

  lemma TokensStay(db: Db, db': Db, chain: set<NftId>, n: NftId)
    requires RowsMove(db, db', chain)
    ensures TokenKnown(db, n) ==> TokenKnown(db', n)
    ensures n in db.nfts ==>
      n in db'.nfts && db'.nfts[n].kind == db.nfts[n].kind && db'.nfts[n].parent == db.nfts[n].parent
    ensures ParentKnown(db, n) ==> ParentKnown(db', n)
  {
    if n in db.nfts {
      assert RowMove(db, chain, n, db'.nfts[n]);
      if db.nfts[n].parent.Some? && db.nfts[n].parent.value in db.nfts {
        assert RowMove(db, chain, db.nfts[n].parent.value, db'.nfts[db.nfts[n].parent.value]);
      }
    }
  }

  /** What a claim's transaction must respect. */
  ghost predicate Backs(s: State, db': Db, t: Token, x: Exec) {
    var n := x.claim.key.nft;
    && n in s.db.nfts && n in db'.nfts
    && ExecBacked(db', x) && RowBacked(db', n)
    && (x.claim.key.AttachKey? ==> db'.nfts[n].tokenId == s.db.nfts[n].tokenId)
    && NewParentsKnown(s.db, db')
  }

  ghost predicate NewParentsKnown(db: Db, db': Db) {
    forall k :: k in db'.jobs && k !in db.jobs && k.AttachKey? ==> ParentKnown(db, k.nft)
  }

  lemma OtherExecBacked(s: State, db': Db, t: Token, x: Exec, u: Token)
    requires Inv(s) && Backed(s) && t in s.execs && u in s.execs && u != t && x.claim == s.execs[t].claim
    requires JobsWrite(s.db, db', x.claim) && RowsMove(s.db, db', s.chain) && OnlyRow(s.db, db', x.claim.key.nft)
      && Backs(s, db', t, x)
    ensures ExecBacked(db', s.execs[u])
  {
    hide Rows, StaysMinted, HandedOver, Txs, RowMove, RowsMove, RowBacked, ClaimOk;
    var y := s.execs[u];
    assert ExecBacked(s.db, y) && ExecOk(s.db, s.chain, y);
    TokensStay(s.db, db', s.chain, y.claim.key.nft);
    if db'.Owned(y.claim) { OwnedBefore(s, db', t, u); }
  }

  lemma BackedAfterWrite(s: State, db': Db, t: Token, x: Exec)
    requires Inv(s) && Backed(s) && t in s.execs && x.claim == s.execs[t].claim
    requires JobsWrite(s.db, db', x.claim) && RowsMove(s.db, db', s.chain) && OnlyRow(s.db, db', x.claim.key.nft)
      && Backs(s, db', t, x)
    ensures Backed(s.(db := db', execs := s.execs[t := x]))
  {
    hide Inv, RowMove, RowsMove, ExecBacked;
    forall u | u in s.execs && u != t ensures ExecBacked(db', s.execs[u]) { OtherExecBacked(s, db', t, x, u); }
    forall m | m in s.db.nfts && m != x.claim.key.nft ensures RowBacked(db', m) { assert RowBacked(s.db, m); }
    forall k | k in db'.jobs && k.AttachKey? ensures ParentKnown(db', k.nft) { TokensStay(s.db, db', s.chain, k.nft); }
    assert db'.nfts.Keys == s.db.nfts.Keys;
  }

  /** The execution, its row and its parent's row are as every reachable state has them. */
  ghost predicate LocalOk(db: Db, chain: set<NftId>, x: Exec) {
    var n := x.claim.key.nft;
    && ExecOk(db, chain, x) && ExecBacked(db, x) && RowOk(db, chain, n) && RowBacked(db, n)
    && (db.nfts[n].parent.Some? ==> RowOk(db, chain, db.nfts[n].parent.value))
    && (x.claim.key.AttachKey? ==> db.nfts[n].parent.Some?)
  }

  lemma LocallyOk(s: State, t: Token)
    requires Inv(s) && Backed(s) && t in s.execs
    ensures LocalOk(s.db, s.chain, s.execs[t])
  {
    hide Claims, StaysMinted, HandedOver, Txs, ExecBacked, RowBacked;
    var n := s.execs[t].claim.key.nft;
    ExecKnown(s, t);
    assert RowOk(s.db, s.chain, n);
  }

  lemma ReadBacks(db: Db, chain: set<NftId>, x: Exec, now: nat)
    requires LocalOk(db, chain, x) && x.body == WillRead && x.wrap != Held
    ensures ExecBacked(db, GoExec(db, chain, x))
  {
  }

  lemma WorkBacks(db: Db, chain: set<NftId>, x: Exec, now: nat)
    requires LocalOk(db, chain, x) && x.wrap != Held && x.claim.key.MintKey? && MintPhase(x.body)
    ensures ExecBacked(GoDb(db, x, now), GoExec(db, chain, x)) && RowBacked(GoDb(db, x, now), x.claim.key.nft)
  {
  }

  lemma AfterwardsBacks(db: Db, chain: set<NftId>, x: Exec, now: nat)
    requires LocalOk(db, chain, x) && x.wrap != Held && (x.body == AfterMint || x.body == WillQueueAttach)
    ensures ExecBacked(GoDb(db, x, now), GoExec(db, chain, x)) && RowBacked(GoDb(db, x, now), x.claim.key.nft)
    ensures NewParentsKnown(db, GoDb(db, x, now))
  {
  }

  lemma AttachBacks(db: Db, chain: set<NftId>, x: Exec, now: nat)
    requires LocalOk(db, chain, x) && x.wrap != Held && x.body == WillAttach
    ensures ExecBacked(GoDb(db, x, now), GoExec(db, chain, x)) && RowBacked(GoDb(db, x, now), x.claim.key.nft)
  {
  }

  lemma GoBacks(s: State, t: Token)
    requires Inv(s) && Backed(s) && Enabled(s, Go(t))
    ensures Backs(s, GoDb(s.db, s.execs[t], s.clock), t, GoExec(s.db, s.chain, s.execs[t]))
  {
    hide Inv, Backed, RowBacked, ExecBacked, RowOk, ParentKnown;
    var x := s.execs[t];
    LocallyOk(s, t);
    if x.body == WillRead {
      ReadBacks(s.db, s.chain, x, s.clock);
    } else if x.body == WillAttach {
      AttachBacks(s.db, s.chain, x, s.clock);
    } else if x.body == AfterMint || x.body == WillQueueAttach {
      AfterwardsBacks(s.db, s.chain, x, s.clock);
    } else {
      WorkBacks(s.db, s.chain, x, s.clock);
    }
  }

  ghost predicate Ended(db: Db, db': Db, x: Exec) {
    && x.claim.key.nft in db.nfts && db'.jobs.Keys == db.jobs.Keys && db'.nfts.Keys == db.nfts.Keys
    && ExecBacked(db', x.(wrap := Settled)) && RowBacked(db', x.claim.key.nft)
    && db'.nfts[x.claim.key.nft].tokenId == db.nfts[x.claim.key.nft].tokenId
  }

  lemma EndBacks(db: Db, chain: set<NftId>, x: Exec, now: nat)
    requires LocalOk(db, chain, x) && (x.wrap == TimedOut || (x.wrap == Racing && x.body.Finished?))
    ensures Ended(db, SettleDb(db, x, now), x)
  {
    assert x.claim.key.nft in db.nfts && (x.claim.key.AttachKey? ==> db.nfts[x.claim.key.nft].kind != NinjaParent);
    hide RowOk, ExecOk;
  }

  /** A write that gives the claim back, re-stamps it, or does nothing. */
  ghost predicate Quiet(db: Db, db': Db, c: Claim, now: nat) {
    db' == db || db' == db.Restamp(c, now) || exists at :: db' == db.GiveBack(c, at)
  }

  lemma QuietWrites(db: Db, db': Db, chain: set<NftId>, c: Claim, now: nat)
    requires Quiet(db, db', c, now)
    ensures JobsWrite(db, db', c) && RowsMove(db, db', chain) && OnlyRow(db, db', c.key.nft)
    ensures db'.nfts == db.nfts && db'.jobs.Keys == db.jobs.Keys
  {
  }

  lemma QuietLocally(db: Db, db': Db, chain: set<NftId>, x: Exec, x': Exec, now: nat)
    requires LocalOk(db, chain, x) && Quiet(db, db', x.claim, now) && x'.claim == x.claim
    requires (x'.wrap == Held ==> x'.body == WillRead) && (x'.body == x.body || x'.body.Finished?)
    ensures ExecBacked(db', x') && RowBacked(db', x.claim.key.nft)
  {
    hide RowOk, ExecOk;
  }

  lemma QuietBacks(s: State, db': Db, t: Token, x: Exec)
    requires Inv(s) && Backed(s) && t in s.execs && x.claim == s.execs[t].claim
      && (x.wrap == Held ==> x.body == WillRead)
    requires (x.body == s.execs[t].body || x.body.Finished?) && Quiet(s.db, db', x.claim, s.clock)
    ensures Backed(s.(db := db', execs := s.execs[t := x]))
  {
    hide Inv, Backed, RowOk, RowsMove, JobsWrite, ExecBacked, RowBacked, ParentKnown, Quiet;
    LocallyOk(s, t);
    QuietWrites(s.db, db', s.chain, x.claim, s.clock);
    QuietLocally(s.db, db', s.chain, s.execs[t], x, s.clock);
    BackedAfterWrite(s, db', t, x);
  }

  lemma GoKeepsBacked(s: State, t: Token)
    requires Inv(s) && Backed(s) && Enabled(s, Go(t))
    ensures Backed(Apply(s, Go(t)))
  {
    hide Inv, ExecBacked, RowBacked, ParentKnown, GoDb, GoBody, JobsWrite, RowsMove, Backs, RowOk;
    var x := s.execs[t];
    ExecKnown(s, t);
    GoJobs(s.db, s.chain, x, s.clock);
    GoRows(s.db, s.chain, x, s.clock);
    GoBacks(s, t);
    BackedAfterWrite(s, GoDb(s.db, x, s.clock), t, GoExec(s.db, s.chain, x));
  }

  lemma SettleKeepsBacked(s: State, t: Token)
    requires Inv(s) && Backed(s) && Enabled(s, Settle(t))
    ensures Backed(Apply(s, Settle(t)))
  {
    hide Inv, Backed, SettleDb, JobsWrite, RowsMove, ExecBacked, RowBacked;
    var x := s.execs[t];
    LocallyOk(s, t);
    EndBacks(s.db, s.chain, x, s.clock);
    SettleJobs(s.db, x, s.clock);
    SettleRows(s.db, s.chain, x, s.clock);
    BackedAfterWrite(s, SettleDb(s.db, x, s.clock), t, x.(wrap := Settled));
  }

  /** An execution that throws promises nothing more. */
  lemma ThrowingBacks(s: State, db': Db, t: Token, y: Exec, x: Exec)
    requires Backs(s, db', t, y) && y.claim == x.claim && x.wrap != Held
    ensures Backs(s, db', t, x.(body := Finished(Threw)))
  {
  }

  lemma UnacknowledgedKeepsBacked(s: State, t: Token)
    requires Inv(s) && Backed(s) && Enabled(s, GoUnacknowledged(t))
    ensures Backed(Apply(s, GoUnacknowledged(t)))
  {
    hide Inv, Backed, GoDb, GoBody, JobsWrite, RowsMove, Backs;
    var x := s.execs[t];
    ExecKnown(s, t);
    if x.body == Broadcasting {
      assert GoDb(s.db, x, s.clock) == s.db by { BroadcastWritesNothing(s.db, x, s.clock); }
      QuietBacks(s, s.db, t, x.(body := Finished(Threw)));
    } else {
      GoJobs(s.db, s.chain, x, s.clock);
      GoRows(s.db, s.chain, x, s.clock);
      GoBacks(s, t);
      ThrowingBacks(s, GoDb(s.db, x, s.clock), t, GoExec(s.db, s.chain, x), x);
      BackedAfterWrite(s, GoDb(s.db, x, s.clock), t, x.(body := Finished(Threw)));
    }
  }

  lemma EnqueuedExec(s: State, n: NftId, kind: Kind, parent: Option<NftId>, t: Token)
    requires Inv(s) && Backed(s) && n !in s.db.nfts && t in s.execs
    ensures ExecBacked(s.db.Enqueue(n, kind, parent, s.clock), s.execs[t])
  {
    hide Inv;
    LocallyOk(s, t);
    ExecKnown(s, t);
  }

  lemma EnqueuedRow(s: State, n: NftId, kind: Kind, parent: Option<NftId>, m: NftId)
    requires Backed(s) && n !in s.db.nfts && (m == n || m in s.db.nfts)
    ensures RowBacked(s.db.Enqueue(n, kind, parent, s.clock), m)
  {
    hide ExecBacked;
    if m != n { assert RowBacked(s.db, m); }
  }

  lemma EnqueuedAttach(s: State, n: NftId, kind: Kind, parent: Option<NftId>, k: JobKey)
    requires Rows(s.db, s.chain) && Backed(s) && n !in s.db.nfts && k in s.db.Enqueue(n, kind, parent, s.clock).jobs
      && k.AttachKey?
    ensures ParentKnown(s.db.Enqueue(n, kind, parent, s.clock), k.nft)
  {
    hide ExecBacked, RowBacked;
    assert ParentKnown(s.db, k.nft) && RowOk(s.db, s.chain, k.nft);
  }

  lemma EnqueueKeepsBacked(s: State, n: NftId, kind: Kind, parent: Option<NftId>)
    requires Inv(s) && Backed(s) && n !in s.db.nfts
    ensures Backed(s.(db := s.db.Enqueue(n, kind, parent, s.clock)))
  {
    hide ExecBacked, RowBacked, ParentKnown, Rows;
    var db' := s.db.Enqueue(n, kind, parent, s.clock);
    forall t | t in s.execs ensures ExecBacked(db', s.execs[t]) { EnqueuedExec(s, n, kind, parent, t); }
    forall m | m in db'.nfts ensures RowBacked(db', m) { EnqueuedRow(s, n, kind, parent, m); }
    forall k | k in db'.jobs && k.AttachKey? ensures ParentKnown(db', k.nft) { EnqueuedAttach(s, n, kind, parent, k); }
  }

  lemma TakeClaimKeepsBacked(s: State, k: JobKey, t: Token)
    requires Inv(s) && Backed(s) && Enabled(s, TakeClaim(k, t))
    ensures Backed(Apply(s, TakeClaim(k, t)))
  {
    hide StaysMinted, HandedOver, Txs, Rows;
    var s' := Apply(s, TakeClaim(k, t));
    forall u | u in s'.execs ensures ExecBacked(s'.db, s'.execs[u]) {
      if u != t { assert ExecBacked(s.db, s.execs[u]) && s.execs[u].claim.token == u; }
    }
    forall m | m in s'.db.nfts ensures RowBacked(s'.db, m) { assert RowBacked(s.db, m); }
    forall i | i in s'.db.jobs && i.AttachKey? ensures ParentKnown(s'.db, i.nft) { assert ParentKnown(s.db, i.nft); }
  }

  /** Tables whose claims, kinds, parents and tokens stay, and in which a parent's row follows its job. */
  lemma RequeueKeepsBacked(s: State, db': Db)
    requires Inv(s) && Backed(s) && db'.jobs.Keys == s.db.jobs.Keys && db'.nfts.Keys == s.db.nfts.Keys
    requires forall n :: n in s.db.nfts ==>
      db'.nfts[n].kind == s.db.nfts[n].kind && db'.nfts[n].parent == s.db.nfts[n].parent
        && db'.nfts[n].tokenId == s.db.nfts[n].tokenId
    requires forall k :: k in s.db.jobs && db'.jobs[k].status == Processing ==> db'.jobs[k] == s.db.jobs[k]
    requires forall n :: n in s.db.nfts ==> RowBacked(db', n)
    ensures Backed(s.(db := db'))
  {
    hide Inv, RowBacked;
    forall t | t in s.execs ensures ExecBacked(db', s.execs[t]) { assert ExecBacked(s.db, s.execs[t]); }
    forall k | k in db'.jobs && k.AttachKey? ensures ParentKnown(db', k.nft) { assert ParentKnown(s.db, k.nft); }
  }

  lemma ReclaimedRow(db: Db, ks: set<JobKey>, now: nat, n: NftId)
    requires RowBacked(db, n) && forall k :: k in ks ==> db.Stale(k, now)
    ensures RowBacked(db.RequeueStale(ks, now), n)
  {
  }

  lemma ReclaimKeepsBacked(s: State, ks: set<JobKey>)
    requires Inv(s) && Backed(s) && Enabled(s, ReclaimStale(ks))
    ensures Backed(Apply(s, ReclaimStale(ks)))
  {
    hide Inv, RowBacked, ExecBacked, ParentKnown;
    forall n | n in s.db.nfts ensures RowBacked(s.db.RequeueStale(ks, s.clock), n) {
      ReclaimedRow(s.db, ks, s.clock, n);
    }
    RequeueKeepsBacked(s, s.db.RequeueStale(ks, s.clock));
  }

  lemma RestoredRow(db: Db, chain: set<NftId>, k: JobKey, now: nat, n: NftId)
    requires n in db.nfts && RowBacked(db, n) && RowOk(db, chain, n) && k in db.jobs
    requires k == AttachKey(n) ==> db.nfts[n].parent.Some?
    ensures RowBacked(db.OperatorRequeue(k, now), n)
  {
  }

  lemma OperatorRow(s: State, k: JobKey, n: NftId)
    requires Inv(s) && Backed(s) && k in s.db.jobs && n in s.db.nfts
    ensures RowBacked(s.db.OperatorRequeue(k, s.clock), n)
  {
    hide RowBacked, RowOk, ExecBacked, Execs, Claims;
    RestoredRow(s.db, s.chain, k, s.clock, n);
  }

  lemma OperatorKeepsBacked(s: State, k: JobKey)
    requires Inv(s) && Backed(s) && k in s.db.jobs
    ensures Backed(s.(db := s.db.OperatorRequeue(k, s.clock)))
  {
    hide Inv, RowBacked, ExecBacked, ParentKnown, Backed;
    forall n | n in s.db.nfts ensures RowBacked(s.db.OperatorRequeue(k, s.clock), n) { OperatorRow(s, k, n); }
    RequeueKeepsBacked(s, s.db.OperatorRequeue(k, s.clock));
  }

  lemma SameTables(s: State, s': State)
    requires Backed(s) && s'.db == s.db && s'.execs == s.execs
    ensures Backed(s')
  {
  }

  predicate Wraps(st: Step) {
    st.Hold? || st.Release? || st.Start? || st.NotConfigured? || st.Timeout? || st.GoThrow? || st.GoPause?
  }

  lemma WrapIsQuiet(s: State, st: Step)
    requires Enabled(s, st) && Wraps(st)
    ensures var s', x := Apply(s, st), s.execs[st.t];
      && st.t in s'.execs && s' == s.(db := s'.db, execs := s.execs[st.t := s'.execs[st.t]])
      && Quiet(s.db, s'.db, x.claim, s.clock) && s'.execs[st.t].claim == x.claim
      && (s'.execs[st.t].body == x.body || s'.execs[st.t].body.Finished?) && (st.Hold? || s'.execs[st.t].wrap != Held)
      && (st.Hold? ==> s'.execs == s.execs)
  {
    hide GoDb, GoBody, GoExec, SettleDb;
    if st.Hold? { assert s.execs[st.t := s.execs[st.t]] == s.execs; }
  }

  lemma WrapKeepsBacked(s: State, st: Step)
    requires Inv(s) && Backed(s) && Enabled(s, st) && Wraps(st)
    ensures Backed(Apply(s, st))
  {
    assert ExecBacked(s.db, s.execs[st.t]);
    WrapIsQuiet(s, st);
    hide Inv, Backed, Quiet, Apply, Enabled;
    QuietBacks(s, Apply(s, st).db, st.t, Apply(s, st).execs[st.t]);
  }

  lemma StepKeepsBacked(s: State, st: Step)
    requires Inv(s) && Backed(s) && Enabled(s, st)
    ensures Backed(Apply(s, st))
  {
    hide Inv, Backed, GoDb, GoBody, GoExec, SettleDb;
    match st
    case Tick(_) => SameTables(s, Apply(s, st));
    case Land(_) => SameTables(s, Apply(s, st));
    case EnqueueParent(n) => EnqueueKeepsBacked(s, n, NinjaParent, None);
    case EnqueueChild(n, p) => EnqueueKeepsBacked(s, n, CompletionChild, p);
    case TakeClaim(k, t) => TakeClaimKeepsBacked(s, k, t);
    case Go(t) => GoKeepsBacked(s, t);
    case GoUnacknowledged(t) => UnacknowledgedKeepsBacked(s, t);
    case Settle(t) => SettleKeepsBacked(s, t);
    case ReclaimStale(ks) => ReclaimKeepsBacked(s, ks);
    case Operator(k) => OperatorKeepsBacked(s, k);
    case _ => WrapKeepsBacked(s, st);
  }

  lemma {:induction false} RunKeepsBacked(s: State, steps: seq<Step>, s': State)
    requires Inv(s) && Backed(s) && Runs(s, steps, s')
    ensures Inv(s') && Backed(s')
    decreases |steps|
  {
    hide Inv, Backed, Enabled, Apply;
    if steps != [] {
      StepKeeps(s, steps[0]);
      StepKeepsBacked(s, steps[0]);
      RunKeepsBacked(Apply(s, steps[0]), steps[1..], s');
    }
  }

  // ----- After a risky requeue -----

  lemma {:induction false} CarefulOn(s0: State, steps: seq<Step>, s: State, st: Step)
    requires CarefulRun(s0, steps, s) && Enabled(s, st) && Careful(s, st)
    ensures CarefulRun(s0, steps + [st], Apply(s, st))
    decreases |steps|
  {
    hide Enabled, Apply, Careful;
    if steps == [] {
      assert [] + [st] == [st];
      assert CarefulRun(Apply(s, st), [], Apply(s, st));
    } else {
      CarefulOn(Apply(s0, steps[0]), steps[1..], s, st);
      assert (steps + [st])[1..] == steps[1..] + [st];
    }
  }

  /** Execution `u` is still minting `n`, which has its token already. */
  ghost predicate Remints(s: State, n: NftId, u: Token) {
    && TokenKnown(s.db, n) && n in s.chain && u in s.execs && s.execs[u].claim.key == MintKey(n)
      && s.db.Owned(s.execs[u].claim)
    && s.execs[u].body in {WillMark, WillProbe, WillRecover} && s.execs[u].wrap != Held
  }

  lemma RiskyRemints(s: State, k: JobKey) returns (u: Token)
    requires Inv(s) && Backed(s) && Risky(s, k)
    ensures k == AttachKey(k.nft) && Remints(s, k.nft, u)
  {
    hide StaysMinted, HandedOver, Txs, Execs;
    u :| u in s.execs && s.execs[u].claim.key == MintKey(k.nft) && MintsLive(s.db, s.execs[u]);
    assert RowOk(s.db, s.chain, k.nft) && ExecBacked(s.db, s.execs[u]) && MintsLive(s.db, s.execs[u]);
  }

  /** Its next status write takes the row out of ATTACHED. */
  lemma Detaches(s: State, n: NftId, u: Token) returns (steps: seq<Step>, s': State)
    requires Remints(s, n, u)
    ensures CarefulRun(s, steps, s') && n in s'.db.nfts && s'.db.nfts[n].status != Attached
  {
    assert CarefulRun(s, [], s);
    CarefulOn(s, [], s, Go(u));
    steps, s' := [] + [Go(u)], Apply(s, Go(u));
    if s.execs[u].body == WillProbe {
      CarefulOn(s, steps, s', Go(u));
      steps, s' := steps + [Go(u)], Apply(s', Go(u));
    }
  }

  /** The attach job of `n` can be claimed, and its parent has a token. */
  ghost predicate AttachDue(s: State, n: NftId, p: NftId) {
    && n in s.db.nfts && s.db.nfts[n].status == Minted && s.db.nfts[n].parent == Some(p) && p != n
    && TokenKnown(s.db, p) && s.db.Claimable(AttachKey(n), s.clock)
  }

  /** A parent whose mint job failed after the mint is restored by a requeue of that job, which is not risky. */
  lemma ParentReturns(s: State, n: NftId, p: NftId, u: Token) returns (steps: seq<Step>, s': State)
    requires Remints(s, n, u) && AttachDue(s, n, p) && RowBacked(s.db, p) && s.db.nfts[p].kind == NinjaParent
    ensures CarefulRun(s, steps, s') && Remints(s', n, u) && AttachDue(s', n, p) && s'.db.nfts[p].Ready()
  {
    assert CarefulRun(s, [], s);
    if s.db.nfts[p].status == Minted {
      steps, s' := [], s;
    } else {
      assert !Risky(s, MintKey(p));
      CarefulOn(s, [], s, Operator(MintKey(p)));
      steps, s' := [] + [Operator(MintKey(p))], Apply(s, Operator(MintKey(p)));
    }
  }

  /** The attach job runs to its update. */
  lemma Attaches(s0: State, steps: seq<Step>, s: State, n: NftId, p: NftId, u: Token, t: Token)
    returns (longer: seq<Step>, s': State)
    requires CarefulRun(s0, steps, s) && Remints(s, n, u) && AttachDue(s, n, p) && s.db.nfts[p].Ready() && t !in s.execs
    ensures CarefulRun(s0, longer, s') && Remints(s', n, u) && s'.db.nfts[n].status == Attached
  {
    hide CarefulRun;
    CarefulOn(s0, steps, s, TakeClaim(AttachKey(n), t));
    longer, s' := steps + [TakeClaim(AttachKey(n), t)], Apply(s, TakeClaim(AttachKey(n), t));
    CarefulOn(s0, longer, s', Start(t));
    longer, s' := longer + [Start(t)], Apply(s', Start(t));
    CarefulOn(s0, longer, s', Go(t));
    longer, s' := longer + [Go(t)], Apply(s', Go(t));
    CarefulOn(s0, longer, s', Go(t));
    longer, s' := longer + [Go(t)], Apply(s', Go(t));
  }

  lemma {:induction false} CarefulIsRun(s: State, steps: seq<Step>, s': State)
    requires CarefulRun(s, steps, s')
    ensures Runs(s, steps, s')
    decreases |steps|
  {
    if steps != [] { CarefulIsRun(Apply(s, steps[0]), steps[1..], s'); }
  }

  lemma InitBacked()
    ensures Inv(Init()) && Backed(Init())
  {
    InitInv();
  }

  /** The row is ATTACHED, or MINTED with its attach job due, while `u` is still minting it. */
  ghost predicate Revived(s: State, n: NftId, u: Token) {
    Remints(s, n, u) &&
    (s.db.nfts[n].status == Attached ||
     (s.db.nfts[n].parent.Some? && var p := s.db.nfts[n].parent.value;
      AttachDue(s, n, p) && RowBacked(s.db, p) && s.db.nfts[p].kind == NinjaParent))
  }

  lemma RequeueRevives(s: State, k: JobKey, u: Token)
    requires Inv(s) && Backed(s) && Risky(s, k) && k == AttachKey(k.nft) && Remints(s, k.nft, u)
    ensures Revived(s.(db := s.db.OperatorRequeue(k, s.clock)), k.nft, u)
  {
    hide Claims, StaysMinted, HandedOver, Txs, Execs, MintsLive, ExecBacked, RowBacked;
    var n, s' := k.nft, s.(db := s.db.OperatorRequeue(k, s.clock));
    assert RowOk(s.db, s.chain, n) && ParentKnown(s.db, n);
    assert Remints(s', n, u);
    if s.db.nfts[n].parent.Some? {
      var p := s.db.nfts[n].parent.value;
      OperatorRow(s, k, p);
      assert p != n && TokenKnown(s.db, p) && s.db.nfts[p].kind == NinjaParent by { assert RowOk(s.db, s.chain, p); }
    }
  }

  /** From every reachable state in which a risky requeue is possible, the row is afterwards ATTACHED and then no
      longer, in some continuation without any other risky requeue. */
  lemma ARiskyRequeueUndoesAttached(before: seq<Step>, s: State, k: JobKey)
    returns (mid: seq<Step>, s1: State, after: seq<Step>, s2: State)
    requires Runs(Init(), before, s) && Risky(s, k)
    ensures CarefulRun(Apply(s, Operator(k)), mid, s1) && k.nft in s1.db.nfts && s1.db.nfts[k.nft].status == Attached
    ensures CarefulRun(s1, after, s2) && k.nft in s2.db.nfts && s2.db.nfts[k.nft].status != Attached
  {
    var s0, n := Apply(s, Operator(k)), k.nft;
    assert s0 == s.(db := s.db.OperatorRequeue(k, s.clock));
    InitBacked();
    hide Inv, Backed, Apply, Enabled, Runs, Risky;
    RunKeepsBacked(Init(), before, s);
    var u := RiskyRemints(s, k);
    RequeueRevives(s, k, u);
    if s0.db.nfts[n].status == Attached {
      mid, s1 := [], s0;
    } else {
      var p := s0.db.nfts[n].parent.value;
      mid, s1 := ParentReturns(s0, n, p, u);
      var t := FreshNat(s1.execs.Keys);
      mid, s1 := Attaches(s0, mid, s1, n, p, u, t);
    }
    after, s2 := Detaches(s1, n, u);
  }

  /** From here on no row that is ever ATTACHED loses that status, unless a later requeue is risky. */
  ghost predicate StaysAttached(s: State) {
    forall mid, s1, after, s2 :: CarefulRun(s, mid, s1) && CarefulRun(s1, after, s2) ==> KeepsAttached(s1, s2)
  }

  /** The exact condition under which an operator's requeue keeps ATTACHED final. */
  lemma WhenARequeueIsSafe(before: seq<Step>, s: State, k: JobKey)
    requires CarefulRun(Init(), before, s) && k in s.db.jobs
    ensures StaysAttached(Apply(s, Operator(k))) <==> !Risky(s, k)
  {
    var s0 := Apply(s, Operator(k));
    InitInv();
    hide Inv, Final, Risky, CarefulRun;
    CarefulIsRun(Init(), before, s);
    if Risky(s, k) {
      var mid, s1, after, s2 := ARiskyRequeueUndoesAttached(before, s, k);
      assert !KeepsAttached(s1, s2);
    } else {
      CarefulRunKeeps(Init(), before, s);
      OperatorKeepsFinal(s, k);
      StepKeeps(s, Operator(k));
      forall mid, s1, after, s2 | CarefulRun(s0, mid, s1) && CarefulRun(s1, after, s2) ensures KeepsAttached(s1, s2) {
        CarefulRunKeeps(s0, mid, s1);
        CarefulRunKeeps(s1, after, s2);
      }
    }
  }
}
