/** ATTACHED is final in runs without risky requeues; NftRequeues shows that a risky one can undo it. */
module NftAttached {
  import opened Prelude
  import opened NftModel
  import opened NftSafety
  import opened NftTheorems

  /** execute() has decided to mint and has not yet recorded the mint. */
  predicate MintPhase(b: Body) {
    b in {WillMark, WillProbe, WillRecover, WillRecheck, WillBroadcast, Broadcasting, WillRecord}
  }

  predicate MintsLive(db: Db, x: Exec) { db.Owned(x.claim) && x.claim.key.MintKey? && MintPhase(x.body) }

  /** The attach job of `n` succeeded, or its live execution is about to say so. */
  ghost predicate AttachDone(jobs: map<JobKey, Job>, execs: map<Token, Exec>, n: NftId) {
    AttachKey(n) in jobs &&
    var j := jobs[AttachKey(n)];
    j.status == Succeeded ||
    (j.status == Processing && j.token.Some? && j.token.value in execs && execs[j.token.value].body == Finished(Done))
  }

  ghost predicate NoLateMint(db: Db, execs: map<Token, Exec>) {
    forall t :: t in execs && execs[t].claim.key.nft in db.nfts && MintsLive(db, execs[t]) ==>
      !db.nfts[execs[t].claim.key.nft].Ready()
  }

  ghost predicate DoneIsAttached(db: Db, execs: map<Token, Exec>) {
    forall n :: n in db.nfts && AttachDone(db.jobs, execs, n) ==> db.nfts[n].status == Attached
  }

  ghost predicate Final(s: State) { NoLateMint(s.db, s.execs) && DoneIsAttached(s.db, s.execs) }

  /** An operator's requeue of the FAILED job `k` that makes a minted row Ready under a live execution still minting
      it. */
  ghost predicate Risky(s: State, k: JobKey) {
    && k in s.db.jobs && s.db.jobs[k].status == Failed
    && k.nft in s.db.nfts && s.db.nfts[k.nft].status == Broken && s.db.nfts[k.nft].Restored().Ready()
    && exists t :: t in s.execs && s.execs[t].claim.key == MintKey(k.nft) && MintsLive(s.db, s.execs[t])
  }

  ghost predicate Careful(s: State, st: Step) { st.Operator? ==> !Risky(s, st.key) }

  ghost predicate CarefulRun(s: State, steps: seq<Step>, s': State)
    decreases |steps|
  {
    if steps == [] then s == s'
    else Enabled(s, steps[0]) && Careful(s, steps[0]) && CarefulRun(Apply(s, steps[0]), steps[1..], s')
  }

  /** What a claim's transaction must respect for ATTACHED to stay. */
  ghost predicate Respects(s: State, db': Db, t: Token, x: Exec) {
    var n := x.claim.key.nft;
    n in s.db.nfts && n in db'.nfts &&
    var v := s.db.nfts[n];
    var v' := db'.nfts[n];
    && (v.status == Attached ==> v'.status == Attached)
    && (x.claim.key.AttachKey? ==>
      v'.status in {v.status, Waiting, Minting, Broken} || (v'.status == Attached && s.db.CanAttach(n)))
    && (MintsLive(db', x) ==> !v'.Ready())
    && (x.claim.key.AttachKey? && AttachDone(db'.jobs, s.execs[t := x], n) && s.db.Owned(x.claim) ==>
      v'.status == Attached)
  }

  lemma OwnedBefore(s: State, db': Db, t: Token, u: Token)
    requires Claims(s.db.jobs, s.execs) && t in s.execs && u in s.execs && u != t
    requires JobsWrite(s.db, db', s.execs[t].claim) && db'.Owned(s.execs[u].claim)
    ensures s.db.Owned(s.execs[u].claim)
    ensures s.db.Owned(s.execs[t].claim) ==> s.execs[u].claim.key != s.execs[t].claim.key
  {
    assert ClaimOk(s.execs, s.execs[u].claim.key, s.db.jobs[s.execs[u].claim.key]);
  }

  lemma NoLateMintAfter(s: State, db': Db, t: Token, x: Exec)
    requires Claims(s.db.jobs, s.execs) && Rows(s.db, s.chain) && NoLateMint(s.db, s.execs)
    requires t in s.execs && x.claim == s.execs[t].claim
    requires JobsWrite(s.db, db', x.claim) && OnlyRow(s.db, db', x.claim.key.nft) && Respects(s, db', t, x)
    ensures NoLateMint(db', s.execs[t := x])
  {
    hide ClaimOk, Claims, JobOk, OwnJobWrite;
    var execs' := s.execs[t := x];
    forall u | u in execs' && execs'[u].claim.key.nft in db'.nfts && MintsLive(db', execs'[u])
      ensures !db'.nfts[execs'[u].claim.key.nft].Ready()
    {
      if u != t {
        OwnedBefore(s, db', t, u);
        assert !s.db.nfts[s.execs[u].claim.key.nft].Ready();
        if s.execs[u].claim.key.nft == x.claim.key.nft { assert RowOk(s.db, s.chain, x.claim.key.nft); }
      }
    }
  }

  lemma AttachDoneBefore(s: State, db': Db, t: Token, x: Exec, n: NftId)
    requires Claims(s.db.jobs, s.execs) && t in s.execs && JobsWrite(s.db, db', s.execs[t].claim)
    requires AttachDone(db'.jobs, s.execs[t := x], n)
    requires AttachKey(n) != s.execs[t].claim.key || !s.db.Owned(s.execs[t].claim)
    ensures AttachDone(s.db.jobs, s.execs, n)
  {
    if AttachKey(n) in s.db.jobs { assert ClaimOk(s.execs, AttachKey(n), s.db.jobs[AttachKey(n)]); }
  }

  lemma DoneIsAttachedAfter(s: State, db': Db, t: Token, x: Exec)
    requires Claims(s.db.jobs, s.execs) && DoneIsAttached(s.db, s.execs)
    requires t in s.execs && x.claim == s.execs[t].claim
    requires JobsWrite(s.db, db', x.claim) && OnlyRow(s.db, db', x.claim.key.nft) && Respects(s, db', t, x)
    ensures DoneIsAttached(db', s.execs[t := x])
  {
    hide ClaimOk, Claims, JobsWrite;
    forall n | n in db'.nfts && AttachDone(db'.jobs, s.execs[t := x], n) ensures db'.nfts[n].status == Attached {
      if AttachKey(n) != x.claim.key || !s.db.Owned(x.claim) { AttachDoneBefore(s, db', t, x, n); }
    }
  }

  lemma FinalAfterWrite(s: State, db': Db, t: Token, x: Exec)
    requires Inv(s) && Final(s) && t in s.execs && x.claim == s.execs[t].claim
    requires JobsWrite(s.db, db', x.claim) && OnlyRow(s.db, db', x.claim.key.nft) && Respects(s, db', t, x)
    ensures Final(s.(db := db', execs := s.execs[t := x]))
    ensures forall n :: n in s.db.nfts && s.db.nfts[n].status == Attached ==> db'.nfts[n].status == Attached
  {
    NoLateMintAfter(s, db', t, x);
    DoneIsAttachedAfter(s, db', t, x);
  }

  lemma MintGoRespects(s: State, t: Token)
    requires Inv(s) && Final(s) && Enabled(s, Go(t)) && s.execs[t].claim.key.MintKey?
    ensures Respects(s, GoDb(s.db, s.execs[t], s.clock), t, GoExec(s.db, s.chain, s.execs[t]))
  {
    hide Claims, Rows, StaysMinted, HandedOver, Txs, DoneIsAttached, AttachDone;
    assert ExecOk(s.db, s.chain, s.execs[t]);
  }

  lemma AttachGoRespects(s: State, t: Token)
    requires Inv(s) && Final(s) && Enabled(s, Go(t)) && s.execs[t].claim.key.AttachKey?
    ensures Respects(s, GoDb(s.db, s.execs[t], s.clock), t, GoExec(s.db, s.chain, s.execs[t]))
  {
    hide Rows, StaysMinted, HandedOver, Txs, NoLateMint, ClaimOk;
    var x := s.execs[t];
    assert ExecOk(s.db, s.chain, x) && x.claim.token == t;
    assert x.body == WillRead || x.body == WillAttach;
  }

  lemma TimedOutRespects(s: State, t: Token)
    requires Inv(s) && Final(s) && Enabled(s, Settle(t)) && s.execs[t].wrap == TimedOut
    ensures Respects(s, SettleDb(s.db, s.execs[t], s.clock), t, s.execs[t].(wrap := Settled))
  {
    hide Claims, Rows, StaysMinted, HandedOver, Txs;
    assert ExecOk(s.db, s.chain, s.execs[t]);
  }

  lemma ResultRespects(s: State, t: Token)
    requires Inv(s) && Final(s) && Enabled(s, Settle(t)) && s.execs[t].wrap == Racing
    ensures Respects(s, SettleDb(s.db, s.execs[t], s.clock), t, s.execs[t].(wrap := Settled))
  {
    hide ClaimOk, Rows, StaysMinted, HandedOver, Txs, NoLateMint;
    assert ExecOk(s.db, s.chain, s.execs[t]);
    assert s.execs[t].claim.token == t;
  }

  lemma QuietRespects(s: State, db': Db, t: Token, x: Exec)
    requires Inv(s) && Final(s) && t in s.execs && x.claim == s.execs[t].claim
    requires x.body == s.execs[t].body || (x.body.Finished? && x.body.outcome != Done)
    requires db' == s.db || db' == s.db.Restamp(x.claim, s.clock) || exists at :: db' == s.db.GiveBack(x.claim, at)
    ensures Respects(s, db', t, x)
  {
    hide Rows, StaysMinted, HandedOver, Txs, ClaimOk;
    assert ExecOk(s.db, s.chain, s.execs[t]) && x.claim.token == t;
  }

  ghost predicate KeepsAttached(s: State, s': State) {
    forall n :: n in s.db.nfts && s.db.nfts[n].status == Attached ==>
      n in s'.db.nfts && s'.db.nfts[n].status == Attached
  }

  lemma QuietKeeps(s: State, db': Db, t: Token, x: Exec)
    requires Inv(s) && Final(s) && t in s.execs && x.claim == s.execs[t].claim
    requires x.body == s.execs[t].body || (x.body.Finished? && x.body.outcome != Done)
    requires db' == s.db || db' == s.db.Restamp(x.claim, s.clock) || exists at :: db' == s.db.GiveBack(x.claim, at)
    ensures Final(s.(db := db', execs := s.execs[t := x])) && KeepsAttached(s, s.(db := db', execs := s.execs[t := x]))
  {
    hide Inv, Final;
    assert Respects(s, db', t, x) by { QuietRespects(s, db', t, x); }
    assert JobsWrite(s.db, db', x.claim);
    FinalAfterWrite(s, db', t, x);
  }

  lemma GoKeepsFinal(s: State, t: Token)
    requires Inv(s) && Final(s) && Enabled(s, Go(t))
    ensures Final(Apply(s, Go(t))) && KeepsAttached(s, Apply(s, Go(t)))
  {
    hide Claims, Rows, Execs, StaysMinted, HandedOver, Txs, NoLateMint, DoneIsAttached, GoDb, GoBody, JobsWrite,
      RowMove, Respects;
    var x := s.execs[t];
    assert ExecOk(s.db, s.chain, x) && x.claim.key in s.db.jobs by { ExecKnown(s, t); }
    GoJobs(s.db, s.chain, x, s.clock);
    GoRows(s.db, s.chain, x, s.clock);
    if x.claim.key.MintKey? { MintGoRespects(s, t); } else { AttachGoRespects(s, t); }
    FinalAfterWrite(s, GoDb(s.db, x, s.clock), t, GoExec(s.db, s.chain, x));
  }

  lemma ExecKnown(s: State, t: Token)
    requires Inv(s) && t in s.execs
    ensures ExecOk(s.db, s.chain, s.execs[t]) && s.execs[t].claim.key in s.db.jobs && s.execs[t].claim.token == t
  {
  }

  lemma SettleKeepsFinal(s: State, t: Token)
    requires Inv(s) && Final(s) && Enabled(s, Settle(t))
    ensures Final(Apply(s, Settle(t))) && KeepsAttached(s, Apply(s, Settle(t)))
  {
    hide Inv, Final, SettleDb, JobsWrite, RowMove, Respects;
    var x := s.execs[t];
    if x.wrap == TimedOut { TimedOutRespects(s, t); } else { ResultRespects(s, t); }
    SettleJobs(s.db, x, s.clock);
    SettleRows(s.db, s.chain, x, s.clock);
    FinalAfterWrite(s, SettleDb(s.db, x, s.clock), t, x.(wrap := Settled));
  }

  lemma UnacknowledgedKeepsFinal(s: State, t: Token)
    requires Inv(s) && Final(s) && Enabled(s, GoUnacknowledged(t))
    ensures Final(Apply(s, GoUnacknowledged(t))) && KeepsAttached(s, Apply(s, GoUnacknowledged(t)))
  {
    hide Inv, Final, GoDb, JobsWrite, RowMove;
    var x := s.execs[t];
    var db' := GoDb(s.db, x, s.clock);
    ExecKnown(s, t);
    assert x.body == Broadcasting || Enabled(s, Go(t));
    if x.body == Broadcasting {
      assert db' == s.db by { BroadcastWritesNothing(s.db, x, s.clock); }
      QuietKeeps(s, s.db, t, x.(body := Finished(Threw)));
    } else {
      GoJobs(s.db, s.chain, x, s.clock);
      GoRows(s.db, s.chain, x, s.clock);
      if x.claim.key.MintKey? { MintGoRespects(s, t); } else { AttachGoRespects(s, t); }
      GoJobSame(s.db, x, s.clock);
      assert Respects(s, db', t, x.(body := Finished(Threw)));
      FinalAfterWrite(s, db', t, x.(body := Finished(Threw)));
    }
  }

  lemma BroadcastWritesNothing(db: Db, x: Exec, now: nat)
    requires x.body == Broadcasting
    ensures GoDb(db, x, now) == db
  {
  }

  /** Rows become Ready by a requeue only where no live execution is still minting. */
  lemma RequeueKeepsFinal(s: State, db': Db)
    requires Claims(s.db.jobs, s.execs) && Final(s) && Requeues(s.db, db') && db'.nfts.Keys == s.db.nfts.Keys
    requires forall n :: n in s.db.nfts && s.db.nfts[n].status == Attached ==> db'.nfts[n].status == Attached
    requires forall t :: t in s.execs && MintsLive(s.db, s.execs[t]) && s.execs[t].claim.key.nft in s.db.nfts ==>
      !db'.nfts[s.execs[t].claim.key.nft].Ready()
    ensures Final(s.(db := db'))
  {
    assert forall t :: t in s.execs && MintsLive(db', s.execs[t]) ==> MintsLive(s.db, s.execs[t]);
    assert forall n :: AttachDone(db'.jobs, s.execs, n) ==> AttachDone(s.db.jobs, s.execs, n);
  }

  lemma ProcessingBelowMax(s: State, k: JobKey)
    requires Inv(s) && k in s.db.jobs && s.db.jobs[k].status == Processing
    ensures s.db.jobs[k].retries < MAX_RETRY
  {
    assert ClaimOk(s.execs, k, s.db.jobs[k]);
  }

  lemma ReclaimKeepsFinal(s: State, ks: set<JobKey>)
    requires Inv(s) && Final(s) && Enabled(s, ReclaimStale(ks))
    ensures Final(Apply(s, ReclaimStale(ks))) && KeepsAttached(s, Apply(s, ReclaimStale(ks)))
  {
    hide ClaimOk, Rows, Execs, StaysMinted, HandedOver, Txs, DoneIsAttached;
    forall k | k in ks ensures s.db.jobs[k].retries < MAX_RETRY { ProcessingBelowMax(s, k); }
    RequeueKeepsFinal(s, s.db.RequeueStale(ks, s.clock));
  }

  lemma NobodyMintsTheRequeued(s: State, k: JobKey, t: Token)
    requires Final(s) && k in s.db.jobs && s.db.jobs[k].status == Failed && !Risky(s, k)
    requires t in s.execs && MintsLive(s.db, s.execs[t]) && s.execs[t].claim.key.nft in s.db.nfts
    ensures !s.db.OperatorRequeue(k, s.clock).nfts[s.execs[t].claim.key.nft].Ready()
  {
    assert !s.db.nfts[s.execs[t].claim.key.nft].Ready();
    if s.execs[t].claim.key.nft == k.nft { assert s.execs[t].claim.key == MintKey(k.nft); }
  }

  lemma OperatorKeepsFinal(s: State, k: JobKey)
    requires Inv(s) && Final(s) && Enabled(s, Operator(k)) && !Risky(s, k)
    ensures Final(Apply(s, Operator(k))) && KeepsAttached(s, Apply(s, Operator(k)))
  {
    hide Rows, Execs, StaysMinted, HandedOver, Txs, Final, MintsLive, Risky;
    assert ClaimOk(s.execs, k, s.db.jobs[k]);
    if s.db.jobs[k].status == Failed {
      forall t | t in s.execs && MintsLive(s.db, s.execs[t]) && s.execs[t].claim.key.nft in s.db.nfts
        ensures !s.db.OperatorRequeue(k, s.clock).nfts[s.execs[t].claim.key.nft].Ready()
      {
        NobodyMintsTheRequeued(s, k, t);
      }
      RequeueKeepsFinal(s, s.db.OperatorRequeue(k, s.clock));
    }
  }

  lemma EnqueueKeepsFinal(s: State, n: NftId, kind: Kind, parent: Option<NftId>)
    requires Inv(s) && Final(s) && n !in s.db.nfts
    ensures Final(s.(db := s.db.Enqueue(n, kind, parent, s.clock)))
    ensures KeepsAttached(s, s.(db := s.db.Enqueue(n, kind, parent, s.clock)))
  {
    hide RowOk, ClaimOk, StaysMinted, HandedOver, Txs;
    assert MintKey(n) !in s.db.jobs && AttachKey(n) !in s.db.jobs;
    assert forall t :: t in s.execs ==> ExecOk(s.db, s.chain, s.execs[t]);
  }

  lemma TakeClaimKeepsFinal(s: State, k: JobKey, t: Token)
    requires Inv(s) && Final(s) && Enabled(s, TakeClaim(k, t))
    ensures Final(Apply(s, TakeClaim(k, t))) && KeepsAttached(s, Apply(s, TakeClaim(k, t)))
  {
    hide Rows, Execs, StaysMinted, HandedOver, Txs;
    var s' := Apply(s, TakeClaim(k, t));
    forall i | i in s.db.jobs ensures s.db.jobs[i].token != Some(t) { assert ClaimOk(s.execs, i, s.db.jobs[i]); }
    assert forall u :: u in s'.execs && MintsLive(s'.db, s'.execs[u]) ==> u in s.execs && MintsLive(s.db, s.execs[u]);
    assert forall n :: AttachDone(s'.db.jobs, s'.execs, n) ==> AttachDone(s.db.jobs, s.execs, n);
  }

  lemma StepKeepsFinal(s: State, st: Step)
    requires Inv(s) && Final(s) && Enabled(s, st) && Careful(s, st)
    ensures Final(Apply(s, st)) && KeepsAttached(s, Apply(s, st))
  {
    hide Inv, Final, KeepsAttached;
    match st
    case Tick(d) => SameRows(s, Apply(s, st));
    case Land(t) => SameRows(s, Apply(s, st));
    case EnqueueParent(n) => EnqueueKeepsFinal(s, n, NinjaParent, None);
    case EnqueueChild(n, p) => EnqueueKeepsFinal(s, n, CompletionChild, p);
    case TakeClaim(k, t) => TakeClaimKeepsFinal(s, k, t);
    case Go(t) => GoKeepsFinal(s, t);
    case GoUnacknowledged(t) => UnacknowledgedKeepsFinal(s, t);
    case Settle(t) => SettleKeepsFinal(s, t);
    case ReclaimStale(ks) => ReclaimKeepsFinal(s, ks);
    case Operator(k) => OperatorKeepsFinal(s, k);
    case Hold(t) => QuietKeeps(s, s.db.Restamp(s.execs[t].claim, s.clock), t, s.execs[t]);
      assert s.execs[t := s.execs[t]] == s.execs;
    case Release(t) => QuietKeeps(s, s.db.GiveBack(s.execs[t].claim, None), t, Apply(s, st).execs[t]);
    case Start(t) => QuietKeeps(s, s.db.Restamp(s.execs[t].claim, s.clock), t, Apply(s, st).execs[t]);
    case NotConfigured(t) => QuietKeeps(s, s.db.GiveBack(s.execs[t].claim, Some(s.clock + POSTPONE_DELAY)), t,
      Apply(s, st).execs[t]);
    case Timeout(t) => QuietKeeps(s, s.db, t, Apply(s, st).execs[t]);
    case GoThrow(t) => QuietKeeps(s, s.db, t, Apply(s, st).execs[t]);
    case GoPause(t) => QuietKeeps(s, s.db, t, Apply(s, st).execs[t]);
  }

  lemma SameRows(s: State, s': State)
    requires Final(s) && s'.db == s.db && s'.execs == s.execs
    ensures Final(s') && KeepsAttached(s, s')
  {
  }

  lemma {:induction false} CarefulRunKeeps(s: State, steps: seq<Step>, s': State)
    requires Inv(s) && Final(s) && CarefulRun(s, steps, s')
    ensures Inv(s') && Final(s') && KeepsAttached(s, s')
    decreases |steps|
  {
    if steps != [] {
      StepKeeps(s, steps[0]);
      StepKeepsFinal(s, steps[0]);
      CarefulRunKeeps(Apply(s, steps[0]), steps[1..], s');
    }
  }

  /** Without risky requeues ATTACHED is absorbing, and a succeeded attach job has attached its child. */
  lemma AttachedIsAbsorbing(before: seq<Step>, s: State, after: seq<Step>, s': State, n: NftId)
    requires CarefulRun(Init(), before, s) && CarefulRun(s, after, s')
    requires n in s.db.nfts
    ensures s.db.nfts[n].status == Attached ==> n in s'.db.nfts && s'.db.nfts[n].status == Attached
    ensures AttachKey(n) in s.db.jobs && s.db.jobs[AttachKey(n)].status == Succeeded ==> s.db.nfts[n].status == Attached
  {
    InitInv();
    CarefulRunKeeps(Init(), before, s);
    CarefulRunKeeps(s, after, s');
  }

  /** Requeues are not risky while the NFT's mint job is not PROCESSING. */
  lemma IdleMintIsNotRisky(s: State, k: JobKey)
    requires MintKey(k.nft) in s.db.jobs ==> s.db.jobs[MintKey(k.nft)].status != Processing
    ensures !Risky(s, k)
  {
  }

  /** A status write of the live mint claim of `n`. */
  predicate WritesMintStatus(s: State, st: Step, n: NftId) {
    (st.Go? || st.GoUnacknowledged?) && st.t in s.execs && s.execs[st.t].claim.key == MintKey(n)
    && s.db.Owned(s.execs[st.t].claim) && s.execs[st.t].body in {WillMark, WillRecover, WillRecord}
  }

  lemma DetachingGo(db: Db, chain: set<NftId>, x: Exec, now: nat, n: NftId)
    requires ExecOk(db, chain, x) && n in db.nfts && db.nfts[n].status == Attached
    ensures n in GoDb(db, x, now).nfts
    ensures GoDb(db, x, now).nfts[n].status != Attached <==>
      x.claim.key == MintKey(n) && db.Owned(x.claim) && x.body in {WillMark, WillRecover, WillRecord}
  {
  }

  lemma SettleNeverDetaches(db: Db, x: Exec, now: nat, n: NftId)
    requires n in db.nfts && db.nfts[n].status == Attached
    ensures n in SettleDb(db, x, now).nfts && SettleDb(db, x, now).nfts[n].status == Attached
  {
  }

  /** In any reachable state, the only step that takes a row out of ATTACHED is a status write of the live mint
      claim. */
  lemma OnlyALateMintDetaches(steps: seq<Step>, s: State, st: Step, n: NftId)
    requires Runs(Init(), steps, s) && Enabled(s, st)
    requires n in s.db.nfts && s.db.nfts[n].status == Attached
    ensures n in Apply(s, st).db.nfts
    ensures Apply(s, st).db.nfts[n].status != Attached <==> WritesMintStatus(s, st, n)
  {
    hide Inv, GoDb, SettleDb, GoBody, ExecOk;
    Reached(steps, s);
    match st
    case Go(t) => ExecKnown(s, t); DetachingGo(s.db, s.chain, s.execs[t], s.clock, n);
    case GoUnacknowledged(t) => ExecKnown(s, t); DetachingGo(s.db, s.chain, s.execs[t], s.clock, n);
    case Settle(t) => SettleNeverDetaches(s.db, s.execs[t], s.clock, n);
    case _ =>
  }
}
