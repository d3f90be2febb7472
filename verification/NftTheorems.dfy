/** The promises of the NFT queue, over every run from the empty database. */
module NftTheorems {
  import opened Prelude
  import opened NftModel
  import opened NftSafety

  lemma Reached(steps: seq<Step>, s: State)
    requires Runs(Init(), steps, s)
    ensures Inv(s)
  {
    InitInv();
    RunKeeps(Init(), steps, s);
  }

  /** Whichever mint finished first, a child whose mint job and whose parent's mint job succeeded has its attach job. */
  lemma NoLostAttach(steps: seq<Step>, s: State, child: NftId, parent: NftId)
    requires Runs(Init(), steps, s)
    requires child in s.db.nfts && s.db.nfts[child].parent == Some(parent)
    requires MintKey(child) in s.db.jobs && s.db.jobs[MintKey(child)].status == Succeeded
    requires MintKey(parent) in s.db.jobs && s.db.jobs[MintKey(parent)].status == Succeeded
    ensures AttachKey(child) in s.db.jobs
  {
    Reached(steps, s);
  }

  /** The database never runs ahead of the chain. */
  lemma ChainFirst(steps: seq<Step>, s: State, n: NftId)
    requires Runs(Init(), steps, s) && n in s.db.nfts
    ensures var v := s.db.nfts[n];
      && (v.tokenId.Some? ==> v.tokenId == Some(n) && n in s.chain)
      && (v.status in {Minted, Attaching, Attached} ==> v.tokenId.Some?)
      && (v.status == Attached ==> v.parent.Some? && v.parent.value in s.chain)
  {
    Reached(steps, s);
    assert RowOk(s.db, s.chain, n);
  }

  /** No token is minted twice: at most one broadcast of an NFT ever lands. */
  lemma MintedOnce(steps: seq<Step>, s: State, t: Token, u: Token)
    requires Runs(Init(), steps, s)
    requires t in s.txs && u in s.txs && s.txs[t] == Landed && s.txs[u] == Landed
    requires t in s.execs && u in s.execs && s.execs[t].claim.key.nft == s.execs[u].claim.key.nft
    ensures t == u
  {
    Reached(steps, s);
  }

  /** A job is PROCESSING iff it has a claim token, and then exactly the execution of that token owns it,
      with the stored retry count as its own copy. */
  lemma ClaimOwnership(steps: seq<Step>, s: State, k: JobKey)
    requires Runs(Init(), steps, s) && k in s.db.jobs
    ensures s.db.jobs[k].status == Processing <==> s.db.jobs[k].token.Some?
    ensures s.db.jobs[k].status == Processing ==>
      exists t :: t in s.execs && s.execs[t].claim == Claim(k, t, s.db.jobs[k].retries) && s.db.Owned(s.execs[t].claim)
        && forall u :: u in s.execs && u != t && s.execs[u].claim.key == k ==> !s.db.Owned(s.execs[u].claim)
  {
    Reached(steps, s);
    assert ClaimOk(s.execs, k, s.db.jobs[k]);
  }

  function StepToken(st: Step): Option<Token> {
    match st
    case Hold(t) => Some(t)
    case Release(t) => Some(t)
    case Start(t) => Some(t)
    case NotConfigured(t) => Some(t)
    case Timeout(t) => Some(t)
    case Settle(t) => Some(t)
    case Go(t) => Some(t)
    case GoThrow(t) => Some(t)
    case GoUnacknowledged(t) => Some(t)
    case GoPause(t) => Some(t)
    case Land(t) => Some(t)
    case _ => None
  }

  /** An execution whose token was superseded writes no job row and no NFT row, in any state whatever. */
  lemma SupersededWritesNothing(s: State, st: Step, t: Token)
    requires Enabled(s, st) && StepToken(st) == Some(t) && t in s.execs
    requires !s.db.Owned(s.execs[t].claim)
    ensures Apply(s, st).db == s.db
  {
    if st.Settle? { SettleJobs(s.db, s.execs[t], s.clock); }
  }

  // ----- Failures are counted -----

  /** The step records a failure of job `k`: its live claimant settles after a timeout or an error. */
  ghost predicate RecordsFailure(s: State, st: Step, k: JobKey)
    requires Enabled(s, st)
  {
    st.Settle? && s.execs[st.t].claim.key == k && s.db.Owned(s.execs[st.t].claim)
    && (s.execs[st.t].wrap == TimedOut || s.execs[st.t].body == Finished(Threw))
  }

  ghost predicate OperatorRevives(s: State, st: Step, k: JobKey) {
    st == Operator(k) && k in s.db.jobs && s.db.jobs[k].status == Failed
  }

  /** Failures of `k` recorded along the run, on top of `before`, since the last operator requeue. */
  ghost function FailuresSince(s: State, steps: seq<Step>, s': State, k: JobKey, before: nat): nat
    requires Runs(s, steps, s')
    decreases |steps|
  {
    if steps == [] then before
    else
      var now := if RecordsFailure(s, steps[0], k) then before + 1 else if OperatorRevives(s, steps[0], k) then 0
        else before;
      FailuresSince(Apply(s, steps[0]), steps[1..], s', k, now)
  }

  ghost function RetriesOf(db: Db, k: JobKey): nat { if k in db.jobs then db.jobs[k].retries else 0 }

  lemma GoCountsNothing(db: Db, x: Exec, now: nat, k: JobKey)
    ensures RetriesOf(GoDb(db, x, now), k) == RetriesOf(db, k)
  {
  }

  lemma SettleCounts(db: Db, x: Exec, now: nat, k: JobKey)
    ensures RetriesOf(SettleDb(db, x, now), k) ==
      RetriesOf(db, k) + if x.claim.key == k && db.Owned(x.claim) && (x.wrap == TimedOut || x.body == Finished(Threw))
        then 1 else 0
  {
  }

  lemma StepCounts(s: State, st: Step, k: JobKey)
    requires Inv(s) && Enabled(s, st)
    ensures RetriesOf(Apply(s, st).db, k) ==
      if RecordsFailure(s, st, k) then RetriesOf(s.db, k) + 1 else if OperatorRevives(s, st, k) then 0
      else RetriesOf(s.db, k)
  {
    hide Inv, SettleDb, GoDb;
    match st
    case Go(t) => GoCountsNothing(s.db, s.execs[t], s.clock, k);
    case GoUnacknowledged(t) => GoCountsNothing(s.db, s.execs[t], s.clock, k);
    case Settle(t) => SettleCounts(s.db, s.execs[t], s.clock, k);
    case _ =>
  }

  lemma {:induction false} RunCounts(s: State, steps: seq<Step>, s': State, k: JobKey)
    requires Inv(s) && Runs(s, steps, s')
    ensures RetriesOf(s'.db, k) == FailuresSince(s, steps, s', k, RetriesOf(s.db, k))
    decreases |steps|
  {
    if steps != [] {
      StepKeeps(s, steps[0]);
      StepCounts(s, steps[0], k);
      RunCounts(Apply(s, steps[0]), steps[1..], s', k);
    }
  }

  /** A job is FAILED exactly when the run recorded five failures of it since its last requeue, and never more. */
  lemma FailedAtTheFifth(steps: seq<Step>, s: State, k: JobKey)
    requires Runs(Init(), steps, s) && k in s.db.jobs
    ensures FailuresSince(Init(), steps, s, k, 0) <= MAX_RETRY
    ensures s.db.jobs[k].status == Failed <==> FailuresSince(Init(), steps, s, k, 0) == MAX_RETRY
  {
    Reached(steps, s);
    InitInv();
    RunCounts(Init(), steps, s, k);
    assert ClaimOk(s.execs, k, s.db.jobs[k]);
  }
}
