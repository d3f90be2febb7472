/** Two runs: one in which a child is minted and attached, and one in which an operator's requeue lets a late mint
    execution undo ATTACHED. */
module NftCounterexample {
  import opened Prelude
  import opened NftModel

  /** What the run so far established about NFT `n` and its jobs; everything else is free. */
  ghost predicate CanBegin(s: State, k: JobKey, retries: nat, next: nat) {
    && k in s.db.jobs && s.db.Claimable(k, s.clock) && s.db.jobs[k].retries == retries && k.nft in s.db.nfts
    && (forall t :: t in s.execs ==> t < next) && (forall t :: t in s.txs ==> t < next)
  }

  /** Claim and start: execution `t` owns job `k` and is about to read the NFT row. */
  lemma Begins(s0: State, steps: seq<Step>, s: State, k: JobKey, t: Token) returns (longer: seq<Step>, s': State)
    requires Runs(s0, steps, s) && CanBegin(s, k, if k in s.db.jobs then s.db.jobs[k].retries else 0, t)
    ensures Runs(s0, longer, s')
    ensures s' == s.(db := s.db.ClaimJob(k, t, s.clock),
                     execs := s.execs[t := Exec(Claim(k, t, s.db.jobs[k].retries), None, WillRead, Racing)])
  {
    hide Runs;
    var a, b;
    a, b := Extend(s0, steps, s, TakeClaim(k, t));
    longer, s' := Extend(s0, a, b, Start(t));
  }

  ghost predicate Running(s: State, t: Token, b: Body) {
    t in s.execs && s.execs[t].body == b && s.execs[t].wrap == Racing && s.execs[t].claim.key.MintKey?
    && s.db.Owned(s.execs[t].claim) && s.execs[t].claim.key.nft in s.db.nfts
  }

  /** Mark MINTING, and find no token on the chain. */
  lemma Probes(s0: State, steps: seq<Step>, s: State, t: Token) returns (longer: seq<Step>, s': State)
    requires Runs(s0, steps, s) && Running(s, t, WillMark) && s.execs[t].claim.key.nft !in s.chain
    ensures Runs(s0, longer, s') && Running(s', t, WillRecheck)
    ensures var n := s.execs[t].claim.key.nft;
      s' == s.(db := Db(s.db.jobs, s.db.nfts[n := s.db.nfts[n].(status := Minting)]),
        execs := s.execs[t := s.execs[t].(body := WillRecheck)])
  {
    hide Runs;
    var xs, a := Extend(s0, steps, s, Go(t));
    longer, s' := Extend(s0, xs, a, Go(t));
  }

  /** Recheck the claim and broadcast. */
  lemma Broadcasts(s0: State, steps: seq<Step>, s: State, t: Token) returns (longer: seq<Step>, s': State)
    requires Runs(s0, steps, s) && Running(s, t, WillRecheck)
    ensures Runs(s0, longer, s') && Running(s', t, Broadcasting)
    ensures s' == s.(execs := s.execs[t := s.execs[t].(body := Broadcasting)], txs := s.txs[t := InFlight])
  {
    hide Runs;
    var xs, a := Extend(s0, steps, s, Go(t));
    longer, s' := Extend(s0, xs, a, Go(t));
  }

  /** The mint lands and is recorded. */
  lemma Lands(s0: State, steps: seq<Step>, s: State, t: Token) returns (longer: seq<Step>, s': State)
    requires Runs(s0, steps, s) && Running(s, t, Broadcasting) && t in s.txs && s.txs[t] == InFlight
    requires s.execs[t].claim.key.nft !in s.chain
    ensures Runs(s0, longer, s') && Running(s', t, AfterMint)
    ensures var n := s.execs[t].claim.key.nft;
      s' == s.(db := Db(s.db.jobs, s.db.nfts[n := s.db.nfts[n].(status := Minted, tokenId := Some(n))]),
               execs := s.execs[t := s.execs[t].(body := AfterMint)], chain := s.chain + {n}, txs := s.txs[t := Landed])
  {
    hide Runs;
    var xs, a := Extend(s0, steps, s, Land(t));
    xs, a := Extend(s0, xs, a, Go(t));
    longer, s' := Extend(s0, xs, a, Go(t));
  }

  /** A whole first mint of `n` by execution `t`, up to what follows it. */
  lemma Mints(s0: State, steps: seq<Step>, s: State, n: NftId, t: Token) returns (longer: seq<Step>, s': State)
    requires Runs(s0, steps, s) && CanBegin(s, MintKey(n), 0, t)
    requires n !in s.chain && s.db.nfts[n].status == Waiting
    ensures Runs(s0, longer, s') && Running(s', t, AfterMint)
    ensures s'.db.jobs == s.db.ClaimJob(MintKey(n), t, s.clock).jobs
    ensures s'.db.nfts == s.db.nfts[n := s.db.nfts[n].(status := Minted, tokenId := Some(n))]
    ensures s'.execs == s.execs[t := Exec(Claim(MintKey(n), t, 0), Some(s.db.nfts[n]), AfterMint, Racing)]
    ensures s'.chain == s.chain + {n} && s'.clock == s.clock && s'.txs == s.txs[t := Landed]
  {
    hide Apply, Enabled, Runs;
    var xs, a := Begins(s0, steps, s, MintKey(n), t);
    xs, a := Reads(s0, xs, a, t);
    xs, a := Probes(s0, xs, a, t);
    xs, a := Broadcasts(s0, xs, a, t);
    longer, s' := Lands(s0, xs, a, t);
  }

  lemma Reads(s0: State, steps: seq<Step>, s: State, t: Token) returns (longer: seq<Step>, s': State)
    requires Runs(s0, steps, s) && Running(s, t, WillRead) && !s.db.nfts[s.execs[t].claim.key.nft].Ready()
    ensures Runs(s0, longer, s') && Running(s', t, WillMark)
    ensures s'
      == s.(execs := s.execs[t := s.execs[t].(body := WillMark, seen := Some(s.db.nfts[s.execs[t].claim.key.nft]))])
  {
    longer, s' := Extend(s0, steps, s, Go(t));
  }

  lemma TimesOut(s0: State, steps: seq<Step>, s: State, t: Token) returns (longer: seq<Step>, s': State)
    requires Runs(s0, steps, s) && t in s.execs && s.execs[t].wrap == Racing
    ensures Runs(s0, longer, s')
    ensures s'
      == s.(db := s.db.Fail(s.execs[t].claim, s.clock), execs := s.execs[t := s.execs[t].(wrap := Settled)],
      clock := s.clock + RETRY_DELAY)
  {
    hide Runs;
    var xs, a := Extend(s0, steps, s, Timeout(t));
    xs, a := Extend(s0, xs, a, Settle(t));
    longer, s' := Extend(s0, xs, a, Tick(RETRY_DELAY));
  }

  /** Claim, start, time out, record: one failure of job `k`, and ten minutes pass. */
  lemma FailsOnce(s0: State, steps: seq<Step>, s: State, k: JobKey, t: Token) returns (longer: seq<Step>, s': State)
    requires Runs(s0, steps, s) && CanBegin(s, k, if k in s.db.jobs then s.db.jobs[k].retries else 0, t)
    ensures Runs(s0, longer, s')
    ensures s'.db == s.db.ClaimJob(k, t, s.clock).Fail(Claim(k, t, s.db.jobs[k].retries), s.clock)
    ensures s'.execs.Keys == s.execs.Keys + {t} && s'.txs == s.txs && s'.chain == s.chain
    ensures s'.clock == s.clock + RETRY_DELAY
  {
    hide Apply, Enabled;
    var xs, a := Begins(s0, steps, s, k, t);
    longer, s' := TimesOut(s0, xs, a, t);
  }

  const PARENT := Nft(NinjaParent, None, Minted, Some(0), None)
  const CHILD := Nft(CompletionChild, Some(0), Minted, Some(1), None)

  lemma Enqueued() returns (steps: seq<Step>, s: State)
    ensures Runs(Init(), steps, s)
    ensures s == Init().(db := Db(map[MintKey(0) := NewJob(0), MintKey(1) := NewJob(0)],
                                  map[0 := PARENT.(status := Waiting, tokenId := None),
                                    1 := CHILD.(status := Waiting, tokenId := None)]))
  {
    var xs, a := Extend(Init(), [], Init(), EnqueueParent(0));
    steps, s := Extend(Init(), xs, a, EnqueueChild(1, Some(0)));
  }

  /** The parent is minted, the child exists. */
  lemma ParentMinted() returns (steps: seq<Step>, s: State)
    ensures Runs(Init(), steps, s) && CanBegin(s, MintKey(1), 0, 1) && AttachKey(1) !in s.db.jobs
    ensures s.db.nfts == map[0 := PARENT, 1 := CHILD.(status := Waiting, tokenId := None)] && s.chain == {0}
  {
    hide Apply, Enabled;
    var xs, a := Enqueued();
    xs, a := Mints(Init(), xs, a, 0, 0);
    steps, s := ParentQueues(xs, a);
  }

  lemma ParentQueues(steps: seq<Step>, s: State) returns (longer: seq<Step>, s': State)
    requires Runs(Init(), steps, s) && Running(s, 0, AfterMint) && s.execs[0].seen.Some?
    requires s.execs[0].seen.value.kind == NinjaParent
    requires forall n :: n in s.db.nfts && s.db.nfts[n].parent.Some? ==> s.db.nfts[n].status == Waiting
    ensures Runs(Init(), longer, s') && s' == s.(db := s.db, execs := s.execs[0 := s.execs[0].(body := Finished(Done))])
  {
    assert s.db.QueueChildren(s.execs[0].claim, s.clock).jobs == s.db.jobs;
    longer, s' := Extend(Init(), steps, s, Go(0));
  }

  /** The child is minted and queued for attaching, but its execution times out before it can say so. */
  lemma ChildMinted() returns (steps: seq<Step>, s: State)
    ensures Runs(Init(), steps, s) && CanBegin(s, MintKey(1), 1, 2) && CanBegin(s, AttachKey(1), 0, 2)
    ensures s.db.nfts == map[0 := PARENT, 1 := CHILD] && s.chain == {0, 1}
  {
    hide Apply, Enabled;
    var xs, a := ParentMinted();
    xs, a := Mints(Init(), xs, a, 1, 1);
    assert a.db.nfts == map[0 := PARENT, 1 := CHILD];
    xs, a := ChildQueues(xs, a);
    steps, s := TimesOut(Init(), xs, a, 1);
  }

  lemma ChildQueues(steps: seq<Step>, s: State) returns (longer: seq<Step>, s': State)
    requires Runs(Init(), steps, s) && Running(s, 1, AfterMint) && s.execs[1].claim.key == MintKey(1)
    requires s.execs[1].seen == Some(CHILD.(status := Waiting, tokenId := None))
    requires s.db.nfts == map[0 := PARENT, 1 := CHILD]
    requires AttachKey(1) !in s.db.jobs
    ensures Runs(Init(), longer, s')
    ensures s'
      == s.(db := Db(s.db.jobs[AttachKey(1) := NewJob(s.clock)], s.db.nfts),
      execs := s.execs[1 := s.execs[1].(body := Finished(Done))])
  {
    var xs, a := Extend(Init(), steps, s, Go(1));
    longer, s' := Extend(Init(), xs, a, Go(1));
  }

  /** A failure of the attach job that is not the last. */
  lemma AttachFailsOnce(steps: seq<Step>, s: State, t: Token, retries: nat) returns (longer: seq<Step>, s': State)
    requires Runs(Init(), steps, s) && retries < MAX_RETRY - 1
    requires CanBegin(s, AttachKey(1), retries, t) && CanBegin(s, MintKey(1), 1, t)
    ensures Runs(Init(), longer, s') && CanBegin(s', AttachKey(1), retries + 1, t + 1)
    ensures CanBegin(s', MintKey(1), 1, t + 1)
    ensures s'.db.nfts == s.db.nfts && s'.chain == s.chain
  {
    hide Apply, Enabled;
    longer, s' := FailsOnce(Init(), steps, s, AttachKey(1), t);
  }

  /** Five failures of the attach job. */
  lemma AttachFails() returns (steps: seq<Step>, s: State)
    ensures Runs(Init(), steps, s) && CanBegin(s, MintKey(1), 1, 7)
    ensures AttachKey(1) in s.db.jobs && s.db.jobs[AttachKey(1)].status == Failed
    ensures s.db.nfts == map[0 := PARENT, 1 := CHILD.(status := Broken)] && s.chain == {0, 1}
  {
    hide Apply, Enabled, Runs;
    var xs, a := ChildMinted();
    xs, a := AttachFailsOnce(xs, a, 2, 0);
    xs, a := AttachFailsOnce(xs, a, 3, 1);
    xs, a := AttachFailsOnce(xs, a, 4, 2);
    xs, a := AttachFailsOnce(xs, a, 5, 3);
    steps, s := FailsOnce(Init(), xs, a, AttachKey(1), 6);
  }

  /** The mint job is claimed again and reads the FAILED row; then the operator requeues the attach job. */
  lemma Requeued() returns (steps: seq<Step>, s: State)
    ensures Runs(Init(), steps, s) && Running(s, 7, WillMark) && s.execs[7].claim.key == MintKey(1)
    ensures CanBegin(s, AttachKey(1), 0, 8) && s.db.nfts == map[0 := PARENT, 1 := CHILD]
  {
    hide Apply, Enabled, Runs;
    var xs, a := AttachFails();
    xs, a := Begins(Init(), xs, a, MintKey(1), 7);
    xs, a := Reads(Init(), xs, a, 7);
    steps, s := Requeues(xs, a);
  }

  lemma Requeues(steps: seq<Step>, s: State) returns (longer: seq<Step>, s': State)
    requires Runs(Init(), steps, s) && AttachKey(1) in s.db.jobs
    ensures Runs(Init(), longer, s') && s' == s.(db := s.db.OperatorRequeue(AttachKey(1), s.clock))
  {
    longer, s' := Extend(Init(), steps, s, Operator(AttachKey(1)));
  }

  /** The requeued attach job attaches the child while the mint execution is still about to mark it MINTING. */
  lemma AttachedUnderALateMint() returns (steps: seq<Step>, s: State)
    ensures Runs(Init(), steps, s) && Running(s, 7, WillMark) && s.execs[7].claim.key == MintKey(1)
    ensures 1 in s.db.nfts && s.db.nfts[1].status == Attached
  {
    hide Apply, Enabled, Runs;
    var xs, a := Requeued();
    xs, a := Begins(Init(), xs, a, AttachKey(1), 8);
    steps, s := Attaches(xs, a, 8);
  }

  /** An attach execution that has just started, to the end of its work. */
  lemma Attaches(steps: seq<Step>, s: State, t: Token) returns (longer: seq<Step>, s': State)
    requires Runs(Init(), steps, s) && t in s.execs
    requires s.execs[t] == Exec(Claim(AttachKey(1), t, 0), None, WillRead, Racing)
    requires s.db.Owned(s.execs[t].claim) && s.db.nfts == map[0 := PARENT, 1 := CHILD]
    ensures Runs(Init(), longer, s') && s'.db.jobs == s.db.jobs && s'.db.nfts.Keys == s.db.nfts.Keys
    ensures s'.db.nfts[1].status == Attached && s'.db.nfts[1].parent == Some(0)
    ensures t in s'.execs && s'.execs[t] == s.execs[t].(seen := Some(CHILD), body := Finished(Done))
    ensures s'.execs.Keys == s.execs.Keys && forall y :: y in s.execs && y != t ==> s'.execs[y] == s.execs[y]
  {
    hide Runs;
    var xs, a := Extend(Init(), steps, s, Go(t));
    longer, s' := Extend(Init(), xs, a, Go(t));
  }

  /** The recording of a finished execution. */
  lemma Settles(steps: seq<Step>, s: State, t: Token) returns (longer: seq<Step>, s': State)
    requires Runs(Init(), steps, s) && t in s.execs
    requires s.execs[t].wrap == Racing && s.execs[t].body == Finished(Done) && s.db.Owned(s.execs[t].claim)
    ensures Runs(Init(), longer, s')
    ensures var k := s.execs[t].claim.key;
      s' == s.(db := Db(s.db.jobs[k := s.db.jobs[k].(status := Succeeded, token := None)], s.db.nfts),
               execs := s.execs[t := s.execs[t].(wrap := Settled)])
  {
    hide Runs;
    longer, s' := Extend(Init(), steps, s, Settle(t));
  }

  /** Parent and child are minted, and both mint jobs have succeeded. */
  lemma BothMinted() returns (steps: seq<Step>, s: State)
    ensures Runs(Init(), steps, s) && CanBegin(s, AttachKey(1), 0, 2)
    ensures s.db.nfts == map[0 := PARENT, 1 := CHILD] && s.db.jobs.Keys == {MintKey(0), MintKey(1), AttachKey(1)}
    ensures MintKey(0) in s.db.jobs && s.db.jobs[MintKey(0)].status == Succeeded
    ensures MintKey(1) in s.db.jobs && s.db.jobs[MintKey(1)].status == Succeeded
  {
    hide Apply, Enabled;
    var xs, a := Enqueued();
    xs, a := Mints(Init(), xs, a, 0, 0);
    xs, a := ParentQueues(xs, a);
    xs, a := Settles(xs, a, 0);
    xs, a := Mints(Init(), xs, a, 1, 1);
    assert a.db.nfts == map[0 := PARENT, 1 := CHILD];
    xs, a := ChildQueues(xs, a);
    steps, s := Settles(xs, a, 1);
  }

  /** Jobs do succeed: some run from the empty database mints a parent and its child and attaches the child, with all
      three jobs SUCCEEDED. */
  lemma AChildIsAttached()
    ensures exists steps: seq<Step>, s: State ::
      && Runs(Init(), steps, s) && s.db.jobs.Keys == {MintKey(0), MintKey(1), AttachKey(1)}
      && (forall k :: k in s.db.jobs ==> s.db.jobs[k].status == Succeeded)
      && 1 in s.db.nfts && s.db.nfts[1].parent == Some(0) && s.db.nfts[1].status == Attached
  {
    hide Apply, Enabled;
    var xs, a := BothMinted();
    xs, a := Begins(Init(), xs, a, AttachKey(1), 2);
    xs, a := Attaches(xs, a, 2);
    var steps, s := Settles(xs, a, 2);
    assert Runs(Init(), steps, s);
  }

  /** ATTACHED is not absorbing in every run: some run from the empty database ends with a step that turns it into
      MINTING. */
  lemma AttachedCanBeUndone()
    ensures exists steps: seq<Step>, s: State, st: Step ::
      && Runs(Init(), steps, s) && Enabled(s, st) && 1 in s.db.nfts && 1 in Apply(s, st).db.nfts
      && s.db.nfts[1].status == Attached && Apply(s, st).db.nfts[1].status == Minting
  {
    var steps, s := AttachedUnderALateMint();
    assert Enabled(s, Go(7)) && Apply(s, Go(7)).db.nfts[1].status == Minting;
  }
}
