/** What every run of the NFT queue keeps. */
module NftSafety {
  import opened Prelude
  import opened NftModel

  // ----- The invariant -----

  ghost predicate JobOk(j: Job) {
    && (j.status == Processing <==> j.token.Some?)
    && (j.status == Failed <==> j.retries == MAX_RETRY)
    && j.retries <= MAX_RETRY
  }

  /** The live claim of a job is held by the execution of that token, which copied the current retry count. */
  ghost predicate ClaimOk(execs: map<Token, Exec>, k: JobKey, j: Job) {
    && JobOk(j)
    && (j.token.Some? ==> j.token.value in execs && execs[j.token.value].claim == Claim(k, j.token.value, j.retries))
  }

  ghost predicate Claims(jobs: map<JobKey, Job>, execs: map<Token, Exec>) {
    && (forall k :: k in jobs ==> ClaimOk(execs, k, jobs[k]))
    && (forall t :: t in execs ==> execs[t].claim.token == t && execs[t].claim.key in jobs)
  }

  /** A row never says more than the chain and the queue can back. */
  ghost predicate RowOk(db: Db, chain: set<NftId>, n: NftId)
    requires n in db.nfts
  {
    var v := db.nfts[n];
    && MintKey(n) in db.jobs
    && (v.kind == NinjaParent ==> v.parent.None?)
    && (v.parent.Some? ==> v.parent.value in db.nfts && db.nfts[v.parent.value].kind == NinjaParent)
    && v.status != Attaching
    && (v.tokenId.Some? ==> v.tokenId == Some(n) && n in chain)
    && (v.status == Minted || v.status == Attached ==> v.tokenId.Some?)
    && (v.status == Attached ==> v.attachedAt.Some?)
    && (v.attachedAt.Some? ==> v.tokenId.Some? && v.parent.Some? && v.parent.value in chain && AttachKey(n) in db.jobs)
  }

  ghost predicate Rows(db: Db, chain: set<NftId>) {
    && (forall n :: n in db.nfts ==> RowOk(db, chain, n))
    && (forall k :: k in db.jobs ==> k.nft in db.nfts && (k.AttachKey? ==> db.nfts[k.nft].parent.Some?))
  }

  /** What an execution remembers is still true enough to act on. */
  ghost predicate ExecOk(db: Db, chain: set<NftId>, x: Exec) {
    var n := x.claim.key.nft;
    && n in db.nfts
    && (x.seen.Some? ==> x.seen.value.kind == db.nfts[n].kind && x.seen.value.parent == db.nfts[n].parent)
    && (x.seen.Some? && x.seen.value.status == Attached ==> AttachKey(n) in db.jobs)
    && (x.body != WillRead && !x.body.Finished? ==> x.seen.Some?)
    && (x.body == WillAttach ==> x.claim.key.AttachKey?)
    && (x.body != WillAttach && x.body != WillRead && !x.body.Finished? ==> x.claim.key.MintKey?)
    && (x.body == WillRecover || x.body == WillRecord ==> n in chain)
    && (x.body == WillQueueAttach ==> db.nfts[n].parent.Some?)
  }

  ghost predicate Execs(db: Db, chain: set<NftId>, execs: map<Token, Exec>) {
    forall t :: t in execs ==> ExecOk(db, chain, execs[t])
  }

  ghost predicate Txs(s: State) {
    && (forall t :: t in s.txs ==> t in s.execs)
    && (forall t :: t in s.txs && s.txs[t] == Landed ==> s.execs[t].claim.key.nft in s.chain)
    && (forall t, u :: t in s.txs && u in s.txs && t != u && s.txs[t] == Landed && s.txs[u] == Landed ==>
          s.execs[t].claim.key.nft != s.execs[u].claim.key.nft)
  }

  /** The mint job of `n` succeeded, or its live execution has finished its mint work and maybe more. */
  ghost predicate PastMint(jobs: map<JobKey, Job>, execs: map<Token, Exec>, n: NftId) {
    MintKey(n) in jobs &&
    var j := jobs[MintKey(n)];
    j.status == Succeeded ||
    (j.status == Processing && j.token.Some? && j.token.value in execs &&
     execs[j.token.value].body in {AfterMint, WillQueueAttach, Finished(Done)})
  }

  ghost predicate Through(jobs: map<JobKey, Job>, execs: map<Token, Exec>, n: NftId) {
    MintKey(n) in jobs &&
    var j := jobs[MintKey(n)];
    j.status == Succeeded ||
    (j.status == Processing && j.token.Some? && j.token.value in execs && execs[j.token.value].body == Finished(Done))
  }

  /** Until its attach job exists, nothing but its own mint job touches the row of a minted NFT. */
  ghost predicate StaysMinted(db: Db, execs: map<Token, Exec>) {
    forall n :: n in db.nfts && PastMint(db.jobs, execs, n) && AttachKey(n) !in db.jobs ==> db.nfts[n].status == Minted
  }

  /** Whichever of the two mint jobs came last saw the other. */
  ghost predicate HandedOver(db: Db, execs: map<Token, Exec>) {
    forall n ::
      n in db.nfts && db.nfts[n].parent.Some? && Through(db.jobs, execs, n)
      && Through(db.jobs, execs, db.nfts[n].parent.value)
      ==> AttachKey(n) in db.jobs
  }

  ghost predicate Inv(s: State) {
    && Claims(s.db.jobs, s.execs)
    && Rows(s.db, s.chain)
    && Execs(s.db, s.chain, s.execs)
    && Txs(s)
    && StaysMinted(s.db, s.execs)
    && HandedOver(s.db, s.execs)
  }

  // ----- What a claim's transactions may write -----

  /** A transaction of claim `c`: nothing if `c` was superseded, otherwise its own job, and untokened changes
      elsewhere. */
  ghost predicate JobsWrite(db: Db, db': Db, c: Claim) {
    && db.jobs.Keys <= db'.jobs.Keys
    && (!db.Owned(c) ==> db' == db)
    && (forall k :: k in db.jobs && k != c.key ==>
          db'.jobs[k] == db.jobs[k]
            || (db.jobs[k].status == Pending && db'.jobs[k] == db.jobs[k].(scheduledAt := db'.jobs[k].scheduledAt)))
    && (forall k :: k in db'.jobs && k !in db.jobs ==> k.AttachKey? && k.nft in db.nfts && db.nfts[k.nft].parent.Some?)
    && (forall k :: k in db'.jobs && k !in db.jobs ==>
      db'.jobs[k].status == Pending && db'.jobs[k].retries == 0 && db'.jobs[k].token.None?)
    && (db.Owned(c) ==> OwnJobWrite(db.jobs[c.key], db'.jobs[c.key], c))
  }

  /** The claim stays with its retry count, or it ends; ending by a failure counts it. */
  ghost predicate OwnJobWrite(j: Job, j': Job, c: Claim) {
    || (j'.status == j.status && j'.token == j.token && j'.retries == j.retries)
    || (j'.status in {Pending, Succeeded} && j'.token.None? && j'.retries == j.retries)
    || (j'.status == (if c.retries + 1 >= MAX_RETRY then Failed else Pending) && j'.token.None?
      && j'.retries == j.retries + 1)
  }

  /** How one NFT row may change. */
  ghost predicate RowMove(db: Db, chain: set<NftId>, n: NftId, v': Nft)
    requires n in db.nfts
  {
    var v := db.nfts[n];
    || v' == v
    || (v'.status in {Waiting, Minting, Broken} && v' == v.(status := v'.status))
    || (n in chain && v' == v.(status := Minted, tokenId := Some(n)))
    || (AttachKey(n) in db.jobs && db.CanAttach(n) && v'.attachedAt.Some?
      && v' == v.(status := Attached, attachedAt := v'.attachedAt))
    || v' == v.Restored()
  }

  ghost predicate RowsMove(db: Db, db': Db, chain: set<NftId>) {
    db'.nfts.Keys == db.nfts.Keys && forall n :: n in db.nfts ==> RowMove(db, chain, n, db'.nfts[n])
  }

  ghost predicate OnlyRow(db: Db, db': Db, n: NftId) {
    db'.nfts.Keys == db.nfts.Keys && forall m :: m in db.nfts && m != n ==> db'.nfts[m] == db.nfts[m]
  }

  lemma SettleJobs(db: Db, x: Exec, now: nat)
    ensures JobsWrite(db, SettleDb(db, x, now), x.claim)
  {
  }

  lemma SettleRows(db: Db, chain: set<NftId>, x: Exec, now: nat)
    ensures RowsMove(db, SettleDb(db, x, now), chain)
    ensures OnlyRow(db, SettleDb(db, x, now), x.claim.key.nft)
  {
  }

  lemma GoJobs(db: Db, chain: set<NftId>, x: Exec, now: nat)
    requires Execs(db, chain, map[x.claim.token := x])
    ensures JobsWrite(db, GoDb(db, x, now), x.claim)
  {
    assert ExecOk(db, chain, map[x.claim.token := x][x.claim.token]);
  }

  lemma GoRows(db: Db, chain: set<NftId>, x: Exec, now: nat)
    requires ExecOk(db, chain, x) && x.claim.key in db.jobs
    ensures RowsMove(db, GoDb(db, x, now), chain)
    ensures OnlyRow(db, GoDb(db, x, now), x.claim.key.nft)
  {
  }

  // ----- The invariant under those writes -----

  lemma ClaimsAfterWrite(db: Db, db': Db, execs: map<Token, Exec>, t: Token, x: Exec)
    requires Claims(db.jobs, execs) && t in execs
    requires JobsWrite(db, db', execs[t].claim) && x.claim == execs[t].claim
    ensures Claims(db'.jobs, execs[t := x])
  {
    var execs' := execs[t := x];
    forall k | k in db'.jobs ensures ClaimOk(execs', k, db'.jobs[k]) {
      if k in db.jobs { assert ClaimOk(execs, k, db.jobs[k]); }
    }
  }

  lemma RowAfterMove(db: Db, db': Db, chain: set<NftId>, n: NftId)
    requires n in db.nfts && RowOk(db, chain, n)
    requires db.CanAttach(n) ==> RowOk(db, chain, db.nfts[n].parent.value)
    requires RowsMove(db, db', chain) && db.jobs.Keys <= db'.jobs.Keys
    ensures RowOk(db', chain, n)
  {
    var v := db.nfts[n];
    assert RowMove(db, chain, n, db'.nfts[n]);
    if v.parent.Some? { assert RowMove(db, chain, v.parent.value, db'.nfts[v.parent.value]); }
  }

  lemma RowsAfterMove(db: Db, db': Db, chain: set<NftId>)
    requires Rows(db, chain) && RowsMove(db, db', chain)
    requires db.jobs.Keys <= db'.jobs.Keys
    requires forall k :: k in db'.jobs && k !in db.jobs ==>
      k.AttachKey? && k.nft in db.nfts && db.nfts[k.nft].parent.Some?
    ensures Rows(db', chain)
  {
    forall n | n in db'.nfts ensures RowOk(db', chain, n) {
      RowAfterMove(db, db', chain, n);
    }
    forall k | k in db'.jobs ensures k.nft in db'.nfts && (k.AttachKey? ==> db'.nfts[k.nft].parent.Some?) {
      assert RowMove(db, chain, k.nft, db'.nfts[k.nft]);
    }
  }

  lemma ExecsAfterMove(db: Db, db': Db, chain: set<NftId>, execs: map<Token, Exec>)
    requires Execs(db, chain, execs) && RowsMove(db, db', chain) && db.jobs.Keys <= db'.jobs.Keys
    ensures Execs(db', chain, execs)
  {
    forall t | t in execs ensures ExecOk(db', chain, execs[t]) {
      assert ExecOk(db, chain, execs[t])
        && RowMove(db, chain, execs[t].claim.key.nft, db'.nfts[execs[t].claim.key.nft]);
    }
  }

  /** Only the live claim of a mint job moves that job to or past its end. */
  lemma OthersStay(db: Db, db': Db, execs: map<Token, Exec>, t: Token, x: Exec, n: NftId)
    requires Claims(db.jobs, execs) && t in execs && JobsWrite(db, db', execs[t].claim)
    requires MintKey(n) != execs[t].claim.key || !db.Owned(execs[t].claim)
    ensures PastMint(db'.jobs, execs[t := x], n) ==> PastMint(db.jobs, execs, n)
    ensures Through(db'.jobs, execs[t := x], n) ==> Through(db.jobs, execs, n)
  {
    if MintKey(n) in db.jobs { assert ClaimOk(execs, MintKey(n), db.jobs[MintKey(n)]); }
  }

  lemma StaysMintedAfterWrite(db: Db, db': Db, execs: map<Token, Exec>, t: Token, x: Exec)
    requires Claims(db.jobs, execs) && StaysMinted(db, execs)
    requires t in execs && JobsWrite(db, db', execs[t].claim) && OnlyRow(db, db', execs[t].claim.key.nft)
    requires var n := execs[t].claim.key.nft;
      (db.Owned(execs[t].claim) && execs[t].claim.key == MintKey(n) && n in db'.nfts
       && PastMint(db'.jobs, execs[t := x], n) && AttachKey(n) !in db'.jobs) ==> db'.nfts[n].status == Minted
    ensures StaysMinted(db', execs[t := x])
  {
    var c := execs[t].claim;
    forall n | n in db'.nfts && PastMint(db'.jobs, execs[t := x], n) && AttachKey(n) !in db'.jobs
      ensures db'.nfts[n].status == Minted {
      if MintKey(n) != c.key || !db.Owned(c) { OthersStay(db, db', execs, t, x, n); }
    }
  }

  lemma HandedOverAfterWrite(db: Db, db': Db, execs: map<Token, Exec>, t: Token, x: Exec)
    requires Claims(db.jobs, execs) && HandedOver(db, execs)
    requires t in execs && JobsWrite(db, db', execs[t].claim)
    requires db'.nfts.Keys == db.nfts.Keys
    requires forall n :: n in db.nfts ==> db'.nfts[n].parent == db.nfts[n].parent != Some(n)
    requires forall n :: n in db.nfts && db.nfts[n].parent.Some? ==> db.nfts[n].parent.value in db.nfts
    requires var n := execs[t].claim.key.nft;
      (db.Owned(execs[t].claim) && execs[t].claim.key == MintKey(n) && n in db.nfts
        && Through(db'.jobs, execs[t := x], n))
      ==> Meets(db, db', execs, n)
    ensures HandedOver(db', execs[t := x])
  {
    var c := execs[t].claim;
    forall n | n in db'.nfts && db'.nfts[n].parent.Some? && Through(db'.jobs, execs[t := x], n)
                 && Through(db'.jobs, execs[t := x], db'.nfts[n].parent.value)
      ensures AttachKey(n) in db'.jobs
    {
      var p := db.nfts[n].parent.value;
      if MintKey(n) != c.key || !db.Owned(c) { OthersStay(db, db', execs, t, x, n); }
      if MintKey(p) != c.key || !db.Owned(c) { OthersStay(db, db', execs, t, x, p); }
    }
  }

  /** When the mint job of `n` gets through: `n`'s parent and `n`'s children that were already through have their attach
      jobs. */
  ghost predicate Meets(db: Db, db': Db, execs: map<Token, Exec>, n: NftId)
    requires n in db.nfts
  {
    && (db.nfts[n].parent.Some? && Through(db.jobs, execs, db.nfts[n].parent.value) ==> AttachKey(n) in db'.jobs)
    && (forall m :: m in db.nfts && db.nfts[m].parent == Some(n) && Through(db.jobs, execs, m) ==>
      AttachKey(m) in db'.jobs)
  }

  lemma ParentsFixed(db: Db, db': Db, chain: set<NftId>)
    requires Rows(db, chain) && RowsMove(db, db', chain)
    ensures forall n :: n in db.nfts ==> db'.nfts[n].parent == db.nfts[n].parent != Some(n)
    ensures forall n :: n in db.nfts && db.nfts[n].parent.Some? ==> db.nfts[n].parent.value in db.nfts
  {
    forall n | n in db.nfts
      ensures db'.nfts[n].parent == db.nfts[n].parent != Some(n)
      ensures db.nfts[n].parent.Some? ==> db.nfts[n].parent.value in db.nfts
    {
      assert RowOk(db, chain, n) && RowMove(db, chain, n, db'.nfts[n]);
    }
  }

  lemma TxsAfter(s: State, db': Db, t: Token, x: Exec)
    requires Txs(s) && t in s.execs && x.claim == s.execs[t].claim
    ensures Txs(s.(db := db', execs := s.execs[t := x]))
  {
  }

  /** A transaction of execution `t`'s claim, together with its own progress to `x`. */
  lemma InvAfterWrite(s: State, db': Db, t: Token, x: Exec)
    requires Inv(s) && t in s.execs && x.claim == s.execs[t].claim
    requires JobsWrite(s.db, db', x.claim) && RowsMove(s.db, db', s.chain) && OnlyRow(s.db, db', x.claim.key.nft)
    requires ExecOk(s.db, s.chain, x)
    requires OwnLinks(s, db', t, x)
    ensures Inv(s.(db := db', execs := s.execs[t := x]))
  {
    hide RowOk, RowMove, ClaimOk, PastMint, Through, OwnJobWrite;
    assert Claims(db'.jobs, s.execs[t := x]) by { ClaimsAfterWrite(s.db, db', s.execs, t, x); }
    assert Rows(db', s.chain) by { RowsAfterMove(s.db, db', s.chain); }
    assert Execs(db', s.chain, s.execs[t := x]) by { ExecsAfterMove(s.db, db', s.chain, s.execs[t := x]); }
    assert StaysMinted(db', s.execs[t := x]) by { StaysMintedAfterWrite(s.db, db', s.execs, t, x); }
    assert HandedOver(db', s.execs[t := x]) by {
      ParentsFixed(s.db, db', s.chain);
      HandedOverAfterWrite(s.db, db', s.execs, t, x);
    }
    TxsAfter(s, db', t, x);
  }

  /** The part of the hand-over that only the live claim of a mint job has to answer for. */
  ghost predicate OwnLinks(s: State, db': Db, t: Token, x: Exec) {
    var n := x.claim.key.nft;
    (s.db.Owned(x.claim) && x.claim.key == MintKey(n) && n in s.db.nfts && n in db'.nfts) ==>
      && (PastMint(db'.jobs, s.execs[t := x], n) && AttachKey(n) !in db'.jobs ==> db'.nfts[n].status == Minted)
      && (Through(db'.jobs, s.execs[t := x], n) ==> Meets(s.db, db', s.execs, n))
  }

  /** The child's last read or insert: a parent that is through is seen as ready, so the attach job exists. */
  lemma ChildMeetsParent(s: State, t: Token, p: NftId)
    requires Rows(s.db, s.chain) && StaysMinted(s.db, s.execs)
    requires t in s.execs && s.db.Owned(s.execs[t].claim) && ExecOk(s.db, s.chain, s.execs[t])
    requires s.execs[t].body == AfterMint || s.execs[t].body == WillQueueAttach
    requires GoBody(s.db, s.chain, s.execs[t]) == Finished(Done)
    requires s.db.nfts[s.execs[t].claim.key.nft].parent == Some(p) && Through(s.db.jobs, s.execs, p)
    ensures AttachKey(s.execs[t].claim.key.nft) in GoDb(s.db, s.execs[t], s.clock).jobs
  {
    assert RowOk(s.db, s.chain, s.execs[t].claim.key.nft);
    assert RowOk(s.db, s.chain, p);
    assert AttachKey(p) !in s.db.jobs;
    assert s.db.ParentReady(p);
  }

  /** The parent's last scan: a child that is through is still MINTED, so it is queued. */
  lemma ParentMeetsChild(s: State, t: Token, m: NftId)
    requires Rows(s.db, s.chain) && StaysMinted(s.db, s.execs)
    requires t in s.execs && s.db.Owned(s.execs[t].claim) && ExecOk(s.db, s.chain, s.execs[t])
    requires s.execs[t].body == AfterMint || s.execs[t].body == WillQueueAttach
    requires GoBody(s.db, s.chain, s.execs[t]) == Finished(Done)
    requires m in s.db.nfts && s.db.nfts[m].parent == Some(s.execs[t].claim.key.nft) && Through(s.db.jobs, s.execs, m)
    ensures AttachKey(m) in GoDb(s.db, s.execs[t], s.clock).jobs
  {
    var n := s.execs[t].claim.key.nft;
    assert RowOk(s.db, s.chain, m);
    assert RowOk(s.db, s.chain, n);
    if AttachKey(m) !in s.db.jobs { assert s.db.WaitsFor(m, n); }
  }

  lemma GoMeets(s: State, t: Token)
    requires Inv(s) && t in s.execs && s.db.Owned(s.execs[t].claim) && s.execs[t].claim.key.MintKey?
    requires s.execs[t].body == AfterMint || s.execs[t].body == WillQueueAttach
    requires GoBody(s.db, s.chain, s.execs[t]) == Finished(Done)
    ensures s.execs[t].claim.key.nft in s.db.nfts
    ensures Meets(s.db, GoDb(s.db, s.execs[t], s.clock), s.execs, s.execs[t].claim.key.nft)
  {
    hide RowOk, ClaimOk, PastMint, Through, GoBody, GoDb;
    var n := s.execs[t].claim.key.nft;
    assert ExecOk(s.db, s.chain, s.execs[t]);
    if s.db.nfts[n].parent.Some? && Through(s.db.jobs, s.execs, s.db.nfts[n].parent.value) {
      ChildMeetsParent(s, t, s.db.nfts[n].parent.value);
    }
    forall m | m in s.db.nfts && s.db.nfts[m].parent == Some(n) && Through(s.db.jobs, s.execs, m)
      ensures AttachKey(m) in GoDb(s.db, s.execs[t], s.clock).jobs
    {
      ParentMeetsChild(s, t, m);
    }
  }

  /** Only AfterMint and WillQueueAttach lead a mint job to Done, and only a recorded mint leads to AfterMint. */
  lemma GoReaches(db: Db, chain: set<NftId>, x: Exec, now: nat)
    requires ExecOk(db, chain, x) && db.Owned(x.claim) && x.claim.key.MintKey? && !x.body.Finished?
    ensures var b := GoBody(db, chain, x);
      && (b == Finished(Done) ==> x.body == AfterMint || x.body == WillQueueAttach)
      && (b == WillQueueAttach ==> x.body == AfterMint)
      && (b == AfterMint ==>
            GoDb(db, x, now).nfts[x.claim.key.nft].status == Minted
            || (GoDb(db, x, now) == db && db.nfts[x.claim.key.nft].status == Attached))
    ensures x.body == AfterMint || x.body == WillQueueAttach ==> GoDb(db, x, now).nfts == db.nfts
    ensures GoDb(db, x, now).jobs.Keys >= db.jobs.Keys && GoDb(db, x, now).jobs[x.claim.key] == db.jobs[x.claim.key]
  {
  }

  lemma GoStaysMinted(s: State, t: Token)
    requires Inv(s) && Enabled(s, Go(t)) && s.db.Owned(s.execs[t].claim) && s.execs[t].claim.key.MintKey?
    ensures var x := s.execs[t];
      var n := x.claim.key.nft;
      var db' := GoDb(s.db, x, s.clock);
      n in db'.nfts && PastMint(db'.jobs, s.execs[t := GoExec(s.db, s.chain, x)], n) && AttachKey(n) !in db'.jobs ==>
        db'.nfts[n].status == Minted
  {
    hide ClaimOk, GoBody, GoDb, JobOk, HandedOver, Txs;
    var x := s.execs[t];
    assert ExecOk(s.db, s.chain, x);
    GoReaches(s.db, s.chain, x, s.clock);
    assert RowOk(s.db, s.chain, x.claim.key.nft);
  }

  lemma GoLinks(s: State, t: Token)
    requires Inv(s) && Enabled(s, Go(t))
    ensures OwnLinks(s, GoDb(s.db, s.execs[t], s.clock), t, GoExec(s.db, s.chain, s.execs[t]))
  {
    hide RowOk, ClaimOk, GoBody, GoDb, JobOk, HandedOver, StaysMinted, Txs, Meets, PastMint;
    var x := s.execs[t];
    var n := x.claim.key.nft;
    var db' := GoDb(s.db, x, s.clock);
    if s.db.Owned(x.claim) && x.claim.key == MintKey(n) {
      GoStaysMinted(s, t);
      assert ExecOk(s.db, s.chain, x);
      GoReaches(s.db, s.chain, x, s.clock);
      if GoBody(s.db, s.chain, x) == Finished(Done) { GoMeets(s, t); }
    }
  }

  lemma GoExecOk(db: Db, chain: set<NftId>, x: Exec)
    requires Rows(db, chain) && ExecOk(db, chain, x)
    requires x.body == Broadcasting ==> x.claim.key.nft in chain
    ensures ExecOk(db, chain, GoExec(db, chain, x))
  {
    assert RowOk(db, chain, x.claim.key.nft);
  }

  lemma GoWriteKeeps(s: State, t: Token)
    requires Inv(s) && Enabled(s, Go(t))
    ensures Inv(s.(db := GoDb(s.db, s.execs[t], s.clock), execs := s.execs[t := GoExec(s.db, s.chain, s.execs[t])]))
  {
    hide RowOk, RowMove, ClaimOk, PastMint, Through, OwnJobWrite, OwnLinks, GoBody, GoDb, JobsWrite;
    var x := s.execs[t];
    var x' := GoExec(s.db, s.chain, x);
    var db' := GoDb(s.db, x, s.clock);
    assert ExecOk(s.db, s.chain, x);
    assert JobsWrite(s.db, db', x.claim) by { GoJobs(s.db, s.chain, x, s.clock); }
    assert RowsMove(s.db, db', s.chain) && OnlyRow(s.db, db', x.claim.key.nft) by { GoRows(s.db, s.chain, x, s.clock); }
    assert OwnLinks(s, db', t, x') by { GoLinks(s, t); }
    assert ExecOk(s.db, s.chain, x') by { GoExecOk(s.db, s.chain, x); }
    InvAfterWrite(s, db', t, x');
  }

  /** A new broadcast is in flight; one that lands was not on the chain before. */
  lemma TxsMove(s: State, t: Token, tx: MintTx)
    requires Txs(s) && t in s.execs
    requires tx == Landed ==> s.execs[t].claim.key.nft !in s.chain
    ensures Txs(s.(txs := s.txs[t := tx],
      chain := if tx == Landed then s.chain + {s.execs[t].claim.key.nft} else s.chain))
  {
  }

  lemma GoKeeps(s: State, t: Token)
    requires Inv(s) && Enabled(s, Go(t))
    ensures Inv(Apply(s, Go(t)))
  {
    hide Claims, Rows, Execs, StaysMinted, HandedOver, GoBody, GoDb, Txs;
    GoWriteKeeps(s, t);
    var s' := s.(db := GoDb(s.db, s.execs[t], s.clock), execs := s.execs[t := GoExec(s.db, s.chain, s.execs[t])]);
    if s.execs[t].body == WillBroadcast { TxsMove(s', t, InFlight); }
  }

  /** A failed, paused, given-up or finished execution: nothing new gets through, and no minted row loses its status. */
  ghost predicate Ending(s: State, db': Db, t: Token, x: Exec) {
    && t in s.execs && x.claim == s.execs[t].claim && x.seen == s.execs[t].seen
    && (x.body == s.execs[t].body || (x.body.Finished? && x.body.outcome != Done))
    && (s.db.Owned(x.claim) && x.claim.key in db'.jobs ==>
          && (db'.jobs[x.claim.key].status == Succeeded ==> s.execs[t].body == Finished(Done) && db'.nfts == s.db.nfts)
          && (db'.jobs[x.claim.key].status == Processing && x.body == s.execs[t].body ==> db'.nfts == s.db.nfts))
  }

  lemma EndingLinks(s: State, db': Db, t: Token, x: Exec)
    requires Claims(s.db.jobs, s.execs) && StaysMinted(s.db, s.execs) && HandedOver(s.db, s.execs)
    requires Ending(s, db', t, x) && JobsWrite(s.db, db', x.claim)
    ensures OwnLinks(s, db', t, x)
  {
    hide ClaimOk;
    var n := x.claim.key.nft;
    if s.db.Owned(x.claim) && x.claim.key == MintKey(n) && n in s.db.nfts && n in db'.nfts {
      var execs' := s.execs[t := x];
      var j' := db'.jobs[x.claim.key];
      assert OwnJobWrite(s.db.jobs[x.claim.key], j', x.claim);
      assert x.claim.token == t;
      assert Through(db'.jobs, execs', n) ==> Through(s.db.jobs, s.execs, n);
      assert PastMint(db'.jobs, execs', n) ==> PastMint(s.db.jobs, s.execs, n) && db'.nfts == s.db.nfts;
    }
  }

  lemma EndingKeeps(s: State, db': Db, t: Token, x: Exec)
    requires Inv(s) && Ending(s, db', t, x)
    requires JobsWrite(s.db, db', x.claim) && RowsMove(s.db, db', s.chain) && OnlyRow(s.db, db', x.claim.key.nft)
    ensures Inv(s.(db := db', execs := s.execs[t := x]))
  {
    hide RowOk, RowMove, ClaimOk, PastMint, Through, OwnJobWrite, JobsWrite, OwnLinks;
    assert ExecOk(s.db, s.chain, s.execs[t]);
    assert ExecOk(s.db, s.chain, x);
    EndingLinks(s, db', t, x);
    InvAfterWrite(s, db', t, x);
  }

  lemma GoJobSame(db: Db, x: Exec, now: nat)
    ensures db.Owned(x.claim) ==>
      x.claim.key in GoDb(db, x, now).jobs && GoDb(db, x, now).jobs[x.claim.key].status == Processing
  {
  }

  lemma UnacknowledgedKeeps(s: State, t: Token)
    requires Inv(s) && Enabled(s, GoUnacknowledged(t))
    ensures Inv(Apply(s, GoUnacknowledged(t)))
  {
    hide RowOk, RowMove, ClaimOk, PastMint, Through, JobsWrite, GoDb, Rows, Txs, StaysMinted, HandedOver;
    var x := s.execs[t];
    var db' := GoDb(s.db, x, s.clock);
    assert ExecOk(s.db, s.chain, x);
    assert JobsWrite(s.db, db', x.claim) by { GoJobs(s.db, s.chain, x, s.clock); }
    assert RowsMove(s.db, db', s.chain) && OnlyRow(s.db, db', x.claim.key.nft) by { GoRows(s.db, s.chain, x, s.clock); }
    assert s.db.Owned(x.claim) ==> db'.jobs[x.claim.key].status == Processing by { GoJobSame(s.db, x, s.clock); }
    EndingKeeps(s, db', t, x.(body := Finished(Threw)));
  }

  lemma SettleKeeps(s: State, t: Token)
    requires Inv(s) && Enabled(s, Settle(t))
    ensures Inv(Apply(s, Settle(t)))
  {
    hide RowOk, RowMove, ClaimOk, Rows, Execs, Txs, StaysMinted, HandedOver, JobsWrite;
    var x := s.execs[t];
    var db' := SettleDb(s.db, x, s.clock);
    assert JobsWrite(s.db, db', x.claim) by { SettleJobs(s.db, x, s.clock); }
    assert RowsMove(s.db, db', s.chain) && OnlyRow(s.db, db', x.claim.key.nft) by {
      SettleRows(s.db, s.chain, x, s.clock);
    }
    EndingKeeps(s, db', t, x.(wrap := Settled));
  }

  /** Steps that touch at most the claim of an execution and its program counter. */
  lemma ClaimStepKeeps(s: State, db': Db, t: Token, x: Exec)
    requires Inv(s) && t in s.execs && x.claim == s.execs[t].claim && x.seen == s.execs[t].seen
    requires x.body == s.execs[t].body || (x.body.Finished? && x.body.outcome != Done)
    requires db' == s.db || db' == s.db.Restamp(x.claim, s.clock) || exists at :: db' == s.db.GiveBack(x.claim, at)
    ensures Inv(s.(db := db', execs := s.execs[t := x]))
  {
    hide RowOk, ClaimOk, Rows, Execs, Txs, StaysMinted, HandedOver;
    EndingKeeps(s, db', t, x);
  }

  /** Every step of an execution other than its own next action. */
  lemma WrapKeeps(s: State, st: Step)
    requires Inv(s) && Enabled(s, st)
    requires st.Hold? || st.Release? || st.Start? || st.NotConfigured? || st.Timeout? || st.Settle? || st.GoThrow?
      || st.GoPause?
    ensures Inv(Apply(s, st))
  {
    hide Claims, Rows, Execs, Txs, StaysMinted, HandedOver;
    var t := st.t;
    var x := s.execs[t];
    match st
    case Hold(_) => ClaimStepKeeps(s, s.db.Restamp(x.claim, s.clock), t, x);
      assert s.execs[t := x] == s.execs;
    case Release(_) => ClaimStepKeeps(s, s.db.GiveBack(x.claim, None), t,
      x.(wrap := Settled, body := Finished(PausedOut)));
    case Start(_) =>
      ClaimStepKeeps(s, s.db.Restamp(x.claim, s.clock), t,
        if s.db.Owned(x.claim) then x.(wrap := Racing) else x.(wrap := Settled, body := Finished(ClaimLost)));
    case NotConfigured(_) =>
      ClaimStepKeeps(s, s.db.GiveBack(x.claim, Some(s.clock + POSTPONE_DELAY)), t,
        x.(wrap := Settled, body := Finished(PausedOut)));
    case Timeout(_) => ClaimStepKeeps(s, s.db, t, x.(wrap := TimedOut));
    case Settle(_) => SettleKeeps(s, t);
    case GoThrow(_) => ClaimStepKeeps(s, s.db, t, x.(body := Finished(Threw)));
    case GoPause(_) => ClaimStepKeeps(s, s.db, t, x.(body := Finished(PausedOut)));
  }

  // ----- Steps of the environment -----

  /** More rows, more jobs, more tokens on the chain; nothing that was there changes. */
  ghost predicate Grows(db: Db, db': Db, chain: set<NftId>, chain': set<NftId>) {
    && db.jobs.Keys <= db'.jobs.Keys && chain <= chain' && db.nfts.Keys <= db'.nfts.Keys
    && (forall n :: n in db.nfts ==> db'.nfts[n] == db.nfts[n])
  }

  lemma RowsGrow(db: Db, db': Db, chain: set<NftId>, chain': set<NftId>)
    requires Rows(db, chain) && Grows(db, db', chain, chain')
    requires forall n :: n in db'.nfts && n !in db.nfts ==> RowOk(db', chain', n)
    requires forall k :: k in db'.jobs && k !in db.jobs ==> k.MintKey? && k.nft in db'.nfts
    ensures Rows(db', chain')
  {
    forall n | n in db'.nfts ensures RowOk(db', chain', n) {
      if n in db.nfts { assert RowOk(db, chain, n); }
    }
  }

  lemma ExecsGrow(db: Db, db': Db, chain: set<NftId>, chain': set<NftId>, execs: map<Token, Exec>)
    requires Execs(db, chain, execs) && Grows(db, db', chain, chain')
    ensures Execs(db', chain', execs)
  {
    forall t | t in execs ensures ExecOk(db', chain', execs[t]) { assert ExecOk(db, chain, execs[t]); }
  }

  lemma NewRowLinks(s: State, db': Db, n: NftId)
    requires StaysMinted(s.db, s.execs) && HandedOver(s.db, s.execs) && Rows(s.db, s.chain)
    requires n !in s.db.nfts && db'.nfts.Keys == s.db.nfts.Keys + {n} && forall m :: m in s.db.nfts ==>
      db'.nfts[m] == s.db.nfts[m]
    requires db'.jobs == s.db.jobs[MintKey(n) := NewJob(s.clock)]
    ensures StaysMinted(db', s.execs) && HandedOver(db', s.execs)
  {
    forall m | m in s.db.nfts && s.db.nfts[m].parent.Some? ensures s.db.nfts[m].parent.value in s.db.nfts {
      assert RowOk(s.db, s.chain, m);
    }
  }

  lemma EnqueueKeeps(s: State, n: NftId, kind: Kind, parent: Option<NftId>)
    requires Inv(s) && n !in s.db.nfts
    requires kind == NinjaParent ==> parent.None?
    requires parent.Some? ==> parent.value in s.db.nfts && s.db.nfts[parent.value].kind == NinjaParent
    ensures Inv(s.(db := s.db.Enqueue(n, kind, parent, s.clock)))
  {
    hide RowOk, ClaimOk, StaysMinted, HandedOver, Txs, PastMint, Through;
    var db' := s.db.Enqueue(n, kind, parent, s.clock);
    assert MintKey(n) !in s.db.jobs;
    assert Claims(db'.jobs, s.execs) by { NewJobClaims(s.db.jobs, s.execs, MintKey(n), s.clock); }
    assert RowOk(db', s.chain, n) by { NewRowOk(s, n, kind, parent); }
    RowsGrow(s.db, db', s.chain, s.chain);
    ExecsGrow(s.db, db', s.chain, s.chain, s.execs);
    NewRowLinks(s, db', n);
    SameTxs(s, s.(db := db'));
  }

  lemma NewJobClaims(jobs: map<JobKey, Job>, execs: map<Token, Exec>, k: JobKey, now: nat)
    requires Claims(jobs, execs) && k !in jobs
    ensures Claims(jobs[k := NewJob(now)], execs)
  {
  }

  lemma NewRowOk(s: State, n: NftId, kind: Kind, parent: Option<NftId>)
    requires Rows(s.db, s.chain) && n !in s.db.nfts
    requires kind == NinjaParent ==> parent.None?
    requires parent.Some? ==> parent.value in s.db.nfts && s.db.nfts[parent.value].kind == NinjaParent
    ensures RowOk(s.db.Enqueue(n, kind, parent, s.clock), s.chain, n)
  {
  }

  lemma SameTxs(s: State, s': State)
    requires Txs(s) && s'.txs == s.txs && s.chain <= s'.chain
    requires s.execs.Keys <= s'.execs.Keys && forall t :: t in s.execs ==> s'.execs[t].claim == s.execs[t].claim
    ensures Txs(s')
  {
  }

  lemma ClaimTaken(jobs: map<JobKey, Job>, execs: map<Token, Exec>, k: JobKey, t: Token, j: Job, x: Exec)
    requires Claims(jobs, execs) && k in jobs && jobs[k].status == Pending && t !in execs
    requires j.status == Processing && j.token == Some(t) && j.retries == jobs[k].retries
    requires x.claim == Claim(k, t, j.retries)
    ensures Claims(jobs[k := j], execs[t := x])
  {
    forall i | i in jobs ensures ClaimOk(execs[t := x], i, jobs[k := j][i]) { assert ClaimOk(execs, i, jobs[i]); }
  }

  lemma ClaimTakenLinks(db: Db, db': Db, execs: map<Token, Exec>, k: JobKey, t: Token, j: Job, x: Exec)
    requires Claims(db.jobs, execs) && StaysMinted(db, execs) && HandedOver(db, execs) && t !in execs
    requires k in db.jobs && db'.nfts == db.nfts && db'.jobs == db.jobs[k := j]
    requires j.status == Processing && j.token == Some(t) && x.body == WillRead
    ensures StaysMinted(db', execs[t := x]) && HandedOver(db', execs[t := x])
  {
    forall i | i in db.jobs ensures db.jobs[i].token != Some(t) { assert ClaimOk(execs, i, db.jobs[i]); }
    assert forall n :: PastMint(db'.jobs, execs[t := x], n) ==> PastMint(db.jobs, execs, n);
    assert forall n :: Through(db'.jobs, execs[t := x], n) ==> Through(db.jobs, execs, n);
  }

  lemma TakeClaimKeeps(s: State, k: JobKey, t: Token)
    requires Inv(s) && Enabled(s, TakeClaim(k, t))
    ensures Inv(Apply(s, TakeClaim(k, t)))
  {
    hide RowOk, ClaimOk, StaysMinted, HandedOver, Txs, ExecOk, Rows;
    var s' := Apply(s, TakeClaim(k, t));
    ClaimTaken(s.db.jobs, s.execs, k, t, s'.db.jobs[k], s'.execs[t]);
    assert k.nft in s.db.nfts by { JobHasRow(s, k); }
    RowsGrow(s.db, s'.db, s.chain, s.chain);
    ExecsGrow(s.db, s'.db, s.chain, s.chain, s.execs);
    assert ExecOk(s'.db, s.chain, s'.execs[t]) by { FreshExecOk(s'.db, s.chain, s'.execs[t]); }
    ClaimTakenLinks(s.db, s'.db, s.execs, k, t, s'.db.jobs[k], s'.execs[t]);
    SameTxs(s, s');
  }

  lemma JobHasRow(s: State, k: JobKey)
    requires Rows(s.db, s.chain) && k in s.db.jobs
    ensures k.nft in s.db.nfts
  {
  }

  lemma FreshExecOk(db: Db, chain: set<NftId>, x: Exec)
    requires x.claim.key.nft in db.nfts && x.seen.None? && x.body == WillRead
    ensures ExecOk(db, chain, x)
  {
  }

  lemma LandKeeps(s: State, t: Token)
    requires Inv(s) && Enabled(s, Land(t))
    ensures Inv(Apply(s, Land(t)))
  {
    hide Claims, StaysMinted, HandedOver, Rows, Execs, Txs;
    var s' := Apply(s, Land(t));
    TxsMove(s, t, s'.txs[t]);
    RowsGrow(s.db, s.db, s.chain, s'.chain);
    ExecsGrow(s.db, s.db, s.chain, s'.chain, s.execs);
  }

  /** Jobs put back to PENDING by someone who is not their claimant, and rows that move without losing a MINTED
      status. */
  ghost predicate Requeues(db: Db, db': Db) {
    && db'.jobs.Keys == db.jobs.Keys
    && (forall k :: k in db.jobs ==>
          db'.jobs[k] == db.jobs[k]
            || (db'.jobs[k].status == Pending && db'.jobs[k].token.None? && db'.jobs[k].retries < MAX_RETRY))
    && (forall n :: n in db.nfts && n in db'.nfts && db.nfts[n].status == Minted ==> db'.nfts[n].status == Minted)
  }

  lemma RequeueLinks(db: Db, db': Db, execs: map<Token, Exec>)
    requires StaysMinted(db, execs) && HandedOver(db, execs) && Requeues(db, db')
    requires db'.nfts.Keys == db.nfts.Keys && forall n :: n in db.nfts ==> db'.nfts[n].parent == db.nfts[n].parent
    ensures StaysMinted(db', execs) && HandedOver(db', execs)
  {
    assert forall n :: PastMint(db'.jobs, execs, n) ==> PastMint(db.jobs, execs, n);
    assert forall n :: Through(db'.jobs, execs, n) ==> Through(db.jobs, execs, n);
  }

  lemma RequeueClaims(db: Db, db': Db, execs: map<Token, Exec>)
    requires Claims(db.jobs, execs) && Requeues(db, db')
    ensures Claims(db'.jobs, execs)
  {
    forall k | k in db'.jobs ensures ClaimOk(execs, k, db'.jobs[k]) { assert ClaimOk(execs, k, db.jobs[k]); }
  }

  lemma RequeueKeeps(s: State, db': Db)
    requires Inv(s) && Requeues(s.db, db') && RowsMove(s.db, db', s.chain)
    ensures Inv(s.(db := db'))
  {
    hide RowOk, RowMove, ClaimOk, StaysMinted, HandedOver, Txs, ExecOk;
    RequeueClaims(s.db, db', s.execs);
    RowsAfterMove(s.db, db', s.chain);
    ExecsAfterMove(s.db, db', s.chain, s.execs);
    ParentsFixed(s.db, db', s.chain);
    RequeueLinks(s.db, db', s.execs);
    SameTxs(s, s.(db := db'));
  }

  lemma ReclaimKeeps(s: State, ks: set<JobKey>)
    requires Inv(s) && Enabled(s, ReclaimStale(ks))
    ensures Inv(Apply(s, ReclaimStale(ks)))
  {
    hide RowOk, StaysMinted, HandedOver, Txs, ExecOk, Rows, Execs;
    forall k | k in ks ensures s.db.jobs[k].retries < MAX_RETRY { assert ClaimOk(s.execs, k, s.db.jobs[k]); }
    RequeueKeeps(s, s.db.RequeueStale(ks, s.clock));
  }

  lemma OperatorKeeps(s: State, k: JobKey)
    requires Inv(s) && Enabled(s, Operator(k))
    ensures Inv(Apply(s, Operator(k)))
  {
    hide RowOk, StaysMinted, HandedOver, Txs, ExecOk, Rows, Execs;
    assert ClaimOk(s.execs, k, s.db.jobs[k]);
    RequeueKeeps(s, s.db.OperatorRequeue(k, s.clock));
  }

  lemma StepKeeps(s: State, st: Step)
    requires Inv(s) && Enabled(s, st)
    ensures Inv(Apply(s, st))
  {
    hide Claims, Rows, Execs, Txs, StaysMinted, HandedOver;
    match st
    case Tick(d) => SameTxs(s, Apply(s, st));
    case EnqueueParent(n) => EnqueueKeeps(s, n, NinjaParent, None);
    case EnqueueChild(n, p) => EnqueueKeeps(s, n, CompletionChild, p);
    case TakeClaim(k, t) => TakeClaimKeeps(s, k, t);
    case Go(t) => GoKeeps(s, t);
    case GoUnacknowledged(t) => UnacknowledgedKeeps(s, t);
    case Land(t) => LandKeeps(s, t);
    case ReclaimStale(ks) => ReclaimKeeps(s, ks);
    case Operator(k) => OperatorKeeps(s, k);
    case _ => WrapKeeps(s, st);
  }

  lemma {:induction false} RunKeeps(s: State, steps: seq<Step>, s': State)
    requires Inv(s) && Runs(s, steps, s')
    ensures Inv(s')
    decreases |steps|
  {
    if steps != [] {
      StepKeeps(s, steps[0]);
      RunKeeps(Apply(s, steps[0]), steps[1..], s');
    }
  }

  lemma InitInv()
    ensures Inv(Init())
  {
  }
}
