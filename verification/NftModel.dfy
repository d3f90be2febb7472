/** The NFT job queue: rows, the transactions that change them, and the
    transition system in which any number of worker executions, the chain and
    operators interleave. */
module NftModel {
  import opened Prelude

  type NftId = nat
  /** claim_token: a fresh one per claim, so it also names the execution the claim starts. */
  type Token = nat

  /** Total attempts per job; the fifth recorded failure is final. */
  const MAX_RETRY := 5
  // Intervals in seconds.
  const RETRY_DELAY := 600
  const POSTPONE_DELAY := 3600
  const STALE_AFTER := 900

  datatype Kind = NinjaParent | CompletionChild

  datatype NftStatus = Waiting | Minting | Minted | Attaching | Attached | Broken

  /** A row of `nft`; PENDING is Waiting and FAILED is Broken, to keep them apart from job statuses. */
  datatype Nft = Nft(kind: Kind, parent: Option<NftId>, status: NftStatus, tokenId: Option<NftId>,
      attachedAt: Option<nat>) {
    /** PARENT_READY and MINT_ALREADY_DONE hold the same two statuses. */
    predicate Ready() { status == Minted || status == Attached }

    predicate Attachable() { status == Minted || status == Attaching }

    /** The CASE of RESTORE_NFT_AFTER_REQUEUE_SQL. */
    function Restored(): Nft {
      if status != Broken then this
      else this.(status := if attachedAt.Some? then Attached else if tokenId.Some? then Minted else Waiting)
    }
  }

  /** The idempotency key. It is unique, and it determines the job's NFT and type. */
  datatype JobKey = MintKey(nft: NftId) | AttachKey(nft: NftId)

  datatype JobStatus = Pending | Processing | Succeeded | Failed

  datatype Job = Job(status: JobStatus, retries: nat, token: Option<Token>, scheduledAt: nat, startedAt: Option<nat>)

  /** What CLAIM_PENDING_JOBS_SQL returns: the claimant's own copy of the row. */
  datatype Claim = Claim(key: JobKey, token: Token, retries: nat)

  function NewJob(now: nat): Job { Job(Pending, 0, None, now, None) }

  /** One upsert per child: a new attach job, or a pending one pulled forward. */
  function Upserted(jobs: map<JobKey, Job>, children: set<NftId>, now: nat): map<JobKey, Job> {
    map k | k in jobs.Keys + (set m | m in children :: AttachKey(m)) ::
      if k !in jobs then NewJob(now)
      else if k.AttachKey? && k.nft in children && jobs[k].status == Pending then jobs[k].(scheduledAt := now)
      else jobs[k]
  }

  // ----- The two tables and every transaction on them -----

  datatype Db = Db(jobs: map<JobKey, Job>, nfts: map<NftId, Nft>) {
    /** `WHERE id = $1 AND status = 'PROCESSING' AND claim_token = $2` */
    predicate Owned(c: Claim) {
      c.key in jobs && jobs[c.key].status == Processing && jobs[c.key].token == Some(c.token)
    }

    predicate Claimable(k: JobKey, now: nat) {
      k in jobs && jobs[k].status == Pending && jobs[k].scheduledAt <= now
    }

    predicate Stale(k: JobKey, now: nat) {
      k in jobs && jobs[k].status == Processing && jobs[k].startedAt.Some?
        && jobs[k].startedAt.value + STALE_AFTER < now
    }

    function ClaimJob(k: JobKey, t: Token, now: nat): Db
      requires k in jobs
    {
      this.(jobs := jobs[k := jobs[k].(status := Processing, token := Some(t), startedAt := Some(now))])
    }

    function Restamp(c: Claim, now: nat): Db {
      if !Owned(c) then this
      else this.(jobs := jobs[c.key := jobs[c.key].(startedAt := Some(now))])
    }

    /** Back to PENDING without spending a retry: at `at` when given, otherwise the schedule stays. */
    function GiveBack(c: Claim, at: Option<nat>): Db {
      if !Owned(c) then this
      else
        var j := jobs[c.key];
        this.(jobs := jobs[c.key := j.(status := Pending, token := None,
                                       scheduledAt := if at.Some? then at.value else j.scheduledAt)])
    }

    function Succeed(c: Claim): Db {
      if !Owned(c) then this
      else this.(jobs := jobs[c.key := jobs[c.key].(status := Succeeded, token := None)])
    }

    /** The pause path: only an unminted MINTING row goes back to PENDING. */
    function Pause(c: Claim): Db {
      if !Owned(c) then this
      else
        var n := c.key.nft;
        var nfts' := if n in nfts && nfts[n].status == Minting && nfts[n].tokenId.None?
                     then nfts[n := nfts[n].(status := Waiting)] else nfts;
        Db(GiveBack(c, None).jobs, nfts')
    }

    /** A recorded failure. Whether it is the last one is decided from the claimant's copy of the count. */
    function Fail(c: Claim, now: nat): Db {
      if !Owned(c) then this
      else
        var n := c.key.nft;
        var exhausted := c.retries + 1 >= MAX_RETRY;
        var j := jobs[c.key];
        var j' := j.(status := if exhausted then Failed else Pending, retries := j.retries + 1, token := None,
                     scheduledAt := if exhausted then j.scheduledAt else now + RETRY_DELAY);
        var nfts' := if exhausted && n in nfts && nfts[n].status != Attached && nfts[n].attachedAt.None?
                     then nfts[n := nfts[n].(status := Broken)] else nfts;
        Db(jobs[c.key := j'], nfts')
    }

    function MarkMinting(c: Claim): Db {
      var n := c.key.nft;
      if !Owned(c) || n !in nfts then this else this.(nfts := nfts[n := nfts[n].(status := Minting)])
    }

    /** token_id is the NFT's own id. */
    function RecordMinted(c: Claim): Db {
      var n := c.key.nft;
      if !Owned(c) || n !in nfts then this
      else this.(nfts := nfts[n := nfts[n].(status := Minted, tokenId := Some(n))])
    }

    predicate WaitsFor(child: NftId, parent: NftId) {
      child in nfts && nfts[child].parent == Some(parent) && nfts[child].kind == CompletionChild
        && nfts[child].status == Minted
    }

    /** The parent's INSERT ... SELECT ... ON CONFLICT DO UPDATE over its MINTED children. */
    function QueueChildren(c: Claim, now: nat): Db {
      if !Owned(c) then this
      else this.(jobs := Upserted(jobs, (set m | m in nfts && WaitsFor(m, c.key.nft)), now))
    }

    /** The child's INSERT ... ON CONFLICT DO NOTHING. */
    function QueueAttach(c: Claim, now: nat): Db {
      var k := AttachKey(c.key.nft);
      if !Owned(c) || k in jobs then this else this.(jobs := jobs[k := NewJob(now)])
    }

    /** parentReady: a fresh read of the parent's row. */
    predicate ParentReady(p: NftId) { p in nfts && nfts[p].kind == NinjaParent && nfts[p].Ready() }

    /** The UPDATE of runAttachJob would touch its row. */
    predicate CanAttach(n: NftId) {
      n in nfts && nfts[n].Attachable() && nfts[n].parent.Some? && nfts[n].parent.value in nfts
        && nfts[nfts[n].parent.value].Ready()
    }

    function Attach(c: Claim, now: nat): Db {
      var n := c.key.nft;
      if !Owned(c) || !CanAttach(n) then this
      else this.(nfts := nfts[n := nfts[n].(status := Attached, attachedAt := Some(now))])
    }

    /** requeueStaleJobs on the set `ks` of reclaimed jobs. */
    function RequeueStale(ks: set<JobKey>, now: nat): Db {
      Db(map k | k in jobs :: if k in ks then jobs[k].(status := Pending, scheduledAt := now, token := None)
        else jobs[k],
         map n | n in nfts ::
           if nfts[n].status == Minting && (MintKey(n) in ks || AttachKey(n) in ks) then nfts[n].(status := Waiting)
           else nfts[n])
    }

    /** REQUEUE_JOB_SQL then RESTORE_NFT_AFTER_REQUEUE_SQL for one FAILED job. */
    function OperatorRequeue(k: JobKey, now: nat): Db
      requires k in jobs
    {
      if jobs[k].status != Failed then this
      else
        Db(jobs[k := jobs[k].(status := Pending, retries := 0, scheduledAt := now, startedAt := None)],
           if k.nft in nfts then nfts[k.nft := nfts[k.nft].Restored()] else nfts)
    }

    /** enqueueParentMintInTransaction / enqueueChildMintInTransaction for a row that does not exist yet. */
    function Enqueue(n: NftId, kind: Kind, parent: Option<NftId>, now: nat): Db {
      Db(if MintKey(n) in jobs then jobs else jobs[MintKey(n) := NewJob(now)],
         nfts[n := Nft(kind, parent, Waiting, None, None)])
    }
  }

  // ----- Executions -----

  datatype Outcome = Done | Deferred | PausedOut | ClaimLost | Threw

  /** Program counter of execute(): the next thing it does. */
  datatype Body =
    | WillRead
    | WillMark
    | WillProbe
    | WillRecover
    | WillRecheck
    | WillBroadcast
    | Broadcasting
    | WillRecord
    | AfterMint
    | WillQueueAttach
    | WillAttach
    | Finished(outcome: Outcome)

  /** Program counter of process(): in the batch, racing execute() against the deadline, past it, or over. */
  datatype Wrap = Held | Racing | TimedOut | Settled

  datatype Exec = Exec(claim: Claim, seen: Option<Nft>, body: Body, wrap: Wrap)

  /** A broadcast mint transaction lands later, or is rejected because the token exists. */
  datatype MintTx = InFlight | Landed | Rejected

  datatype State = State(db: Db, execs: map<Token, Exec>, chain: set<NftId>, txs: map<Token, MintTx>, clock: nat)

  function Init(): State { State(Db(map[], map[]), map[], {}, map[], 0) }

  /** A crashed process is one that takes no more steps. GoThrow is an action that fails without effect,
      GoUnacknowledged one that commits and then reports an error, Land a broadcast mint reaching the chain. */
  datatype Step =
    | Tick(seconds: nat)
    | EnqueueParent(nft: NftId)
    | EnqueueChild(nft: NftId, parent: Option<NftId>)
    | TakeClaim(key: JobKey, t: Token)
    | Hold(t: Token)
    | Release(t: Token)
    | Start(t: Token)
    | NotConfigured(t: Token)
    | Timeout(t: Token)
    | Settle(t: Token)
    | Go(t: Token)
    | GoThrow(t: Token)
    | GoUnacknowledged(t: Token)
    | GoPause(t: Token)
    | Land(t: Token)
    | ReclaimStale(keys: set<JobKey>)
    | Operator(key: JobKey)

  /** execute() runs on after a timeout, until it finishes. */
  predicate BodyRuns(x: Exec) { x.wrap != Held && !x.body.Finished? }

  predicate Enabled(s: State, st: Step) {
    match st
    case Tick(_) => true
    case EnqueueParent(n) => n !in s.db.nfts
    case EnqueueChild(n, p) => n !in s.db.nfts
      && (p.Some? ==> p.value in s.db.nfts && s.db.nfts[p.value].kind == NinjaParent)
    case TakeClaim(k, t) => s.db.Claimable(k, s.clock) && t !in s.execs
    case Hold(t) => t in s.execs && s.execs[t].wrap == Held
    case Release(t) => t in s.execs && s.execs[t].wrap == Held
    case Start(t) => t in s.execs && s.execs[t].wrap == Held
    case NotConfigured(t) => t in s.execs && s.execs[t].wrap == Racing && s.execs[t].body == WillRead
    case Timeout(t) => t in s.execs && s.execs[t].wrap == Racing
    case Settle(t) => t in s.execs
      && (s.execs[t].wrap == TimedOut || (s.execs[t].wrap == Racing && s.execs[t].body.Finished?))
    case Go(t) => t in s.execs && BodyRuns(s.execs[t])
      && (s.execs[t].body == Broadcasting ==> t in s.txs && s.txs[t] == Landed)
    case GoThrow(t) => t in s.execs && BodyRuns(s.execs[t])
    case GoUnacknowledged(t) => t in s.execs && BodyRuns(s.execs[t])
    case GoPause(t) => t in s.execs && BodyRuns(s.execs[t]) && s.execs[t].body == WillBroadcast
    case Land(t) => t in s.execs && t in s.txs && s.txs[t] == InFlight
    case ReclaimStale(ks) => forall k :: k in ks ==> s.db.Stale(k, s.clock)
    case Operator(k) => k in s.db.jobs
  }

  /** What process() does with the result of the race. */
  function SettleDb(db: Db, x: Exec, now: nat): Db {
    if x.wrap == TimedOut then db.Fail(x.claim, now)
    else match x.body
      case Finished(Done) => db.Succeed(x.claim)
      case Finished(Deferred) => db.GiveBack(x.claim, Some(now + POSTPONE_DELAY))
      case Finished(PausedOut) => db.Pause(x.claim)
      case Finished(Threw) => db.Fail(x.claim, now)
      case _ => db
  }

  /** The database effect of execute()'s next action. */
  function GoDb(db: Db, x: Exec, now: nat): Db {
    match x.body
    case WillMark => db.MarkMinting(x.claim)
    case WillRecover => db.RecordMinted(x.claim)
    case WillRecord => db.RecordMinted(x.claim)
    case AfterMint => if x.seen.Some? && x.seen.value.kind == NinjaParent then db.QueueChildren(x.claim, now) else db
    case WillQueueAttach => db.QueueAttach(x.claim, now)
    case WillAttach => db.Attach(x.claim, now)
    case _ => db
  }

  /** Where execute() is after its next action. `db` is the state the action sees. */
  function GoBody(db: Db, chain: set<NftId>, x: Exec): Body {
    var n := x.claim.key.nft;
    var owned := db.Owned(x.claim);
    match x.body
    case WillRead =>
      if !owned then Finished(ClaimLost)
      else if n !in db.nfts then Finished(Threw)
      else if x.claim.key.MintKey? then (if db.nfts[n].Ready() then AfterMint else WillMark)
      else if db.nfts[n].status == Attached then Finished(Done)
      else WillAttach
    case WillMark => if owned then WillProbe else Finished(ClaimLost)
    case WillProbe => if n in chain then WillRecover else WillRecheck
    case WillRecover => if owned then AfterMint else Finished(ClaimLost)
    case WillRecheck => if owned then WillBroadcast else Finished(ClaimLost)
    case WillBroadcast => Broadcasting
    case Broadcasting => WillRecord
    case WillRecord => if owned then AfterMint else Finished(ClaimLost)
    case AfterMint =>
      if x.seen.None? then Finished(Threw)
      else if x.seen.value.kind == NinjaParent then (if owned then Finished(Done) else Finished(ClaimLost))
      else if x.seen.value.parent.None? || x.seen.value.status == Attached then Finished(Done)
      else if !owned then Finished(ClaimLost)
      else if db.ParentReady(x.seen.value.parent.value) then WillQueueAttach
      else Finished(Done)
    case WillQueueAttach => if owned then Finished(Done) else Finished(ClaimLost)
    case WillAttach =>
      if !owned then Finished(ClaimLost)
      else if db.CanAttach(n) then Finished(Done)
      else if x.seen.Some? && x.seen.value.Attachable() then Finished(Deferred)
      else Finished(Threw)
    case Finished(_) => x.body
  }

  function GoExec(db: Db, chain: set<NftId>, x: Exec): Exec {
    var n := x.claim.key.nft;
    x.(body := GoBody(db, chain, x),
       seen := if x.body == WillRead && db.Owned(x.claim) && n in db.nfts then Some(db.nfts[n]) else x.seen)
  }

  function Apply(s: State, st: Step): State
    requires Enabled(s, st)
  {
    match st
    case Tick(d) => s.(clock := s.clock + d)
    case EnqueueParent(n) => s.(db := s.db.Enqueue(n, NinjaParent, None, s.clock))
    case EnqueueChild(n, p) => s.(db := s.db.Enqueue(n, CompletionChild, p, s.clock))
    case TakeClaim(k, t) =>
      s.(db := s.db.ClaimJob(k, t, s.clock),
         execs := s.execs[t := Exec(Claim(k, t, s.db.jobs[k].retries), None, WillRead, Held)])
    case Hold(t) => s.(db := s.db.Restamp(s.execs[t].claim, s.clock))
    case Release(t) => s.(db := s.db.GiveBack(s.execs[t].claim, None),
      execs := s.execs[t := s.execs[t].(wrap := Settled, body := Finished(PausedOut))])
    case Start(t) =>
      var x := s.execs[t];
      s.(db := s.db.Restamp(x.claim, s.clock),
         execs :=
           s.execs[t := if s.db.Owned(x.claim) then x.(wrap := Racing)
           else x.(wrap := Settled, body := Finished(ClaimLost))])
    case NotConfigured(t) =>
      s.(db := s.db.GiveBack(s.execs[t].claim, Some(s.clock + POSTPONE_DELAY)),
         execs := s.execs[t := s.execs[t].(wrap := Settled, body := Finished(PausedOut))])
    case Timeout(t) => s.(execs := s.execs[t := s.execs[t].(wrap := TimedOut)])
    case Settle(t) => s.(db := SettleDb(s.db, s.execs[t], s.clock), execs := s.execs[t := s.execs[t].(wrap := Settled)])
    case Go(t) =>
      var x := s.execs[t];
      s.(db := GoDb(s.db, x, s.clock), execs := s.execs[t := GoExec(s.db, s.chain, x)],
         txs := if x.body == WillBroadcast then s.txs[t := InFlight] else s.txs)
    case GoUnacknowledged(t) =>
      s.(db := GoDb(s.db, s.execs[t], s.clock), execs := s.execs[t := s.execs[t].(body := Finished(Threw))])
    case GoThrow(t) => s.(execs := s.execs[t := s.execs[t].(body := Finished(Threw))])
    case GoPause(t) => s.(execs := s.execs[t := s.execs[t].(body := Finished(PausedOut))])
    case Land(t) =>
      var n := s.execs[t].claim.key.nft;
      if n in s.chain then s.(txs := s.txs[t := Rejected])
      else s.(txs := s.txs[t := Landed], chain := s.chain + {n})
    case ReclaimStale(ks) => s.(db := s.db.RequeueStale(ks, s.clock))
    case Operator(k) => s.(db := s.db.OperatorRequeue(k, s.clock))
  }

  /** `steps` is a run from `s` to `s'`. */
  ghost predicate Runs(s: State, steps: seq<Step>, s': State)
    decreases |steps|
  {
    if steps == [] then s == s'
    else Enabled(s, steps[0]) && Runs(Apply(s, steps[0]), steps[1..], s')
  }

  /** A run and one more step. */
  lemma {:induction false} Extend(s0: State, steps: seq<Step>, s: State, st: Step)
    returns (longer: seq<Step>, s': State)
    requires Runs(s0, steps, s) && Enabled(s, st)
    ensures Runs(s0, longer, s') && s' == Apply(s, st)
    decreases |steps|
  {
    if steps == [] {
      longer, s' := [st], Apply(s, st);
      assert Runs(s', [], s');
    } else {
      var rest;
      rest, s' := Extend(Apply(s0, steps[0]), steps[1..], s, st);
      longer := [steps[0]] + rest;
      assert longer[1..] == rest;
    }
  }
}
