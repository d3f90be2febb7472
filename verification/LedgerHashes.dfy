/** The per-hash advisory lock: confirmDeposit, markPaid and recordRefund interleaved at lock, check, write and commit.
    READ COMMITTED: a check sees what is committed when it runs, a write appears at its transaction's commit, row locks
    and the advisory lock are held until then. */
module LedgerHashes {
  import opened TxHash
  import opened LedgerModel

  type TxnId = nat

  /** A PAID payout's bounty and transaction hash. */
  datatype Sent = Sent(bounty: BountyId, hash: Hash)

  /** The committed columns the checks read. */
  datatype View = View(deposits: map<RewardId, Hash>, sent: map<PayoutId, Sent>, refunds: seq<Refund>)
  {
    predicate Deposited(h: Hash) { exists r :: r in deposits && deposits[r] == h }

    predicate Paid(h: Hash) { exists p :: p in sent && sent[p].hash == h }

    predicate PaidOutside(h: Hash, b: BountyId) { exists p :: p in sent && sent[p].hash == h && sent[p].bounty != b }

    predicate Refunded(h: Hash) { exists i :: 0 <= i < |refunds| && refunds[i].hash == h }

    predicate Returned(r: RewardId) { exists i :: 0 <= i < |refunds| && refunds[i].reward == r }
  }

  datatype Phase = Started | Locked | RowLocked | PayoutsChecked | DepositsChecked | AllChecked | Written

  datatype Op =
    | Depositing(r: RewardId)
    | Paying(p: PayoutId, b: BountyId)
    | Refunding(r: RewardId, amount: int)

  datatype Txn = Txn(op: Op, h: Hash, phase: Phase)

  /** `key` is hashtext: hashes may collide on it. `locking` is false only to ask what the lock is for. */
  datatype State = State(db: View, txns: map<TxnId, Txn>, key: Hash -> int, locking: bool)

  datatype Step =
    | Begin(x: TxnId, op: Op, h: Hash)
    | TakeLock(x: TxnId)
    | LockRow(x: TxnId)
    | CheckPayouts(x: TxnId)
    | CheckDeposits(x: TxnId)
    | CheckRefunds(x: TxnId)
    | CheckUse(x: TxnId)
    | Write(x: TxnId)
    | Commit(x: TxnId)
    | Abort(x: TxnId)

  /** The rows locked: the payout from SELECT ... FOR UPDATE on, the reward of a refund likewise, the reward of a
      deposit from its UPDATE on. */
  predicate HoldsPayout(t: Txn, p: PayoutId) { t.op.Paying? && t.op.p == p && t.phase != Started && t.phase != Locked }

  predicate HoldsReward(t: Txn, r: RewardId) {
    (t.op.Refunding? && t.op.r == r && t.phase != Started && t.phase != Locked)
      || (t.op.Depositing? && t.op.r == r && t.phase == Written)
  }

  predicate KeyFree(s: State, x: TxnId, h: Hash) {
    forall y :: y in s.txns && y != x && s.txns[y].phase != Started ==> s.key(s.txns[y].h) != s.key(h)
  }

  predicate PayoutFree(s: State, x: TxnId, p: PayoutId) {
    forall y :: y in s.txns && y != x ==> !HoldsPayout(s.txns[y], p)
  }

  predicate RewardFree(s: State, x: TxnId, r: RewardId) {
    forall y :: y in s.txns && y != x ==> !HoldsReward(s.txns[y], r)
  }

  /** Nobody else is about to commit the same deposit hash: the unique index makes the second writer wait. */
  predicate IndexFree(s: State, x: TxnId, h: Hash) {
    forall y :: y in s.txns && y != x && s.txns[y].op.Depositing? && s.txns[y].phase == Written ==> s.txns[y].h != h
  }

  /** A check that fails, like any refusal, is an Abort. */
  predicate Enabled(s: State, st: Step) {
    match st
    case Begin(x, _, _) => x !in s.txns
    case TakeLock(x) => x in s.txns && s.txns[x].phase == Started && (s.locking ==> KeyFree(s, x, s.txns[x].h))
    case LockRow(x) =>
      x in s.txns && s.txns[x].phase == Locked && (match s.txns[x].op
        case Paying(p, _) => PayoutFree(s, x, p)
        case Refunding(r, _) => RewardFree(s, x, r) && !s.db.Returned(r)
        case Depositing(_) => false)
    case CheckPayouts(x) =>
      x in s.txns && (match s.txns[x].op
        case Depositing(_) => s.txns[x].phase == Locked && !s.db.Paid(s.txns[x].h)
        case Paying(_, b) => s.txns[x].phase == RowLocked && !s.db.PaidOutside(s.txns[x].h, b)
        case Refunding(_, _) => false)
    case CheckDeposits(x) => x in s.txns && s.txns[x].op.Paying? && s.txns[x].phase == PayoutsChecked
      && !s.db.Deposited(s.txns[x].h)
    case CheckRefunds(x) =>
      x in s.txns && !s.txns[x].op.Refunding?
        && s.txns[x].phase == (if s.txns[x].op.Depositing? then PayoutsChecked else DepositsChecked)
      && !s.db.Refunded(s.txns[x].h)
    case CheckUse(x) =>
      x in s.txns && s.txns[x].op.Refunding? && s.txns[x].phase == RowLocked
      && !s.db.Deposited(s.txns[x].h) && !s.db.Paid(s.txns[x].h) && !s.db.Refunded(s.txns[x].h)
    case Write(x) =>
      x in s.txns && s.txns[x].phase == AllChecked && (match s.txns[x].op
        case Depositing(r) => RewardFree(s, x, r) && r !in s.db.deposits && !s.db.Deposited(s.txns[x].h)
          && IndexFree(s, x, s.txns[x].h)
        case Paying(p, _) => p !in s.db.sent
        case Refunding(_, _) => true)
    case Commit(x) => x in s.txns && s.txns[x].phase == Written
    case Abort(x) => x in s.txns
  }

  function Without(txns: map<TxnId, Txn>, x: TxnId): map<TxnId, Txn> { map y | y in txns && y != x :: txns[y] }

  function Committed(db: View, t: Txn): View {
    match t.op
    case Depositing(r) => db.(deposits := db.deposits[r := t.h])
    case Paying(p, b) => db.(sent := db.sent[p := Sent(b, t.h)])
    case Refunding(r, a) => db.(refunds := db.refunds + [Refund(r, t.h, a)])
  }

  function Moved(s: State, x: TxnId, phase: Phase): State
    requires x in s.txns
  {
    s.(txns := s.txns[x := s.txns[x].(phase := phase)])
  }

  function Apply(s: State, st: Step): State
    requires Enabled(s, st)
  {
    match st
    case Begin(x, op, h) => s.(txns := s.txns[x := Txn(op, h, Started)])
    case TakeLock(x) => Moved(s, x, Locked)
    case LockRow(x) => Moved(s, x, RowLocked)
    case CheckPayouts(x) => Moved(s, x, PayoutsChecked)
    case CheckDeposits(x) => Moved(s, x, DepositsChecked)
    case CheckRefunds(x) => Moved(s, x, AllChecked)
    case CheckUse(x) => Moved(s, x, AllChecked)
    case Write(x) => Moved(s, x, Written)
    case Commit(x) => s.(db := Committed(s.db, s.txns[x]), txns := Without(s.txns, x))
    case Abort(x) => s.(txns := Without(s.txns, x))
  }

  ghost predicate Runs(s: State, steps: seq<Step>, s': State)
    decreases |steps|
  {
    if steps == [] then s == s'
    else Enabled(s, steps[0]) && Runs(Apply(s, steps[0]), steps[1..], s')
  }

  function Init(key: Hash -> int, locking: bool): State { State(View(map[], map[], []), map[], key, locking) }

  // ----- One hash, one direction -----

  /** No hash serves twice as a deposit or twice as a refund, none serves in two directions, and payouts that share one
      belong to the same bounty. */
  ghost predicate OneDirection(db: View) {
    && (forall r, q :: r in db.deposits && q in db.deposits && db.deposits[r] == db.deposits[q] ==> r == q)
    && (forall i, j :: 0 <= i < j < |db.refunds| ==> db.refunds[i].hash != db.refunds[j].hash)
    && (forall i, j :: 0 <= i < j < |db.refunds| ==> db.refunds[i].reward != db.refunds[j].reward)
    && (forall p, q :: p in db.sent && q in db.sent && db.sent[p].hash == db.sent[q].hash ==>
      db.sent[p].bounty == db.sent[q].bounty)
    && (forall r, p :: r in db.deposits && p in db.sent ==> db.deposits[r] != db.sent[p].hash)
    && (forall r, i :: r in db.deposits && 0 <= i < |db.refunds| ==> db.deposits[r] != db.refunds[i].hash)
    && (forall p, i :: p in db.sent && 0 <= i < |db.refunds| ==> db.sent[p].hash != db.refunds[i].hash)
  }

  predicate PhaseOk(t: Txn) {
    match t.op
    case Depositing(_) => t.phase != RowLocked && t.phase != DepositsChecked
    case Paying(_, _) => true
    case Refunding(_, _) => t.phase != PayoutsChecked && t.phase != DepositsChecked
  }

  /** What a transaction has checked still holds. */
  predicate ChecksHold(db: View, t: Txn) {
    && PhaseOk(t)
    && (match t.op
        case Depositing(r) =>
          && (t.phase in {PayoutsChecked, AllChecked, Written} ==> !db.Paid(t.h))
          && (t.phase in {AllChecked, Written} ==> !db.Refunded(t.h))
          && (t.phase == Written ==> !db.Deposited(t.h) && r !in db.deposits)
        case Paying(p, b) =>
          && (t.phase in {PayoutsChecked, DepositsChecked, AllChecked, Written} ==> !db.PaidOutside(t.h, b))
          && (t.phase in {DepositsChecked, AllChecked, Written} ==> !db.Deposited(t.h))
          && (t.phase in {AllChecked, Written} ==> !db.Refunded(t.h))
          && (t.phase == Written ==> p !in db.sent)
        case Refunding(r, _) =>
          && (t.phase in {RowLocked, AllChecked, Written} ==> !db.Returned(r))
          && (t.phase in {AllChecked, Written} ==> !db.Deposited(t.h) && !db.Paid(t.h) && !db.Refunded(t.h)))
  }

  predicate Exclusive(s: State) {
    forall x, y :: x in s.txns && y in s.txns && x != y ==>
      && (s.txns[x].phase != Started && s.txns[y].phase != Started ==> s.key(s.txns[x].h) != s.key(s.txns[y].h))
      && (s.txns[x].op.Paying? ==> !(HoldsPayout(s.txns[x], s.txns[x].op.p) && HoldsPayout(s.txns[y], s.txns[x].op.p)))
      && (!s.txns[x].op.Paying? ==> !(HoldsReward(s.txns[x], s.txns[x].op.r) && HoldsReward(s.txns[y], s.txns[x].op.r)))
  }

  ghost predicate Inv(s: State) {
    && s.locking
    && OneDirection(s.db)
    && Exclusive(s)
    && (forall x :: x in s.txns ==> ChecksHold(s.db, s.txns[x]))
  }

  /** A commit leaves standing what a transaction of another hash, payout and reward has checked. */
  lemma CommitKeepsChecks(db: View, c: Txn, t: Txn)
    requires ChecksHold(db, t) && c.phase == Written
    requires t.phase != Started ==> t.h != c.h
    requires c.op.Paying? ==> !HoldsPayout(t, c.op.p)
    requires !c.op.Paying? ==> !HoldsReward(t, c.op.r)
    ensures ChecksHold(Committed(db, c), t)
  {
    var db' := Committed(db, c);
    assert db'.Deposited(t.h) && t.h != c.h ==> db.Deposited(t.h);
    assert db'.Paid(t.h) && t.h != c.h ==> db.Paid(t.h);
    assert t.op.Paying? && db'.PaidOutside(t.h, t.op.b) && t.h != c.h ==> db.PaidOutside(t.h, t.op.b);
    assert db'.Refunded(t.h) && t.h != c.h ==> db.Refunded(t.h);
    if t.op.Refunding? {
      assert db'.Returned(t.op.r) && !(c.op.Refunding? && c.op.r == t.op.r) ==> db.Returned(t.op.r);
    }
  }

  lemma CommitKeepsDirections(db: View, c: Txn)
    requires OneDirection(db) && ChecksHold(db, c) && c.phase == Written
    ensures OneDirection(Committed(db, c))
  {
  }

  lemma MoveKeeps(s: State, x: TxnId, phase: Phase)
    requires Inv(s) && x in s.txns && phase != Started && ChecksHold(s.db, s.txns[x].(phase := phase))
    requires s.txns[x].phase == Started ==> KeyFree(s, x, s.txns[x].h)
    requires s.txns[x].op.Paying? && (s.txns[x].phase in {Started, Locked}) && phase != Locked ==>
      PayoutFree(s, x, s.txns[x].op.p)
    requires s.txns[x].op.Refunding? && (s.txns[x].phase in {Started, Locked}) && phase != Locked ==>
      RewardFree(s, x, s.txns[x].op.r)
    requires s.txns[x].op.Depositing? && phase == Written ==> RewardFree(s, x, s.txns[x].op.r)
    ensures Inv(Moved(s, x, phase))
  {
    hide OneDirection, ChecksHold;
  }

  lemma CommitKeeps(s: State, x: TxnId)
    requires Inv(s) && Enabled(s, Commit(x))
    ensures Inv(Apply(s, Commit(x)))
  {
    hide OneDirection, ChecksHold;
    var c := s.txns[x];
    CommitKeepsDirections(s.db, c);
    forall y | y in s.txns && y != x ensures ChecksHold(Committed(s.db, c), s.txns[y]) {
      CommitKeepsChecks(s.db, c, s.txns[y]);
    }
  }

  lemma StepKeeps(s: State, st: Step)
    requires Inv(s) && Enabled(s, st)
    ensures Inv(Apply(s, st))
  {
    hide OneDirection, Exclusive;
    match st
    case Begin(x, op, h) => BeginKeeps(s, x, op, h);
    case TakeLock(x) => MoveKeeps(s, x, Locked);
    case LockRow(x) => MoveKeeps(s, x, RowLocked);
    case CheckPayouts(x) => MoveKeeps(s, x, PayoutsChecked);
    case CheckDeposits(x) => MoveKeeps(s, x, DepositsChecked);
    case CheckRefunds(x) => MoveKeeps(s, x, AllChecked);
    case CheckUse(x) => MoveKeeps(s, x, AllChecked);
    case Write(x) => MoveKeeps(s, x, Written);
    case Commit(x) => CommitKeeps(s, x);
    case Abort(x) => AbortKeeps(s, x);
  }

  lemma BeginKeeps(s: State, x: TxnId, op: Op, h: Hash)
    requires Inv(s) && x !in s.txns
    ensures Inv(s.(txns := s.txns[x := Txn(op, h, Started)]))
  {
    hide OneDirection;
  }

  lemma AbortKeeps(s: State, x: TxnId)
    requires Inv(s)
    ensures Inv(s.(txns := Without(s.txns, x)))
  {
    hide OneDirection, ChecksHold;
  }

  lemma {:induction false} RunKeeps(s: State, steps: seq<Step>, s': State)
    requires Inv(s) && Runs(s, steps, s')
    ensures Inv(s')
    decreases |steps|
  {
    hide Inv;
    if steps != [] {
      StepKeeps(s, steps[0]);
      RunKeeps(Apply(s, steps[0]), steps[1..], s');
    }
  }

  /** Over every interleaving, and whatever hashes collide on the lock key. */
  lemma OneHashOneDirection(key: Hash -> int, steps: seq<Step>, s: State)
    requires Runs(Init(key, true), steps, s)
    ensures OneDirection(s.db)
  {
    RunKeeps(Init(key, true), steps, s);
  }

  // ----- What the lock is for -----

  lemma {:induction false} Extend(s0: State, steps: seq<Step>, s: State, st: Step)
    returns (longer: seq<Step>, s': State)
    requires Runs(s0, steps, s) && Enabled(s, st)
    ensures Runs(s0, longer, s') && s' == Apply(s, st)
    decreases |steps|
  {
    if steps == [] {
      longer, s' := [st], Apply(s, st);
      assert Runs(s', [], s');
    } else {
      var rest;
      rest, s' := Extend(Apply(s0, steps[0]), steps[1..], s, st);
      longer := [steps[0]] + rest;
      assert longer[1..] == rest;
    }
  }

  // ----- One transaction alone -----

  function Alone(s: State, x: TxnId, t: Txn): State { s.(txns := map[x := t]) }

  /** One more step of the only transaction. */
  lemma Proceeds(s0: State, before: seq<Step>, s: State, x: TxnId, t: Txn, st: Step, phase: Phase)
    returns (steps: seq<Step>)
    requires Runs(s0, before, Alone(s, x, t)) && Enabled(Alone(s, x, t), st)
    requires Apply(Alone(s, x, t), st) == Moved(Alone(s, x, t), x, phase)
    ensures Runs(s0, steps, Alone(s, x, t.(phase := phase)))
  {
    hide Enabled, Apply;
    var s';
    steps, s' := Extend(s0, before, Alone(s, x, t), st);
    assert map[x := t][x := t.(phase := phase)] == map[x := t.(phase := phase)];
  }

  lemma Starts(s0: State, before: seq<Step>, s: State, x: TxnId, op: Op, h: Hash) returns (steps: seq<Step>)
    requires Runs(s0, before, s) && s.txns == map[]
    ensures Runs(s0, steps, Alone(s, x, Txn(op, h, Locked)))
  {
    hide Runs;
    var a;
    steps, a := Extend(s0, before, s, Begin(x, op, h));
    assert a == Alone(s, x, Txn(op, h, Started));
    steps := Proceeds(s0, steps, s, x, Txn(op, h, Started), TakeLock(x), Locked);
  }

  /** A payment whose hash nothing speaks against reaches its UPDATE. */
  lemma PaymentChecks(s0: State, before: seq<Step>, s: State, x: TxnId, p: PayoutId, b: BountyId, h: Hash)
    returns (steps: seq<Step>)
    requires Runs(s0, before, s) && s.txns == map[]
    requires !s.db.PaidOutside(h, b) && !s.db.Deposited(h) && !s.db.Refunded(h)
    ensures Runs(s0, steps, Alone(s, x, Txn(Paying(p, b), h, AllChecked)))
  {
    hide Runs;
    var t := Txn(Paying(p, b), h, Locked);
    steps := Starts(s0, before, s, x, t.op, h);
    steps := Proceeds(s0, steps, s, x, t, LockRow(x), RowLocked);
    steps := Proceeds(s0, steps, s, x, t.(phase := RowLocked), CheckPayouts(x), PayoutsChecked);
    steps := Proceeds(s0, steps, s, x, t.(phase := PayoutsChecked), CheckDeposits(x), DepositsChecked);
    steps := Proceeds(s0, steps, s, x, t.(phase := DepositsChecked), CheckRefunds(x), AllChecked);
  }

  lemma DepositChecks(s0: State, before: seq<Step>, s: State, x: TxnId, r: RewardId, h: Hash) returns (steps: seq<Step>)
    requires Runs(s0, before, s) && s.txns == map[] && !s.db.Paid(h) && !s.db.Refunded(h)
    ensures Runs(s0, steps, Alone(s, x, Txn(Depositing(r), h, AllChecked)))
  {
    hide Runs;
    var t := Txn(Depositing(r), h, Locked);
    steps := Starts(s0, before, s, x, t.op, h);
    steps := Proceeds(s0, steps, s, x, t, CheckPayouts(x), PayoutsChecked);
    steps := Proceeds(s0, steps, s, x, t.(phase := PayoutsChecked), CheckRefunds(x), AllChecked);
  }

  lemma RefundChecks(s0: State, before: seq<Step>, s: State, x: TxnId, r: RewardId, a: int, h: Hash)
    returns (steps: seq<Step>)
    requires Runs(s0, before, s) && s.txns == map[]
    requires !s.db.Returned(r) && !s.db.Deposited(h) && !s.db.Paid(h) && !s.db.Refunded(h)
    ensures Runs(s0, steps, Alone(s, x, Txn(Refunding(r, a), h, AllChecked)))
  {
    hide Runs;
    var t := Txn(Refunding(r, a), h, Locked);
    steps := Starts(s0, before, s, x, t.op, h);
    steps := Proceeds(s0, steps, s, x, t, LockRow(x), RowLocked);
    steps := Proceeds(s0, steps, s, x, t.(phase := RowLocked), CheckUse(x), AllChecked);
  }

  /** Its write and commit. */
  lemma Finishes(s0: State, before: seq<Step>, s: State, x: TxnId, t: Txn) returns (steps: seq<Step>)
    requires Runs(s0, before, Alone(s, x, t)) && t.phase == AllChecked
    requires t.op.Depositing? ==> t.op.r !in s.db.deposits && !s.db.Deposited(t.h)
    requires t.op.Paying? ==> t.op.p !in s.db.sent
    ensures Runs(s0, steps, s.(db := Committed(s.db, t), txns := map[]))
  {
    hide Runs;
    var s';
    steps := Proceeds(s0, before, s, x, t, Write(x), Written);
    steps, s' := Extend(s0, steps, Alone(s, x, t.(phase := Written)), Commit(x));
    assert s'.txns == map[];
  }

  // ----- What the lock is for -----

  /** Without the lock a payout and a refund both find the hash unused, and both record it. */
  lemma WithoutTheLock(key: Hash -> int, h: Hash) returns (steps: seq<Step>, s: State)
    ensures Runs(Init(key, false), steps, s) && s.db.Paid(h) && s.db.Refunded(h)
  {
    var s0 := Init(key, false);
    assert Runs(s0, [], s0);
    hide Runs;
    steps := PaymentChecks(s0, [], s0, 0, 0, 0, h);
    steps, s :=
      SecondChecks(s0, steps, Alone(s0, 0, Txn(Paying(0, 0), h, AllChecked)), h, Txn(Paying(0, 0), h, AllChecked));
    steps, s := BothCommit(s0, steps, s, h);
  }

  lemma SecondChecks(s0: State, before: seq<Step>, s: State, h: Hash, t: Txn) returns (steps: seq<Step>, s': State)
    requires Runs(s0, before, s) && s.db == View(map[], map[], []) && s.txns == map[0 := t] && t.op.Paying?
    requires !s.locking
    ensures Runs(s0, steps, s') && s' == s.(txns := map[0 := t, 1 := Txn(Refunding(0, 1), h, AllChecked)])
  {
    hide Runs;
    steps, s' := Extend(s0, before, s, Begin(1, Refunding(0, 1), h));
    steps, s' := Extend(s0, steps, s', TakeLock(1));
    steps, s' := Extend(s0, steps, s', LockRow(1));
    steps, s' := Extend(s0, steps, s', CheckUse(1));
  }

  lemma BothCommit(s0: State, before: seq<Step>, s: State, h: Hash) returns (steps: seq<Step>, s': State)
    requires Runs(s0, before, s) && s.db == View(map[], map[], [])
    requires s.txns == map[0 := Txn(Paying(0, 0), h, AllChecked), 1 := Txn(Refunding(0, 1), h, AllChecked)]
    ensures Runs(s0, steps, s') && s'.db.Paid(h) && s'.db.Refunded(h)
  {
    hide Runs;
    steps, s' := Extend(s0, before, s, Write(0));
    steps, s' := Extend(s0, steps, s', Write(1));
    steps, s' := Extend(s0, steps, s', Commit(0));
    steps, s' := Extend(s0, steps, s', Commit(1));
    assert s'.db.sent[0].hash == h && s'.db.refunds[0].hash == h;
  }
}
