/** Rewards and payouts: the tables, the status sets of payout-status.ts, and each transaction as a function on the
    tables. */
module LedgerModel {
  import opened Prelude
  import opened TxHash

  type BountyId = nat
  type RewardId = nat
  type PayoutId = nat
  type SubmissionId = nat
  type UserId = nat
  type AgentId = nat
  type WalletId = nat

  datatype BountyStatus = Draft | FundingPending | Open | SubmissionClosed | InReview | Completed | Cancelled

  predicate InProgress(st: BountyStatus) { st in {Open, SubmissionClosed, InReview} }

  /** The operator's transitions. Nothing leaves COMPLETED or CANCELLED. */
  function TransitionsFrom(st: BountyStatus): set<BountyStatus> {
    match st
    case Draft => {FundingPending, Open, Cancelled}
    case FundingPending => {Open, Cancelled}
    case Open => {SubmissionClosed, Cancelled}
    case SubmissionClosed => {InReview, Open}
    case InReview => {Completed, Open}
    case _ => {}
  }

  datatype RewardStatus = DepositPending | Funded | PartiallyPaid | Paid | RefundPending | Refunded | RewardCancelled

  datatype PayoutStatus = Requested | AwaitingMultisig | Approved | Broadcasting | PaidOut | Failed | PayoutCancelled

  const AWAITING := {Requested, AwaitingMultisig}
  const SENDABLE := {Approved, Broadcasting}
  const OPEN := AWAITING + SENDABLE
  const ALLOCATED := OPEN + {PaidOut, Failed}
  const UNSETTLED := OPEN + {Failed}
  const PAYABLE := {Funded, PartiallyPaid, Paid}
  const REFUNDABLE := PAYABLE + {RefundPending}

  datatype Bounty = Bounty(status: BountyStatus, deleted: bool, maxWinners: nat)

  datatype Reward = Reward(bounty: BountyId, amount: nat, status: RewardStatus, deposit: Option<Hash>, deposited: nat)
  {
    function Cap(): nat { if amount <= deposited then amount else deposited }
  }

  datatype Payout = Payout(reward: RewardId, submission: SubmissionId, wallet: WalletId, amount: nat,
      status: PayoutStatus, requestedBy: UserId, approvedBy: Option<UserId>, hash: Option<Hash>)

  datatype Submission = Submission(bounty: BountyId, approved: bool, submitter: Option<UserId>, agent: Option<AgentId>)

  /** One REWARD_REFUNDED audit row. */
  datatype Refund = Refund(reward: RewardId, hash: Hash, amount: int)

  datatype Refusal = NoReward | NotCancelled | NotRefundable | StillOpen | NothingToRefund | HashInUse

  datatype Error =
    | InvalidTokenAmount | InvalidTxHash | TxHashAlreadyUsed | RewardNotFoundOrNotPending | DepositBelowRewardAmount
    | RewardNotFound | BountyReviewClosed | RewardNotFunded | ApprovedSubmissionOrWalletNotFound
    | PayoutAlreadyRequested | PayoutExceedsAvailableReward | PayoutNotFoundOrWrongStatus | PayoutSelfApproval
    | ApprovedSubmissionNotFound | Refused(reason: Refusal)

  const TEN_TO_30: nat := 1_000_000_000_000_000_000_000_000_000_000

  /** A positive integer of at most 30 digits. */
  predicate TokenAmount(a: int) { 1 <= a < TEN_TO_30 }

  // ----- Sums over payout rows -----

  function Total(ps: seq<Payout>, f: Payout -> nat): nat {
    if ps == [] then 0 else Total(ps[..|ps| - 1], f) + f(ps[|ps| - 1])
  }

  function AmountIf(r: RewardId, st: set<PayoutStatus>): Payout -> nat {
    (p: Payout) => if p.reward == r && p.status in st then p.amount else 0
  }

  function OneIf(r: RewardId, st: set<PayoutStatus>): Payout -> nat {
    (p: Payout) => if p.reward == r && p.status in st then 1 else 0
  }

  function Sum(ps: seq<Payout>, r: RewardId, st: set<PayoutStatus>): nat { Total(ps, AmountIf(r, st)) }

  function Count(ps: seq<Payout>, r: RewardId, st: set<PayoutStatus>): nat { Total(ps, OneIf(r, st)) }

  function RefundedSum(fs: seq<Refund>, r: RewardId): int {
    if fs == [] then 0
    else RefundedSum(fs[..|fs| - 1], r) + (if fs[|fs| - 1].reward == r then fs[|fs| - 1].amount else 0)
  }

  // ----- The tables -----

  /** `payouts` and `refunds` only grow, so their positions are the row ids. `wallets` holds the connected primary
      wallets. */
  datatype Ledger = Ledger(bounties: map<BountyId, Bounty>, rewards: map<RewardId, Reward>, payouts: seq<Payout>,
      refunds: seq<Refund>, submissions: map<SubmissionId, Submission>, owners: map<AgentId, UserId>,
      users: set<UserId>, wallets: map<UserId, WalletId>, allowSelf: bool)
  {
    function Allocated(r: RewardId): nat { Sum(payouts, r, ALLOCATED) }

    function PaidSum(r: RewardId): nat { Sum(payouts, r, {PaidOut}) }

    predicate Has(r: RewardId) { r in rewards && rewards[r].bounty in bounties }

    predicate HashPaid(h: Hash) { exists i :: 0 <= i < |payouts| && payouts[i].hash == Some(h) }

    predicate HashDeposited(h: Hash) { exists r :: r in rewards && rewards[r].deposit == Some(h) }

    predicate HashRefunded(h: Hash) { exists i :: 0 <= i < |refunds| && refunds[i].hash == h }

    predicate HasRow(r: RewardId, s: SubmissionId) {
      exists i :: 0 <= i < |payouts| && payouts[i].reward == r && payouts[i].submission == s
    }

    /** The person a submission belongs to: the submitter, or the owner of the submitting agent. */
    function Recipient(s: SubmissionId): Option<UserId> {
      if s !in submissions then None
      else if submissions[s].submitter.Some? then submissions[s].submitter
      else if submissions[s].agent.Some? && submissions[s].agent.value in owners
        then Some(owners[submissions[s].agent.value])
      else None
    }

    predicate RecipientActive(s: SubmissionId) { Recipient(s).Some? && Recipient(s).value in users }

    predicate HasWallet(s: SubmissionId) { Recipient(s).Some? && Recipient(s).value in wallets }

    predicate ApprovedFor(s: SubmissionId, b: BountyId) {
      s in submissions && submissions[s].approved && submissions[s].bounty == b
    }

    /** advanceRewardStatus: recompute the stored status from the payout rows, once something is paid. */
    function Advanced(r: RewardId): Reward
      requires Has(r)
    {
      var rw := rewards[r];
      if rw.status in PAYABLE && Count(payouts, r, {PaidOut}) > 0 then
        var settled := Count(payouts, r, UNSETTLED) == 0
          && (Count(payouts, r, {PaidOut}) >= bounties[rw.bounty].maxWinners || PaidSum(r) >= rw.Cap());
        rw.(status := if settled then Paid else PartiallyPaid)
      else rw
    }

    function Advance(r: RewardId): Ledger
      requires Has(r)
    {
      this.(rewards := rewards[r := Advanced(r)])
    }

    /** The reward row after an accepted deposit. */
    function Fund(r: RewardId, h: Hash, amount: nat): Ledger
      requires r in rewards
    {
      this.(rewards := rewards[r := rewards[r].(status := Funded, deposit := Some(h), deposited := amount)])
    }

    /** A new payout row. */
    function Award(row: Payout): Ledger
      requires Has(row.reward)
    {
      this.(payouts := payouts + [row]).Advance(row.reward)
    }

    /** A payout row replaced. */
    function Put(p: PayoutId, row: Payout): Ledger
      requires p < |payouts|
    {
      this.(payouts := payouts[p := row])
    }

    /** The reward closed and the refund recorded. */
    function Return(r: RewardId, h: Hash): Ledger
      requires r in rewards
    {
      this.(rewards := rewards[r := rewards[r].(status := Refunded)],
        refunds := refunds + [Refund(r, h, rewards[r].deposited - PaidSum(r))])
    }

    function ConfirmDeposit(r: RewardId, raw: string, amount: int): Result<Ledger, Error> {
      if !TokenAmount(amount) then Err(InvalidTokenAmount)
      else if NormalizeTxHash(raw).None? then Err(InvalidTxHash)
      else
        var h := NormalizeTxHash(raw).value;
        if HashPaid(h) || HashRefunded(h) then Err(TxHashAlreadyUsed)
        else if !Has(r) || bounties[rewards[r].bounty].deleted then Err(RewardNotFoundOrNotPending)
        else if rewards[r].status != DepositPending then Err(RewardNotFoundOrNotPending)
        else if rewards[r].amount > amount then Err(DepositBelowRewardAmount)
        else if HashDeposited(h) then Err(TxHashAlreadyUsed)
        else Ok(Fund(r, h, amount))
    }

    function RequestPayout(r: RewardId, s: SubmissionId, amount: int, admin: UserId): Result<Ledger, Error> {
      if !TokenAmount(amount) then Err(InvalidTokenAmount)
      else if !Has(r) || bounties[rewards[r].bounty].deleted then Err(RewardNotFound)
      else if !InProgress(bounties[rewards[r].bounty].status) then Err(BountyReviewClosed)
      else if rewards[r].status !in PAYABLE then Err(RewardNotFunded)
      else if !ApprovedFor(s, rewards[r].bounty) || !RecipientActive(s) then Err(ApprovedSubmissionOrWalletNotFound)
      else if !HasWallet(s) then Err(ApprovedSubmissionOrWalletNotFound)
      else if HasRow(r, s) then Err(PayoutAlreadyRequested)
      else if Allocated(r) + amount > rewards[r].Cap() then Err(PayoutExceedsAvailableReward)
      else Ok(Award(Payout(r, s, wallets[Recipient(s).value], amount, Requested, admin, None, None)))
    }

    function MarkApproved(p: PayoutId, admin: UserId): Result<Ledger, Error> {
      if p >= |payouts| || payouts[p].status !in AWAITING then Err(PayoutNotFoundOrWrongStatus)
      else if payouts[p].requestedBy == admin && !allowSelf then Err(PayoutSelfApproval)
      else Ok(Put(p, payouts[p].(status := Approved, approvedBy := Some(admin))))
    }

    /** `h` is on a PAID payout of another bounty than payout `p`'s. */
    predicate PaidElsewhere(p: PayoutId, h: Hash)
      requires p < |payouts| && Has(payouts[p].reward)
    {
      exists i ::
        0 <= i < |payouts| && i != p && payouts[i].hash == Some(h) && payouts[i].status == PaidOut
        && Has(payouts[i].reward)
        && rewards[payouts[i].reward].bounty != rewards[payouts[p].reward].bounty
    }

    function MarkPaid(p: PayoutId, raw: string): Result<Ledger, Error> {
      if NormalizeTxHash(raw).None? then Err(InvalidTxHash)
      else
        var h := NormalizeTxHash(raw).value;
        if p >= |payouts| || !Has(payouts[p].reward) then Err(PayoutNotFoundOrWrongStatus)
        else if PaidElsewhere(p, h) || HashDeposited(h) || HashRefunded(h) then Err(TxHashAlreadyUsed)
        else if payouts[p].status !in SENDABLE then Err(PayoutNotFoundOrWrongStatus)
        else
          var s := payouts[p].submission;
          if s !in submissions || !submissions[s].approved || Recipient(s).None? then Err(ApprovedSubmissionNotFound)
          else Ok(Put(p, payouts[p].(status := PaidOut, hash := Some(h))).Advance(payouts[p].reward))
    }

    function RefusalReason(r: RewardId): Option<Refusal> {
      if !Has(r) then Some(NoReward)
      else if bounties[rewards[r].bounty].status != Cancelled then Some(NotCancelled)
      else if rewards[r].status !in REFUNDABLE then Some(NotRefundable)
      else if Count(payouts, r, OPEN) > 0 then Some(StillOpen)
      else if rewards[r].deposited - PaidSum(r) <= 0 then Some(NothingToRefund)
      else None
    }

    function RecordRefund(r: RewardId, raw: string): Result<Ledger, Error> {
      if NormalizeTxHash(raw).None? then Err(InvalidTxHash)
      else
        var h := NormalizeTxHash(raw).value;
        if RefusalReason(r).Some? then Err(Refused(RefusalReason(r).value))
        else if HashDeposited(h) || HashPaid(h) || HashRefunded(h) then Err(Refused(HashInUse))
        else Ok(Return(r, h))
    }

    // ----- What operators do by hand, as the runbook prescribes -----

    /** Close an award that is not paid, and recompute the reward. */
    function CancelPayout(p: PayoutId): Ledger {
      if p < |payouts| && payouts[p].status in {Requested, AwaitingMultisig, Approved, Failed} && Has(payouts[p].reward)
      then Put(p, payouts[p].(status := PayoutCancelled)).Advance(payouts[p].reward) else this
    }

    /** Correct the amount of an unsent payout; its approval starts over. */
    function CorrectPayout(p: PayoutId, amount: int): Ledger {
      if p < |payouts| && payouts[p].status in {Requested, AwaitingMultisig, Approved} && payouts[p].reward in rewards
        && amount > 0
         && Allocated(payouts[p].reward) - payouts[p].amount + amount <= rewards[payouts[p].reward].Cap()
      then Put(p, payouts[p].(amount := amount, status := Requested, approvedBy := None)) else this
    }

    function FailPayout(p: PayoutId): Ledger {
      if p < |payouts| && payouts[p].status in OPEN then Put(p, payouts[p].(status := Failed)) else this
    }

    function AwaitMultisig(p: PayoutId): Ledger {
      if p < |payouts| && payouts[p].status == Requested then Put(p, payouts[p].(status := AwaitingMultisig)) else this
    }

    function Broadcast(p: PayoutId): Ledger {
      if p < |payouts| && payouts[p].status == Approved then Put(p, payouts[p].(status := Broadcasting)) else this
    }

    function AwaitRefund(r: RewardId): Ledger {
      if r in rewards && rewards[r].status in PAYABLE
        then this.(rewards := rewards[r := rewards[r].(status := RefundPending)]) else this
    }

    // ----- What the rest of the system does to these tables -----

    function AddBounty(b: BountyId, maxWinners: nat): Ledger {
      if b in bounties then this else this.(bounties := bounties[b := Bounty(Draft, false, maxWinners)])
    }

    function AddReward(r: RewardId, b: BountyId, posted: int): Ledger {
      if r in rewards || b !in bounties || posted <= 0 then this
      else this.(rewards := rewards[r := Reward(b, posted, DepositPending, None, 0)])
    }

    function MoveBounty(b: BountyId, to: BountyStatus): Ledger {
      if b in bounties && to in TransitionsFrom(bounties[b].status)
        then this.(bounties := bounties[b := bounties[b].(status := to)]) else this
    }

    function DeleteBounty(b: BountyId): Ledger {
      if b in bounties then this.(bounties := bounties[b := bounties[b].(deleted := true)]) else this
    }
  }

  datatype Step =
    | Confirm(r: RewardId, raw: string, amount: int)
    | Request(r: RewardId, s: SubmissionId, amount: int, admin: UserId)
    | Approve(p: PayoutId, admin: UserId)
    | Pay(p: PayoutId, raw: string)
    | Repay(r: RewardId, raw: string)
    | CancelByHand(p: PayoutId)
    | CorrectByHand(p: PayoutId, amount: int)
    | FailByHand(p: PayoutId)
    | AwaitByHand(p: PayoutId)
    | BroadcastByHand(p: PayoutId)
    | RefundPendingByHand(r: RewardId)
    | NewBounty(b: BountyId, maxWinners: nat)
    | NewReward(r: RewardId, b: BountyId, amount: int)
    | Transition(b: BountyId, to: BountyStatus)
    | Delete(b: BountyId)
    | People(submissions: map<SubmissionId, Submission>, owners: map<AgentId, UserId>, users: set<UserId>,
      wallets: map<UserId, WalletId>)

  function OrElse(r: Result<Ledger, Error>, l: Ledger): Ledger { if r.Ok? then r.value else l }

  /** A refused call leaves the tables as they were. */
  function Apply(l: Ledger, st: Step): Ledger {
    match st
    case Confirm(r, raw, a) => OrElse(l.ConfirmDeposit(r, raw, a), l)
    case Request(r, s, a, admin) => OrElse(l.RequestPayout(r, s, a, admin), l)
    case Approve(p, admin) => OrElse(l.MarkApproved(p, admin), l)
    case Pay(p, raw) => OrElse(l.MarkPaid(p, raw), l)
    case Repay(r, raw) => OrElse(l.RecordRefund(r, raw), l)
    case CancelByHand(p) => l.CancelPayout(p)
    case CorrectByHand(p, a) => l.CorrectPayout(p, a)
    case FailByHand(p) => l.FailPayout(p)
    case AwaitByHand(p) => l.AwaitMultisig(p)
    case BroadcastByHand(p) => l.Broadcast(p)
    case RefundPendingByHand(r) => l.AwaitRefund(r)
    case NewBounty(b, n) => l.AddBounty(b, n)
    case NewReward(r, b, a) => l.AddReward(r, b, a)
    case Transition(b, to) => l.MoveBounty(b, to)
    case Delete(b) => l.DeleteBounty(b)
    case People(ss, os, us, ws) => l.(submissions := ss, owners := os, users := us, wallets := ws)
  }

  function Run(l: Ledger, steps: seq<Step>): Ledger
    decreases |steps|
  {
    if steps == [] then l else Run(Apply(l, steps[0]), steps[1..])
  }

  function Init(allowSelf: bool): Ledger { Ledger(map[], map[], [], [], map[], map[], {}, map[], allowSelf) }
}
