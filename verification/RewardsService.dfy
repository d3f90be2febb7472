/** RewardsService and record-refund.js: each transaction as the statements it issues, with the rollback of a thrown
    error. */
module RewardsService {
  import opened Prelude
  import opened TxHash
  import opened LedgerModel
  import Rules = LedgerRules

  /** What the caller of an operation sees of its outcome. */
  function ErrorOf(r: Result<Ledger, Error>): Option<Error> { if r.Ok? then None else Some(r.error) }

  class RewardsService {
    var bounties: map<BountyId, Bounty>
    var rewards: map<RewardId, Reward>
    var payouts: seq<Payout>
    var refunds: seq<Refund>
    var submissions: map<SubmissionId, Submission>
    var owners: map<AgentId, UserId>
    var users: set<UserId>
    var wallets: map<UserId, WalletId>
    const allowSelfApproval: bool

    constructor (allowSelfApproval: bool)
      ensures Tables() == Init(allowSelfApproval)
    {
      this.allowSelfApproval := allowSelfApproval;
      bounties, rewards, payouts, refunds := map[], map[], [], [];
      submissions, owners, users, wallets := map[], map[], {}, map[];
    }

    function Tables(): Ledger
      reads this
    {
      Ledger(bounties, rewards, payouts, refunds, submissions, owners, users, wallets, allowSelfApproval)
    }

    method ConfirmDeposit(r: RewardId, txHash: string, depositedAmount: int) returns (error: Option<Error>)
      modifies this`rewards
      ensures error == ErrorOf(old(Tables()).ConfirmDeposit(r, txHash, depositedAmount))
      ensures Tables() == OrElse(old(Tables()).ConfirmDeposit(r, txHash, depositedAmount), old(Tables()))
      ensures error.None? <==> Rules.MayConfirm(old(Tables()), r, txHash, depositedAmount)
    {
      Rules.WhenADepositIsAccepted(Tables(), r, txHash, depositedAmount);
      if !TokenAmount(depositedAmount) { return Some(InvalidTokenAmount); }
      var hash := NormalizeTxHash(txHash);
      if hash.None? { return Some(InvalidTxHash); }
      var h := hash.value;
      if (exists i :: 0 <= i < |payouts| && payouts[i].hash == Some(h)) || IsRecordedRefund(h) {
        return Some(TxHashAlreadyUsed);
      }
      if r !in rewards || rewards[r].bounty !in bounties || bounties[rewards[r].bounty].deleted {
        return Some(RewardNotFoundOrNotPending);
      }
      if rewards[r].status == DepositPending && depositedAmount >= rewards[r].amount {
        if exists q :: q in rewards && rewards[q].deposit == Some(h) { return Some(TxHashAlreadyUsed); } // unique index
        rewards := rewards[r := rewards[r].(status := Funded, deposit := Some(h), deposited := depositedAmount)];
        return None;
      }
      if rewards[r].status == DepositPending && rewards[r].amount > depositedAmount {
        return Some(DepositBelowRewardAmount);
      }
      return Some(RewardNotFoundOrNotPending);
    }

    predicate IsRecordedRefund(h: Hash)
      reads this
    {
      exists i :: 0 <= i < |refunds| && refunds[i].hash == h
    }

    method RequestPayout(r: RewardId, s: SubmissionId, amount: int, admin: UserId) returns (error: Option<Error>)
      modifies this`payouts, this`rewards
      ensures error == ErrorOf(old(Tables()).RequestPayout(r, s, amount, admin))
      ensures Tables() == OrElse(old(Tables()).RequestPayout(r, s, amount, admin), old(Tables()))
      ensures error.None? <==> exists u :: Rules.MayRequest(old(Tables()), r, s, amount, u)
    {
      hide Total;
      Rules.WhenAPayoutIsGranted(Tables(), r, s, amount, admin);
      if !TokenAmount(amount) { return Some(InvalidTokenAmount); }
      if r !in rewards || rewards[r].bounty !in bounties || bounties[rewards[r].bounty].deleted {
        return Some(RewardNotFound);
      }
      if !InProgress(bounties[rewards[r].bounty].status) { return Some(BountyReviewClosed); }
      if rewards[r].status !in PAYABLE { return Some(RewardNotFunded); }
      if s !in submissions || !submissions[s].approved || submissions[s].bounty != rewards[r].bounty {
        return Some(ApprovedSubmissionOrWalletNotFound);
      }
      var owner := Tables().Recipient(s);
      if owner.None? || owner.value !in users || owner.value !in wallets {
        return Some(ApprovedSubmissionOrWalletNotFound);
      }
      if exists i :: 0 <= i < |payouts| && payouts[i].reward == r && payouts[i].submission == s {
        return Some(PayoutAlreadyRequested);
      }
      if Sum(payouts, r, ALLOCATED) + amount > rewards[r].Cap() { return Some(PayoutExceedsAvailableReward); }
      payouts := payouts + [Payout(r, s, wallets[owner.value], amount, Requested, admin, None, None)];
      AdvanceRewardStatus(r);
      return None;
    }

    method MarkApproved(p: PayoutId, admin: UserId) returns (error: Option<Error>)
      modifies this`payouts
      ensures error == ErrorOf(old(Tables()).MarkApproved(p, admin))
      ensures Tables() == OrElse(old(Tables()).MarkApproved(p, admin), old(Tables()))
      ensures error.None? <==> Rules.MayApprove(old(Tables()), p, admin)
    {
      Rules.WhenAnApprovalIsAccepted(Tables(), p, admin);
      if p >= |payouts| || payouts[p].status !in AWAITING { return Some(PayoutNotFoundOrWrongStatus); }
      var selfApproval := payouts[p].requestedBy == admin;
      if selfApproval && !allowSelfApproval { return Some(PayoutSelfApproval); }
      payouts := payouts[p := payouts[p].(status := Approved, approvedBy := Some(admin))];
      return None;
    }

    method MarkPaid(p: PayoutId, txHash: string) returns (error: Option<Error>)
      modifies this`payouts, this`rewards
      ensures error == ErrorOf(old(Tables()).MarkPaid(p, txHash))
      ensures Tables() == OrElse(old(Tables()).MarkPaid(p, txHash), old(Tables()))
      ensures error.None? <==> Rules.MayPay(old(Tables()), p, txHash)
    {
      hide Total;
      Rules.WhenAPaymentIsRecorded(Tables(), p, txHash);
      var hash := NormalizeTxHash(txHash);
      if hash.None? { return Some(InvalidTxHash); }
      var h := hash.value;
      if p >= |payouts| || payouts[p].reward !in rewards || rewards[payouts[p].reward].bounty !in bounties {
        return Some(PayoutNotFoundOrWrongStatus);
      }
      if Tables().PaidElsewhere(p, h) { return Some(TxHashAlreadyUsed); }
      if (exists q :: q in rewards && rewards[q].deposit == Some(h)) || IsRecordedRefund(h) {
        return Some(TxHashAlreadyUsed);
      }
      var before := payouts;
      if payouts[p].status !in SENDABLE { return Some(PayoutNotFoundOrWrongStatus); }
      payouts := payouts[p := payouts[p].(status := PaidOut, hash := Some(h))];
      var s := payouts[p].submission;
      if s !in submissions || !submissions[s].approved || Tables().Recipient(s).None? {
        payouts := before; // the throw rolls the UPDATE back
        return Some(ApprovedSubmissionNotFound);
      }
      AdvanceRewardStatus(payouts[p].reward);
      return None;
    }

    /** Recompute the status of a reward after one of its payouts changed. */
    method AdvanceRewardStatus(r: RewardId)
      requires r in rewards && rewards[r].bounty in bounties
      modifies this`rewards
      ensures Tables() == old(Tables()).Advance(r)
    {
      hide Total;
      var paidCount, unsettledCount := Count(payouts, r, {PaidOut}), Count(payouts, r, UNSETTLED);
      var paidAmount := Sum(payouts, r, {PaidOut});
      var rw := rewards[r];
      if rw.status in PAYABLE && paidCount > 0 {
        var done := unsettledCount == 0 && (paidCount >= bounties[rw.bounty].maxWinners || paidAmount >= rw.Cap());
        rewards := rewards[r := rw.(status := if done then Paid else PartiallyPaid)];
      }
    }

    /** recordRefund of scripts/record-refund.js. */
    method RecordRefund(r: RewardId, txHash: string) returns (error: Option<Error>)
      modifies this`rewards, this`refunds
      ensures error == ErrorOf(old(Tables()).RecordRefund(r, txHash))
      ensures Tables() == OrElse(old(Tables()).RecordRefund(r, txHash), old(Tables()))
      ensures error.None? <==> Rules.MayRefund(old(Tables()), r, txHash)
    {
      hide Total;
      Rules.WhenARefundIsRecorded(Tables(), r, txHash);
      var hash := NormalizeTxHash(txHash);
      if hash.None? { return Some(InvalidTxHash); }
      var h := hash.value;
      if r !in rewards || rewards[r].bounty !in bounties { return Some(Refused(NoReward)); }
      if bounties[rewards[r].bounty].status != Cancelled { return Some(Refused(NotCancelled)); }
      if rewards[r].status !in REFUNDABLE { return Some(Refused(NotRefundable)); }
      if Count(payouts, r, OPEN) > 0 { return Some(Refused(StillOpen)); }
      var refunded := rewards[r].deposited - Sum(payouts, r, {PaidOut});
      if !(refunded > 0) { return Some(Refused(NothingToRefund)); }
      if Tables().HashDeposited(h) || Tables().HashPaid(h) || Tables().HashRefunded(h) {
        return Some(Refused(HashInUse));
      }
      rewards := rewards[r := rewards[r].(status := Refunded)];
      refunds := refunds + [Refund(r, h, refunded)];
      return None;
    }
  }
}
