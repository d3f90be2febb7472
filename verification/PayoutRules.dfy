/** payout-status.ts: what a winner is still owed, as the queries count it, against what requestPayout accepts. */
module PayoutRules {
  import opened Prelude
  import opened LedgerModel
  import opened LedgerSafety
  import opened LedgerTheorems

  predicate HasRowIn(l: Ledger, r: RewardId, s: SubmissionId, st: set<PayoutStatus>) {
    exists i ::
      0 <= i < |l.payouts| && l.payouts[i].reward == r && l.payouts[i].submission == s && l.payouts[i].status in st
  }

  /** payoutRequestableSql: no row of this award yet, and headroom. */
  predicate Requestable(l: Ledger, r: RewardId, s: SubmissionId)
    requires r in l.rewards
  {
    !l.HasRow(r, s) && l.rewards[r].Cap() > l.Allocated(r)
  }

  /** Payable rewards of bounty `b` that submission `s` has a share in: an allocated payout, or one that could still be
      requested. */
  function Owed(l: Ledger, s: SubmissionId, b: BountyId): set<RewardId> {
    set r | r in l.rewards && l.rewards[r].bounty == b && l.rewards[r].status in PAYABLE
            && (HasRowIn(l, r, s, ALLOCATED) || (Requestable(l, r, s) && l.RecipientActive(s)))
  }

  function OwedAndPaid(l: Ledger, s: SubmissionId, b: BountyId): set<RewardId> {
    set r | r in Owed(l, s, b) && HasRowIn(l, r, s, {PaidOut})
  }

  datatype PayoutState = NothingOwed | AllPaid | PartlyPaid | Pending

  /** payoutStatusSql. */
  function PayoutStateOf(l: Ledger, s: SubmissionId, b: BountyId): PayoutState {
    var owed, paid := |Owed(l, s, b)|, |OwedAndPaid(l, s, b)|;
    if owed == 0 then NothingOwed else if paid == owed then AllPaid else if paid > 0 then PartlyPaid else Pending
  }

  /** owesUnpaidRewardSql. */
  predicate OwesUnpaid(l: Ledger, s: SubmissionId, b: BountyId) { PayoutStateOf(l, s, b) in {Pending, PartlyPaid} }

  lemma SubsetCards<T>(a: set<T>, b: set<T>)
    requires a <= b
    ensures |a| <= |b| && (|a| == |b| <==> a == b)
  {
    assert b == a + (b - a);
  }

  /** The counts say: something owed is not paid. */
  lemma OwesMeansUnpaid(l: Ledger, s: SubmissionId, b: BountyId)
    ensures OwesUnpaid(l, s, b) <==> exists r :: r in Owed(l, s, b) && !HasRowIn(l, r, s, {PaidOut})
  {
    hide HasRowIn, Owed;
    var owed, paid := Owed(l, s, b), OwedAndPaid(l, s, b);
    SubsetCards(paid, owed);
    if paid == owed {
      forall r | r in owed ensures HasRowIn(l, r, s, {PaidOut}) { assert r in paid; }
    } else {
      var r :| r in owed && r !in paid;
    }
  }

  /** A payable reward of the bounty holds an allocated payout of this submission that is not paid. */
  predicate AwaitsPayment(l: Ledger, s: SubmissionId, b: BountyId) {
    exists r ::
      r in l.rewards && l.rewards[r].bounty == b && l.rewards[r].status in PAYABLE && HasRowIn(l, r, s, UNSETTLED)
  }

  /** A payable reward of the bounty on which this submission could still be given a payout. */
  predicate AwaitsRequest(l: Ledger, s: SubmissionId, b: BountyId) {
    exists r :: r in l.rewards && l.rewards[r].bounty == b && l.rewards[r].status in PAYABLE && Requestable(l, r, s)
  }

  /** Some operator's requestPayout with amount 1 would succeed on some reward of the bounty. */
  ghost predicate RequestWouldSucceed(l: Ledger, s: SubmissionId, b: BountyId) {
    exists r, admin :: r in l.rewards && l.rewards[r].bounty == b && l.RequestPayout(r, s, 1, admin).Ok?
  }

  /** An award has one row (OnePayoutPerAward: so it is in every run). */
  predicate OneRowEach(l: Ledger) {
    forall i, j :: 0 <= i < j < |l.payouts| && l.payouts[i].reward == l.payouts[j].reward ==>
      l.payouts[i].submission != l.payouts[j].submission
  }

  lemma OwesSplits(l: Ledger, s: SubmissionId, b: BountyId)
    requires OneRowEach(l)
    ensures OwesUnpaid(l, s, b) <==> AwaitsPayment(l, s, b) || (l.RecipientActive(s) && AwaitsRequest(l, s, b))
  {
    hide OwesUnpaid, Total;
    OwesMeansUnpaid(l, s, b);
    forall r ensures HasRowIn(l, r, s, ALLOCATED) && !HasRowIn(l, r, s, {PaidOut}) <==> HasRowIn(l, r, s, UNSETTLED) {
      OneRow(l, r, s);
    }
    forall r | r in Owed(l, s, b) && !HasRowIn(l, r, s, {PaidOut})
      ensures AwaitsPayment(l, s, b) || (l.RecipientActive(s) && AwaitsRequest(l, s, b)) {
      if HasRowIn(l, r, s, ALLOCATED) { assert HasRowIn(l, r, s, UNSETTLED); } else { assert Requestable(l, r, s); }
    }
    if AwaitsPayment(l, s, b) {
      var r :| r in l.rewards && l.rewards[r].bounty == b && l.rewards[r].status in PAYABLE
        && HasRowIn(l, r, s, UNSETTLED);
      assert r in Owed(l, s, b);
    }
    if l.RecipientActive(s) && AwaitsRequest(l, s, b) {
      var r :| r in l.rewards && l.rewards[r].bounty == b && l.rewards[r].status in PAYABLE && Requestable(l, r, s);
      assert r in Owed(l, s, b) && !HasRowIn(l, r, s, {PaidOut});
    }
  }

  /** An award has one row, so "allocated but not paid" and "unsettled" are the same. */
  lemma OneRow(l: Ledger, r: RewardId, s: SubmissionId)
    requires OneRowEach(l)
    ensures HasRowIn(l, r, s, ALLOCATED) && !HasRowIn(l, r, s, {PaidOut}) <==> HasRowIn(l, r, s, UNSETTLED)
  {
    if HasRowIn(l, r, s, UNSETTLED) {
      var i :| 0 <= i < |l.payouts| && l.payouts[i].reward == r && l.payouts[i].submission == s
        && l.payouts[i].status in UNSETTLED;
      assert l.payouts[i].status in ALLOCATED;
    }
  }

  lemma RequestNeeds(l: Ledger, s: SubmissionId, b: BountyId)
    requires l.ApprovedFor(s, b) && b in l.bounties && !l.bounties[b].deleted && InProgress(l.bounties[b].status)
    ensures RequestWouldSucceed(l, s, b) <==> l.RecipientActive(s) && l.HasWallet(s) && AwaitsRequest(l, s, b)
  {
    hide Total, Ledger.HasRow;
    if RequestWouldSucceed(l, s, b) {
      var r, admin :| r in l.rewards && l.rewards[r].bounty == b && l.RequestPayout(r, s, 1, admin).Ok?;
      assert Requestable(l, r, s);
    }
    if l.RecipientActive(s) && l.HasWallet(s) && AwaitsRequest(l, s, b) {
      var r :| r in l.rewards && l.rewards[r].bounty == b && l.rewards[r].status in PAYABLE && Requestable(l, r, s);
      assert l.RequestPayout(r, s, 1, 0).Ok?;
    }
  }

  /** The query and the operation agree: an approved submission whose recipient has a primary wallet is still owed
      something exactly when an allocated payout of it is unpaid or requestPayout would still accept one. */
  lemma RulesAgree(l: Ledger, s: SubmissionId, b: BountyId)
    requires OneRowEach(l) && l.ApprovedFor(s, b) && b in l.bounties && !l.bounties[b].deleted
    requires InProgress(l.bounties[b].status)
    requires l.HasWallet(s)
    ensures OwesUnpaid(l, s, b) <==> AwaitsPayment(l, s, b) || RequestWouldSucceed(l, s, b)
  {
    hide OneRowEach, OwesUnpaid, AwaitsPayment, AwaitsRequest, RequestWouldSucceed;
    OwesSplits(l, s, b);
    RequestNeeds(l, s, b);
  }

  /** Without the wallet they can differ, and exactly when: an active recipient with no primary wallet still counts as
      owed a share that could be requested, although requestPayout refuses it until a wallet is connected. */
  lemma WhenRulesAgree(l: Ledger, s: SubmissionId, b: BountyId)
    requires OneRowEach(l) && l.ApprovedFor(s, b) && b in l.bounties && !l.bounties[b].deleted
    requires InProgress(l.bounties[b].status)
    ensures (OwesUnpaid(l, s, b) <==> AwaitsPayment(l, s, b) || RequestWouldSucceed(l, s, b)) <==>
      (l.HasWallet(s) || !l.RecipientActive(s) || AwaitsPayment(l, s, b) || !AwaitsRequest(l, s, b))
  {
    hide OneRowEach, OwesUnpaid, AwaitsPayment, AwaitsRequest, RequestWouldSucceed;
    OwesSplits(l, s, b);
    RequestNeeds(l, s, b);
  }

  /** So it is after every run of the ledger. */
  lemma RulesAgreeInEveryRun(allowSelf: bool, steps: seq<Step>, s: SubmissionId, b: BountyId)
    requires var l := Run(Init(allowSelf), steps);
      && l.ApprovedFor(s, b) && b in l.bounties && !l.bounties[b].deleted && InProgress(l.bounties[b].status)
        && l.HasWallet(s)
    ensures var l := Run(Init(allowSelf), steps);
      OwesUnpaid(l, s, b) <==> AwaitsPayment(l, s, b) || RequestWouldSucceed(l, s, b)
  {
    var l := Run(Init(allowSelf), steps);
    assert OneRowEach(l) by { Reached(allowSelf, steps); }
    hide OneRowEach, OwesUnpaid, AwaitsPayment, RequestWouldSucceed;
    RulesAgree(l, s, b);
  }

  /** Requesting the share takes it out of the pool and leaves the winner owed: the new row is unsettled. */
  lemma RequestLeavesOwed(l: Ledger, r: RewardId, s: SubmissionId, amount: int, admin: UserId)
    requires l.RequestPayout(r, s, amount, admin).Ok?
    ensures var m := l.RequestPayout(r, s, amount, admin).value;
      AwaitsPayment(m, s, l.rewards[r].bounty) && !l.HasRow(r, s) && r in m.rewards && !Requestable(m, r, s)
  {
    hide Total, Ledger.RequestPayout;
    var row := Awarded(l, r, s, amount, admin);
    var m := l.Award(row);
    assert m.payouts[|l.payouts|] == row;
    assert HasRowIn(m, r, s, UNSETTLED) && m.HasRow(r, s);
  }
}
