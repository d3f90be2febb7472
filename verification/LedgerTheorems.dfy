/** The promises of the reward ledger, over every run of operations and prescribed manual corrections. */
module LedgerTheorems {
  import opened Prelude
  import opened TxHash
  import opened LedgerModel
  import opened LedgerSafety

  lemma {:induction false} RunKeepsBooks(l: Ledger, steps: seq<Step>)
    requires Books(l)
    ensures Books(Run(l, steps))
    decreases |steps|
  {
    hide Books;
    if steps != [] {
      StepKeepsBooks(l, steps[0]);
      RunKeepsBooks(Apply(l, steps[0]), steps[1..]);
    }
  }

  lemma Reached(allowSelf: bool, steps: seq<Step>)
    ensures Books(Run(Init(allowSelf), steps))
  {
    RunKeepsBooks(Init(allowSelf), steps);
  }

  // ----- Money -----

  /** Allocated payouts never exceed the smaller of the posted and the deposited amount; what was paid out and what was
      refunded never exceed the deposit, and together they are the whole deposit once the reward is REFUNDED. */
  lemma MoneyIsConserved(allowSelf: bool, steps: seq<Step>, r: RewardId)
    requires r in Run(Init(allowSelf), steps).rewards
    ensures var l := Run(Init(allowSelf), steps);
      var rw := l.rewards[r];
      && l.Allocated(r) <= rw.amount && l.Allocated(r) <= rw.deposited
      && l.PaidSum(r) + RefundedSum(l.refunds, r) <= rw.deposited
      && (rw.status == Refunded ==> l.PaidSum(r) + RefundedSum(l.refunds, r) == rw.deposited)
  {
    hide Total;
    var l := Run(Init(allowSelf), steps);
    Reached(allowSelf, steps);
    AllocatedSplits(l.payouts, r);
    TallyAllocated(l.payouts, r);
    assert RewardOk(l.rewards[r], l.bounties[l.rewards[r].bounty].maxWinners, TallyOf(l.payouts, r),
      RefundedSum(l.refunds, r));
  }

  /** The row of a payout that is not changed by a step keeps its place and content. */
  lemma PaidRowStays(l: Ledger, st: Step, p: PayoutId)
    requires p < |l.payouts| && l.payouts[p].status == PaidOut
    ensures p < |Apply(l, st).payouts| && Apply(l, st).payouts[p] == l.payouts[p]
  {
    hide Total, NormalizeTxHash, Ledger.PaidElsewhere, Ledger.HashDeposited, Ledger.HashPaid, Ledger.HashRefunded,
      TransitionsFrom;
  }

  /** PAID is final: amount, recipient, hash and approval of a paid payout never change again. */
  lemma {:induction false} PaidIsFinal(l: Ledger, steps: seq<Step>, p: PayoutId)
    requires p < |l.payouts| && l.payouts[p].status == PaidOut
    ensures p < |Run(l, steps).payouts| && Run(l, steps).payouts[p] == l.payouts[p]
    decreases |steps|
  {
    hide Apply;
    if steps != [] {
      PaidRowStays(l, steps[0], p);
      PaidIsFinal(Apply(l, steps[0]), steps[1..], p);
    }
  }

  // ----- A refunded reward -----

  lemma PutKeepsPaidSum(l: Ledger, p: PayoutId, row: Payout, r: RewardId)
    requires p < |l.payouts| && l.payouts[p].status != PaidOut && row.status != PaidOut
    ensures l.Put(p, row).PaidSum(r) == l.PaidSum(r)
  {
    TotalPut(l.payouts, p, row, AmountIf(r, {PaidOut}));
  }

  lemma AppendKeepsPaidSum(l: Ledger, row: Payout, r: RewardId)
    requires row.status != PaidOut
    ensures Sum(l.payouts + [row], r, {PaidOut}) == l.PaidSum(r)
  {
    TotalAppend(l.payouts, row, AmountIf(r, {PaidOut}));
  }

  ghost predicate SameAccount(l: Ledger, m: Ledger, r: RewardId) {
    r in l.rewards && r in m.rewards && m.rewards[r] == l.rewards[r] && m.PaidSum(r) == l.PaidSum(r)
    && RefundedSum(m.refunds, r) == RefundedSum(l.refunds, r)
  }

  lemma PayElsewhere(l: Ledger, p: PayoutId, h: Hash, r: RewardId)
    requires Books(l) && p < |l.payouts| && l.payouts[p].status in SENDABLE && r in l.rewards
    requires l.rewards[r].status == Refunded
    ensures l.payouts[p].reward != r
    ensures Sum(l.payouts[p := l.payouts[p].(status := PaidOut, hash := Some(h))], r, {PaidOut}) == l.PaidSum(r)
  {
    OpenRowCounts(l, p);
    TotalPut(l.payouts, p, l.payouts[p].(status := PaidOut, hash := Some(h)), AmountIf(r, {PaidOut}));
  }

  lemma RefundedStays(l: Ledger, st: Step, r: RewardId)
    requires Books(l) && r in l.rewards && l.rewards[r].status == Refunded
    ensures SameAccount(l, Apply(l, st), r)
  {
    hide Books, Total, NormalizeTxHash, Ledger.PaidElsewhere, Ledger.HashDeposited, Ledger.HashPaid,
      Ledger.HashRefunded;
    match st
    case Confirm(q, raw, a) => { if l.ConfirmDeposit(q, raw, a).Ok? { Confirmed(l, q, raw, a); } }
    case Request(q, s, a, admin) => RequestElsewhere(l, q, s, a, admin, r);
    case Approve(p, admin) => ApproveElsewhere(l, p, admin, r);
    case Pay(p, raw) => {
      if l.MarkPaid(p, raw).Ok? { Settled(l, p, raw); PayElsewhere(l, p, NormalizeTxHash(raw).value, r); }
    }
    case Repay(q, raw) => RepayElsewhere(l, q, raw, r);
    case _ => OtherStays(l, st, r);
  }

  lemma ApproveElsewhere(l: Ledger, p: PayoutId, admin: UserId, r: RewardId)
    requires r in l.rewards
    ensures SameAccount(l, Apply(l, Approve(p, admin)), r)
  {
    hide Total;
    if l.MarkApproved(p, admin).Ok? {
      PutKeepsPaidSum(l, p, l.payouts[p].(status := Approved, approvedBy := Some(admin)), r);
    }
  }

  lemma RepayElsewhere(l: Ledger, q: RewardId, raw: string, r: RewardId)
    requires r in l.rewards && l.rewards[r].status == Refunded
    ensures SameAccount(l, Apply(l, Repay(q, raw)), r)
  {
    hide Total, RefundedSum, Ledger.Return, SameAccount, Ledger.RecordRefund, NormalizeTxHash, Ledger.HashDeposited,
      Ledger.HashPaid, Ledger.HashRefunded;
    if l.RecordRefund(q, raw).Ok? {
      Returned(l, q, raw);
      ReturnElsewhere(l, q, NormalizeTxHash(raw).value, r);
    } else {
      SameItself(l, r);
    }
  }

  lemma ReturnElsewhere(l: Ledger, q: RewardId, h: Hash, r: RewardId)
    requires q in l.rewards && r in l.rewards && q != r
    ensures SameAccount(l, l.Return(q, h), r)
  {
    hide Total, RefundedSum;
    RefundedSumAppend(l.refunds, Refund(q, h, l.rewards[q].deposited - l.PaidSum(q)), r);
  }

  lemma SameItself(l: Ledger, r: RewardId)
    requires r in l.rewards
    ensures SameAccount(l, l, r)
  {
  }

  lemma RequestElsewhere(l: Ledger, q: RewardId, s: SubmissionId, a: int, admin: UserId, r: RewardId)
    requires r in l.rewards && l.rewards[r].status == Refunded
    ensures SameAccount(l, Apply(l, Request(q, s, a, admin)), r)
  {
    hide Total, Ledger.RequestPayout;
    if l.RequestPayout(q, s, a, admin).Ok? {
      var row := Awarded(l, q, s, a, admin);
      AppendKeepsPaidSum(l, row, r);
    }
  }

  lemma OtherStays(l: Ledger, st: Step, r: RewardId)
    requires r in l.rewards && l.rewards[r].status == Refunded
    requires !st.Confirm? && !st.Request? && !st.Approve? && !st.Pay? && !st.Repay?
    ensures SameAccount(l, Apply(l, st), r)
  {
    hide Total, TransitionsFrom;
    match st
    case CancelByHand(p) => CancelStays(l, p, r);
    case CorrectByHand(p, a) => ByHandStays(l, st, p, r);
    case FailByHand(p) => ByHandStays(l, st, p, r);
    case AwaitByHand(p) => ByHandStays(l, st, p, r);
    case BroadcastByHand(p) => ByHandStays(l, st, p, r);
    case _ =>
  }

  lemma CancelStays(l: Ledger, p: PayoutId, r: RewardId)
    requires r in l.rewards && l.rewards[r].status == Refunded
    ensures SameAccount(l, l.CancelPayout(p), r)
  {
    hide Total;
    if l.CancelPayout(p) != l { PutKeepsPaidSum(l, p, l.payouts[p].(status := PayoutCancelled), r); }
  }

  lemma ByHandStays(l: Ledger, st: Step, p: PayoutId, r: RewardId)
    requires r in l.rewards
    requires (st.CorrectByHand? && st.p == p) || st == FailByHand(p) || st == AwaitByHand(p) || st == BroadcastByHand(p)
    ensures SameAccount(l, Apply(l, st), r)
  {
    hide Total;
    if Apply(l, st) != l {
      var row := Apply(l, st).payouts[p];
      assert Apply(l, st) == l.Put(p, row);
      PutKeepsPaidSum(l, p, row, r);
    }
  }

  /** REFUNDED is final, and so is the account: deposit, paid total and refunded amount stay as they are in every
      continuation. */
  lemma {:induction false} RefundedIsFrozen(l: Ledger, steps: seq<Step>, r: RewardId)
    requires Books(l) && r in l.rewards && l.rewards[r].status == Refunded
    ensures SameAccount(l, Run(l, steps), r)
    decreases |steps|
  {
    hide Books, Apply;
    if steps != [] {
      RefundedStays(l, steps[0], r);
      StepKeepsBooks(l, steps[0]);
      RefundedIsFrozen(Apply(l, steps[0]), steps[1..], r);
    }
  }

  // ----- Stored status, approvals, one payout per award -----

  /** The stored status of a funded reward is the one recomputed from its payout rows. */
  lemma StatusAgrees(allowSelf: bool, steps: seq<Step>, r: RewardId)
    requires var l := Run(Init(allowSelf), steps); r in l.rewards && l.rewards[r].status in PAYABLE
    ensures var l := Run(Init(allowSelf), steps);
      var rw := l.rewards[r];
      var paid := Count(l.payouts, r, {PaidOut});
      && l.Has(r)
      && (rw.status == Funded <==> paid == 0)
      && (rw.status == Paid <==> paid > 0 && Count(l.payouts, r, UNSETTLED) == 0
                                 && (paid >= l.bounties[rw.bounty].maxWinners || l.PaidSum(r) == rw.Cap()))
  {
    hide Total;
    var l := Run(Init(allowSelf), steps);
    Reached(allowSelf, steps);
    AllocatedSplits(l.payouts, r);
    TallyAllocated(l.payouts, r);
    assert RewardOk(l.rewards[r], l.bounties[l.rewards[r].bounty].maxWinners, TallyOf(l.payouts, r),
      RefundedSum(l.refunds, r));
  }

  /** Two-person rule: unless self-approval is switched on, an approved, broadcasting or paid payout was approved by an
      operator other than the one who requested it. */
  lemma TwoPersonRule(steps: seq<Step>, p: PayoutId)
    requires var l := Run(Init(false), steps); p < |l.payouts| && l.payouts[p].status in SENDABLE + {PaidOut}
    ensures var row := Run(Init(false), steps).payouts[p];
      row.approvedBy.Some? && row.approvedBy.value != row.requestedBy
  {
    Reached(false, steps);
    SameSetting(Init(false), steps);
    RowAt(Run(Init(false), steps), p);
  }

  lemma SameSettingStep(l: Ledger, st: Step)
    ensures Apply(l, st).allowSelf == l.allowSelf
  {
    hide Total, NormalizeTxHash, Ledger.HashDeposited, Ledger.HashPaid, Ledger.HashRefunded, Ledger.PaidElsewhere,
      Ledger.HasRow, TransitionsFrom;
  }

  lemma {:induction false} SameSetting(l: Ledger, steps: seq<Step>)
    ensures Run(l, steps).allowSelf == l.allowSelf
    decreases |steps|
  {
    hide Apply;
    if steps != [] {
      SameSettingStep(l, steps[0]);
      SameSetting(Apply(l, steps[0]), steps[1..]);
    }
  }

  /** A submission has at most one payout row on a reward, whatever becomes of it. */
  lemma OnePayoutPerAward(allowSelf: bool, steps: seq<Step>, i: PayoutId, j: PayoutId)
    requires var l := Run(Init(allowSelf), steps);
      i < |l.payouts| && j < |l.payouts| && l.payouts[i].reward == l.payouts[j].reward
        && l.payouts[i].submission == l.payouts[j].submission
    ensures i == j
  {
    Reached(allowSelf, steps);
  }
}
