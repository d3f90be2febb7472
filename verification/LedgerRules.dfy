/** What each operation of the ledger accepts and writes, in terms of the table rows, and what that says of every row
    after any run. */
module LedgerRules {
  import opened Prelude
  import opened TxHash
  import opened LedgerModel
  import opened LedgerSafety

  // ----- The sums and counts, read off the rows -----

  /** The amounts of a reward's payouts that are not cancelled. */
  function Promised(ps: seq<Payout>, r: RewardId): nat {
    if ps == [] then 0
    else Promised(ps[1..], r) + if ps[0].reward == r && ps[0].status != PayoutCancelled then ps[0].amount else 0
  }

  /** The amounts of a reward's PAID payouts. */
  function SentOut(ps: seq<Payout>, r: RewardId): nat {
    if ps == [] then 0
    else SentOut(ps[1..], r) + if ps[0].reward == r && ps[0].status == PaidOut then ps[0].amount else 0
  }

  lemma {:induction false} PromisedLast(ps: seq<Payout>, r: RewardId)
    requires ps != []
    ensures var p := ps[|ps| - 1];
      && Promised(ps, r) == Promised(ps[..|ps| - 1], r)
        + (if p.reward == r && p.status != PayoutCancelled then p.amount else 0)
      && SentOut(ps, r) == SentOut(ps[..|ps| - 1], r) + (if p.reward == r && p.status == PaidOut then p.amount else 0)
  {
    if |ps| > 1 {
      PromisedLast(ps[1..], r);
      assert ps[1..][..|ps| - 2] == ps[..|ps| - 1][1..];
    }
  }

  lemma {:induction false} SumsAre(ps: seq<Payout>, r: RewardId)
    ensures Sum(ps, r, ALLOCATED) == Promised(ps, r) && Sum(ps, r, {PaidOut}) == SentOut(ps, r)
  {
    if ps != [] {
      SumsAre(ps[..|ps| - 1], r);
      PromisedLast(ps, r);
    }
  }

  /** The positions of a reward's rows in one of the statuses. */
  function RowsIn(ps: seq<Payout>, r: RewardId, st: set<PayoutStatus>): set<nat> {
    set i: nat | i < |ps| && ps[i].reward == r && ps[i].status in st
  }

  lemma {:induction false} CountIsSize(ps: seq<Payout>, r: RewardId, st: set<PayoutStatus>)
    ensures Count(ps, r, st) == |RowsIn(ps, r, st)|
  {
    if ps != [] {
      var n := |ps| - 1;
      CountIsSize(ps[..n], r, st);
      var here := if ps[n].reward == r && ps[n].status in st then {n} else {};
      assert RowsIn(ps, r, st) == RowsIn(ps[..n], r, st) + here;
    }
  }

  lemma StatusSets(st: PayoutStatus)
    ensures st in UNSETTLED <==> st !in {PaidOut, PayoutCancelled}
    ensures st in OPEN <==> st !in {PaidOut, PayoutCancelled, Failed}
  {
    match st
    case Requested => case AwaitingMultisig => case Approved => case Broadcasting => case PaidOut =>
    case Failed => case PayoutCancelled =>
  }

  /** The recomputed status: nothing moves before the first PAID row; then PAID once no row is unsettled and the winners
      or the cap are reached, and PARTIALLY_PAID otherwise. */
  lemma WhatAdvanceWrites(l: Ledger, r: RewardId)
    requires l.Has(r) && l.rewards[r].status in {Funded, PartiallyPaid, Paid}
    ensures var rw, m := l.rewards[r], l.Advance(r);
      var paid := RowsIn(l.payouts, r, {PaidOut});
      var settled := forall i :: 0 <= i < |l.payouts| && l.payouts[i].reward == r ==>
        l.payouts[i].status in {PaidOut, PayoutCancelled};
      var enough := |paid| >= l.bounties[rw.bounty].maxWinners
        || SentOut(l.payouts, r) >= rw.amount || SentOut(l.payouts, r) >= rw.deposited;
      m == l.(rewards := l.rewards[r := rw.(status :=
        if paid == {} then rw.status else if settled && enough then Paid else PartiallyPaid)])
  {
    hide Total, Promised, SentOut;
    SumsAre(l.payouts, r);
    CountIsSize(l.payouts, r, {PaidOut});
    CountIsZero(l.payouts, r, UNSETTLED);
    forall st: PayoutStatus ensures st in UNSETTLED <==> st !in {PaidOut, PayoutCancelled} { StatusSets(st); }
  }

  // ----- Deposits -----

  /** The hash is recorded somewhere: on a payout, as a refund, or as a deposit. */
  predicate Recorded(l: Ledger, h: Hash) {
    || (exists i :: 0 <= i < |l.payouts| && l.payouts[i].hash == Some(h))
    || (exists i :: 0 <= i < |l.refunds| && l.refunds[i].hash == h)
    || (exists r :: r in l.rewards && l.rewards[r].deposit == Some(h))
  }

  predicate Live(l: Ledger, r: RewardId) {
    r in l.rewards && l.rewards[r].bounty in l.bounties && !l.bounties[l.rewards[r].bounty].deleted
  }

  predicate MayConfirm(l: Ledger, r: RewardId, raw: string, amount: int) {
    && 1 <= amount < 1_000_000_000_000_000_000_000_000_000_000 && NormalizeTxHash(raw).Some?
    && !Recorded(l, NormalizeTxHash(raw).value) && Live(l, r)
    && l.rewards[r].status == DepositPending && amount >= l.rewards[r].amount
  }

  /** A deposit is accepted exactly for a waiting reward of a bounty that is not deleted, when it covers the posted
      amount and its hash is not recorded anywhere; it funds that reward. */
  lemma WhenADepositIsAccepted(l: Ledger, r: RewardId, raw: string, amount: int)
    ensures l.ConfirmDeposit(r, raw, amount).Ok? <==> MayConfirm(l, r, raw, amount)
    ensures MayConfirm(l, r, raw, amount) ==>
      var row := l.rewards[r].(status := Funded, deposit := NormalizeTxHash(raw), deposited := amount);
      l.ConfirmDeposit(r, raw, amount).value == l.(rewards := l.rewards[r := row])
  {
    hide NormalizeTxHash;
  }

  // ----- Requests -----

  /** The person an award goes to: the submitter or, when there is none, the owner of the submitting agent. */
  predicate GoesTo(l: Ledger, s: SubmissionId, u: UserId) {
    && s in l.submissions
    && var row := l.submissions[s];
       if row.submitter.Some? then row.submitter.value == u
       else row.agent.Some? && row.agent.value in l.owners && l.owners[row.agent.value] == u
  }

  /** An approved submission of the reward's bounty, which is not deleted and still in progress; the recipient's account
      is active and has a wallet. */
  predicate Deserved(l: Ledger, r: RewardId, s: SubmissionId, u: UserId) {
    && Live(l, r) && l.bounties[l.rewards[r].bounty].status in {Open, SubmissionClosed, InReview}
    && l.rewards[r].status in {Funded, PartiallyPaid, Paid}
    && s in l.submissions && l.submissions[s].approved && l.submissions[s].bounty == l.rewards[r].bounty
    && GoesTo(l, s, u) && u in l.users && u in l.wallets
  }

  predicate MayRequest(l: Ledger, r: RewardId, s: SubmissionId, amount: int, u: UserId) {
    && 1 <= amount < 1_000_000_000_000_000_000_000_000_000_000 && Deserved(l, r, s, u)
    && (forall i :: 0 <= i < |l.payouts| ==> !(l.payouts[i].reward == r && l.payouts[i].submission == s))
    && Promised(l.payouts, r) + amount <= l.rewards[r].amount
    && Promised(l.payouts, r) + amount <= l.rewards[r].deposited
  }

  lemma RecipientIs(l: Ledger, s: SubmissionId, u: UserId)
    ensures l.Recipient(s) == Some(u) <==> GoesTo(l, s, u)
  {
  }

  lemma AcceptedIsDeserved(l: Ledger, r: RewardId, s: SubmissionId, amount: int, admin: UserId)
    requires l.RequestPayout(r, s, amount, admin).Ok?
    ensures exists u :: MayRequest(l, r, s, amount, u)
  {
    hide Total, Promised;
    SumsAre(l.payouts, r);
    RecipientIs(l, s, l.Recipient(s).value);
    assert MayRequest(l, r, s, amount, l.Recipient(s).value);
  }

  /** A payout is granted exactly for an approved submission of the reward's own bounty, in progress and not deleted, on
      a funded reward with room for the amount and no payout of that submission yet, when the recipient is active and
      has a wallet. */
  lemma WhenAPayoutIsGranted(l: Ledger, r: RewardId, s: SubmissionId, amount: int, admin: UserId)
    ensures l.RequestPayout(r, s, amount, admin).Ok? <==> exists u :: MayRequest(l, r, s, amount, u)
  {
    hide Total, Promised;
    if u :| MayRequest(l, r, s, amount, u) {
      RecipientIs(l, s, u);
      SumsAre(l.payouts, r);
    }
    if l.RequestPayout(r, s, amount, admin).Ok? { AcceptedIsDeserved(l, r, s, amount, admin); }
  }

  /** The row it appends goes to that person's wallet; besides it only the status of the reward can change. */
  lemma WhatARequestWrites(l: Ledger, r: RewardId, s: SubmissionId, amount: int, admin: UserId, u: UserId)
    requires MayRequest(l, r, s, amount, u)
    ensures l.RequestPayout(r, s, amount, admin).Ok?
    ensures var m := l.RequestPayout(r, s, amount, admin).value;
      var row := Payout(r, s, l.wallets[u], amount, Requested, admin, None, None);
      && r in m.rewards && m == l.(payouts := l.payouts + [row], rewards := l.rewards[r := m.rewards[r]])
      && m.rewards[r] == l.rewards[r].(status := m.rewards[r].status)
      && m.rewards[r].status ==
        if exists i :: 0 <= i < |l.payouts| && l.payouts[i].reward == r && l.payouts[i].status == PaidOut
        then PartiallyPaid else l.rewards[r].status
  {
    hide Total, Promised;
    RecipientIs(l, s, u);
    SumsAre(l.payouts, r);
    var row := Payout(r, s, l.wallets[u], amount, Requested, admin, None, None);
    CountIsZero(l.payouts + [row], r, {PaidOut});
    CountIsZero(l.payouts + [row], r, UNSETTLED);
    assert (l.payouts + [row])[|l.payouts|] == row;
    if i :| 0 <= i < |l.payouts| && l.payouts[i].reward == r && l.payouts[i].status == PaidOut {
      assert (l.payouts + [row])[i] == l.payouts[i];
    } else {
      assert forall i :: 0 <= i < |l.payouts| + 1 ==>
        !((l.payouts + [row])[i].reward == r && (l.payouts + [row])[i].status == PaidOut);
    }
  }

  // ----- Approvals and payments -----

  predicate MayApprove(l: Ledger, p: PayoutId, admin: UserId) {
    && p < |l.payouts| && l.payouts[p].status in {Requested, AwaitingMultisig}
    && (l.payouts[p].requestedBy != admin || l.allowSelf)
  }

  /** An approval is accepted exactly for a payout that awaits one, from an operator other than the one who requested it
      unless self-approval is on. */
  lemma WhenAnApprovalIsAccepted(l: Ledger, p: PayoutId, admin: UserId)
    ensures l.MarkApproved(p, admin).Ok? <==> MayApprove(l, p, admin)
    ensures MayApprove(l, p, admin) ==>
      var row := l.payouts[p].(status := Approved, approvedBy := Some(admin));
      l.MarkApproved(p, admin).value == l.(payouts := l.payouts[p := row])
  {
  }

  /** The hash is recorded as a deposit, as a refund, or on a PAID payout of another bounty. */
  predicate SpentElsewhere(l: Ledger, p: PayoutId, h: Hash)
    requires p < |l.payouts| && l.Has(l.payouts[p].reward)
  {
    || (exists r :: r in l.rewards && l.rewards[r].deposit == Some(h))
    || (exists i :: 0 <= i < |l.refunds| && l.refunds[i].hash == h)
    || (exists i ::
      0 <= i < |l.payouts| && l.payouts[i].status == PaidOut && l.payouts[i].hash == Some(h)
      && l.Has(l.payouts[i].reward)
      && l.rewards[l.payouts[i].reward].bounty != l.rewards[l.payouts[p].reward].bounty)
  }

  ghost predicate MayPay(l: Ledger, p: PayoutId, raw: string) {
    && NormalizeTxHash(raw).Some? && p < |l.payouts| && l.Has(l.payouts[p].reward)
    && l.payouts[p].status in {Approved, Broadcasting} && !SpentElsewhere(l, p, NormalizeTxHash(raw).value)
    && l.payouts[p].submission in l.submissions && l.submissions[l.payouts[p].submission].approved
    && exists u :: GoesTo(l, l.payouts[p].submission, u)
  }

  /** A payment is recorded exactly for an approved payout of a still approved submission, with a hash that no deposit,
      no refund and no payout of another bounty carries. */
  lemma WhenAPaymentIsRecorded(l: Ledger, p: PayoutId, raw: string)
    ensures l.MarkPaid(p, raw).Ok? <==> MayPay(l, p, raw)
    ensures MayPay(l, p, raw) ==>
      var row := l.payouts[p].(status := PaidOut, hash := NormalizeTxHash(raw));
      l.MarkPaid(p, raw).value == l.(payouts := l.payouts[p := row]).Advance(row.reward)
  {
    hide NormalizeTxHash, Total, GoesTo, Ledger.Recipient, Ledger.Advance;
    if p < |l.payouts| {
      var s := l.payouts[p].submission;
      if u :| GoesTo(l, s, u) { RecipientIs(l, s, u); }
      if l.Recipient(s).Some? { RecipientIs(l, s, l.Recipient(s).value); }
    }
  }

  // ----- Refunds -----

  predicate MayRefund(l: Ledger, r: RewardId, raw: string) {
    && NormalizeTxHash(raw).Some? && !Recorded(l, NormalizeTxHash(raw).value)
    && r in l.rewards && l.rewards[r].bounty in l.bounties && l.bounties[l.rewards[r].bounty].status == Cancelled
    && l.rewards[r].status in {Funded, PartiallyPaid, Paid, RefundPending}
    && (forall i :: 0 <= i < |l.payouts| && l.payouts[i].reward == r ==>
      l.payouts[i].status in {PaidOut, PayoutCancelled, Failed})
    && SentOut(l.payouts, r) < l.rewards[r].deposited
  }

  /** A refund is recorded exactly for a funded reward of a CANCELLED bounty with no payout still open and something
      left of the deposit, with a hash that is not recorded anywhere; all that is left goes back. */
  lemma WhenARefundIsRecorded(l: Ledger, r: RewardId, raw: string)
    ensures l.RecordRefund(r, raw).Ok? <==> MayRefund(l, r, raw)
    ensures MayRefund(l, r, raw) ==>
      var f := Refund(r, NormalizeTxHash(raw).value, l.rewards[r].deposited - SentOut(l.payouts, r));
      var row := l.rewards[r].(status := Refunded);
      l.RecordRefund(r, raw).value == l.(rewards := l.rewards[r := row], refunds := l.refunds + [f])
  {
    hide NormalizeTxHash, Total, SentOut;
    SumsAre(l.payouts, r);
    CountIsZero(l.payouts, r, OPEN);
    forall st: PayoutStatus ensures st in OPEN <==> st !in {PaidOut, PayoutCancelled, Failed} { StatusSets(st); }
  }

  // ----- Over every run -----

  lemma {:induction false} RunLast(l: Ledger, steps: seq<Step>)
    requires steps != []
    ensures Run(l, steps) == Apply(Run(l, steps[..|steps| - 1]), steps[|steps| - 1])
    decreases |steps|
  {
    hide Apply;
    if |steps| > 1 {
      RunLast(Apply(l, steps[0]), steps[1..]);
      assert steps[1..][..|steps| - 2] == steps[..|steps| - 1][1..];
    } else {
      assert steps[1..] == [] == steps[..0];
    }
  }

  /** Step `st` on tables `l` is the request that granted payout `row`. */
  ghost predicate GrantedBy(l: Ledger, st: Step, row: Payout) {
    && st.Request? && row.reward == st.r && row.submission == st.s && row.requestedBy == st.admin
    && exists u :: MayRequest(l, st.r, st.s, st.amount, u) && row.wallet == l.wallets[u]
  }

  predicate SameAward(a: Payout, b: Payout) {
    a.reward == b.reward && a.submission == b.submission && a.wallet == b.wallet && a.requestedBy == b.requestedBy
  }

  lemma OtherStepAwards(l: Ledger, st: Step, p: PayoutId)
    requires !st.Request? && p < |Apply(l, st).payouts|
    ensures p < |l.payouts| && SameAward(Apply(l, st).payouts[p], l.payouts[p])
  {
    hide Total, NormalizeTxHash, Ledger.PaidElsewhere, Ledger.HashDeposited, Ledger.HashPaid, Ledger.HashRefunded,
      TransitionsFrom, Ledger.Advanced, Ledger.RequestPayout, Ledger.Recipient;
  }

  lemma StepAwards(l: Ledger, st: Step, p: PayoutId)
    requires p < |Apply(l, st).payouts|
    ensures if p < |l.payouts| then SameAward(Apply(l, st).payouts[p], l.payouts[p])
      else GrantedBy(l, st, Apply(l, st).payouts[p])
  {
    hide Total, Promised, MayRequest, Ledger.RequestPayout;
    if !st.Request? {
      OtherStepAwards(l, st, p);
    } else if l.RequestPayout(st.r, st.s, st.amount, st.admin).Ok? {
      AcceptedIsDeserved(l, st.r, st.s, st.amount, st.admin);
      var u :| MayRequest(l, st.r, st.s, st.amount, u);
      WhatARequestWrites(l, st.r, st.s, st.amount, st.admin, u);
    }
  }

  /** Every payout row was granted by a request: at that moment its submission was approved for the bounty of its
      reward, the bounty was in progress, and its wallet was the recipient's. */
  lemma {:induction false} EveryPayoutWasDeserved(allowSelf: bool, steps: seq<Step>, p: PayoutId)
    requires p < |Run(Init(allowSelf), steps).payouts|
    ensures exists k ::
      0 <= k < |steps| && GrantedBy(Run(Init(allowSelf), steps[..k]), steps[k],
        Run(Init(allowSelf), steps).payouts[p])
    decreases |steps|
  {
    hide Apply, GrantedBy;
    if steps != [] {
      var n := |steps| - 1;
      var front := steps[..n];
      var l := Run(Init(allowSelf), front);
      RunLast(Init(allowSelf), steps);
      StepAwards(l, steps[n], p);
      if p < |l.payouts| {
        EveryPayoutWasDeserved(allowSelf, front, p);
        var k :| 0 <= k < n && GrantedBy(Run(Init(allowSelf), front[..k]), front[k], l.payouts[p]);
        SameGrant(Run(Init(allowSelf), front[..k]), front[k], l.payouts[p], Apply(l, steps[n]).payouts[p]);
        assert front[..k] == steps[..k] && front[k] == steps[k];
      }
    }
  }

  lemma SameGrant(l: Ledger, st: Step, a: Payout, b: Payout)
    requires GrantedBy(l, st, a) && SameAward(a, b)
    ensures GrantedBy(l, st, b)
  {
  }

  /** Step `st` on tables `l` recorded refund `f`. */
  predicate RefundedBy(l: Ledger, st: Step, f: Refund) {
    && st.Repay? && MayRefund(l, st.r, st.raw)
    && f == Refund(st.r, NormalizeTxHash(st.raw).value, l.rewards[st.r].deposited - SentOut(l.payouts, st.r))
  }

  lemma StepRefunds(l: Ledger, st: Step, i: nat)
    requires i < |Apply(l, st).refunds|
    ensures if i < |l.refunds| then Apply(l, st).refunds[i] == l.refunds[i]
      else RefundedBy(l, st, Apply(l, st).refunds[i])
  {
    hide Total, SentOut, NormalizeTxHash, Ledger.PaidElsewhere, Ledger.HashDeposited, Ledger.HashPaid,
      Ledger.HashRefunded, TransitionsFrom, MayRefund, Ledger.RecordRefund;
    if st.Repay? { WhenARefundIsRecorded(l, st.r, st.raw); }
  }

  /** Every recorded refund was of a CANCELLED bounty with no payout open, and of all that was left. */
  lemma {:induction false} EveryRefundWasDue(allowSelf: bool, steps: seq<Step>, i: nat)
    requires i < |Run(Init(allowSelf), steps).refunds|
    ensures exists k ::
      0 <= k < |steps| && RefundedBy(Run(Init(allowSelf), steps[..k]), steps[k], Run(Init(allowSelf), steps).refunds[i])
    decreases |steps|
  {
    hide Apply, RefundedBy;
    if steps != [] {
      var n := |steps| - 1;
      var front := steps[..n];
      RunLast(Init(allowSelf), steps);
      StepRefunds(Run(Init(allowSelf), front), steps[n], i);
      if i < |Run(Init(allowSelf), front).refunds| {
        EveryRefundWasDue(allowSelf, front, i);
        var k :| 0 <= k < n
          && RefundedBy(Run(Init(allowSelf), front[..k]), front[k], Run(Init(allowSelf), front).refunds[i]);
        assert front[..k] == steps[..k] && front[k] == steps[k];
      }
    }
  }

  /** Step `st` on tables `l` recorded payout `p` as paid, leaving `row`. */
  ghost predicate PaidBy(l: Ledger, st: Step, p: PayoutId, row: Payout) {
    st.Pay? && st.p == p && MayPay(l, p, st.raw) && row.hash == NormalizeTxHash(st.raw)
    && row == l.payouts[p].(status := PaidOut, hash := row.hash)
  }

  lemma OtherStepPays(l: Ledger, st: Step, p: PayoutId)
    requires !st.Pay? && p < |Apply(l, st).payouts| && Apply(l, st).payouts[p].status == PaidOut
    ensures p < |l.payouts| && Apply(l, st).payouts[p] == l.payouts[p]
  {
    hide Total, NormalizeTxHash, Ledger.HashDeposited, Ledger.HashPaid, Ledger.HashRefunded, TransitionsFrom,
      Ledger.Advanced, Ledger.Recipient, Ledger.MarkPaid;
  }

  lemma StepPays(l: Ledger, st: Step, p: PayoutId)
    requires p < |Apply(l, st).payouts| && Apply(l, st).payouts[p].status == PaidOut
    ensures (p < |l.payouts| && Apply(l, st).payouts[p] == l.payouts[p])
      || PaidBy(l, st, p, Apply(l, st).payouts[p])
  {
    hide Ledger.MarkPaid, Total, NormalizeTxHash, GoesTo, SpentElsewhere, Ledger.Advanced;
    if st.Pay? { WhenAPaymentIsRecorded(l, st.p, st.raw); } else { OtherStepPays(l, st, p); }
  }

  /** Every PAID payout was recorded by a payment: at that moment it was approved or being sent, its submission was
      still approved, and its hash was on no deposit, no refund and no payout of another bounty. */
  lemma {:induction false} EveryPaymentWasApproved(allowSelf: bool, steps: seq<Step>, p: PayoutId)
    requires var l := Run(Init(allowSelf), steps); p < |l.payouts| && l.payouts[p].status == PaidOut
    ensures exists k ::
      0 <= k < |steps| && PaidBy(Run(Init(allowSelf), steps[..k]), steps[k], p,
        Run(Init(allowSelf), steps).payouts[p])
    decreases |steps|
  {
    hide Apply, PaidBy;
    if steps != [] {
      var n := |steps| - 1;
      var front := steps[..n];
      var l := Run(Init(allowSelf), front);
      RunLast(Init(allowSelf), steps);
      StepPays(l, steps[n], p);
      if !PaidBy(l, steps[n], p, Apply(l, steps[n]).payouts[p]) {
        EveryPaymentWasApproved(allowSelf, front, p);
        var k :| 0 <= k < n && PaidBy(Run(Init(allowSelf), front[..k]), front[k], p, l.payouts[p]);
        assert front[..k] == steps[..k] && front[k] == steps[k];
      }
    }
  }

  lemma StepEnds(l: Ledger, st: Step, b: BountyId)
    requires b in l.bounties && l.bounties[b].status in {Completed, Cancelled}
    ensures b in Apply(l, st).bounties && Apply(l, st).bounties[b].status == l.bounties[b].status
  {
    hide Total, NormalizeTxHash, Ledger.PaidElsewhere, Ledger.HashDeposited, Ledger.HashPaid, Ledger.HashRefunded,
      Ledger.Advanced, Ledger.Recipient, Ledger.HasRow, Ledger.RefusalReason;
  }

  /** A COMPLETED or CANCELLED bounty stays that, so a refund is never of a bounty that is taken up again. */
  lemma {:induction false} EndedStaysEnded(l: Ledger, steps: seq<Step>, b: BountyId)
    requires b in l.bounties && l.bounties[b].status in {Completed, Cancelled}
    ensures b in Run(l, steps).bounties && Run(l, steps).bounties[b].status == l.bounties[b].status
    decreases |steps|
  {
    hide Apply;
    if steps != [] {
      StepEnds(l, steps[0], b);
      EndedStaysEnded(Apply(l, steps[0]), steps[1..], b);
    }
  }

  // ----- What a step can do to a payout -----

  /** The ways of a payout: to approval and payment, into failure, back to the start when it is corrected, or out of the
      pool; nothing leaves PAID or CANCELLED. */
  predicate Moves(a: PayoutStatus, b: PayoutStatus) {
    match b
    case Requested => a == Requested || a == AwaitingMultisig || a == Approved
    case AwaitingMultisig => a == Requested
    case Approved => a == Requested || a == AwaitingMultisig
    case Broadcasting => a == Approved
    case PaidOut => a == Approved || a == Broadcasting
    case Failed => a == Requested || a == AwaitingMultisig || a == Approved || a == Broadcasting
    case PayoutCancelled => a == Requested || a == AwaitingMultisig || a == Approved || a == Failed
  }

  ghost predicate MovedBy(l: Ledger, st: Step, p: PayoutId, a: Payout, b: Payout) {
    && (b.status == a.status || Moves(a.status, b.status))
    && (b.amount != a.amount ==>
      a.status in {Requested, AwaitingMultisig, Approved} && b.status == Requested && b.approvedBy == None)
    && (b.approvedBy != a.approvedBy && b.approvedBy.Some? ==>
      st == Approve(p, b.approvedBy.value) && MayApprove(l, p, b.approvedBy.value))
  }

  lemma OperationsMove(l: Ledger, st: Step, p: PayoutId)
    requires p < |l.payouts| && (st.Confirm? || st.Request? || st.Approve? || st.Pay? || st.Repay?)
    ensures p < |Apply(l, st).payouts| && MovedBy(l, st, p, l.payouts[p], Apply(l, st).payouts[p])
  {
    hide Total, NormalizeTxHash, Ledger.PaidElsewhere, Ledger.HashDeposited, Ledger.HashPaid, Ledger.HashRefunded,
      Ledger.Advanced, Ledger.Recipient, Ledger.HasRow, Ledger.RefusalReason;
  }

  lemma CorrectionsMove(l: Ledger, st: Step, p: PayoutId)
    requires p < |l.payouts| && !st.Confirm? && !st.Request? && !st.Approve? && !st.Pay? && !st.Repay?
    ensures p < |Apply(l, st).payouts| && MovedBy(l, st, p, l.payouts[p], Apply(l, st).payouts[p])
  {
    hide Total, TransitionsFrom, Ledger.Advanced, MayApprove;
  }

  /** A step moves at most the status of a payout, along these ways; an amount changes only where nothing has been sent,
      and then its approval starts over; and an approval is set only by an accepted one. */
  lemma PayoutsMove(l: Ledger, st: Step, p: PayoutId)
    requires p < |l.payouts|
    ensures p < |Apply(l, st).payouts| && MovedBy(l, st, p, l.payouts[p], Apply(l, st).payouts[p])
  {
    hide *;
    if st.Confirm? || st.Request? || st.Approve? || st.Pay? || st.Repay? {
      OperationsMove(l, st, p);
    } else {
      CorrectionsMove(l, st, p);
    }
  }
}
