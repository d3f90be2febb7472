/** What every ledger operation and every prescribed manual correction keeps. */
module LedgerSafety {
  import opened Prelude
  import opened TxHash
  import opened LedgerModel

  // ----- Sums -----

  lemma {:induction false} TotalPut(ps: seq<Payout>, i: nat, row: Payout, f: Payout -> nat)
    requires i < |ps|
    ensures Total(ps[i := row], f) == Total(ps, f) - f(ps[i]) + f(row)
  {
    var n := |ps| - 1;
    if i < n {
      TotalPut(ps[..n], i, row, f);
      assert ps[i := row][..n] == ps[..n][i := row];
    } else {
      assert ps[i := row][..n] == ps[..n];
    }
  }

  lemma TotalAppend(ps: seq<Payout>, row: Payout, f: Payout -> nat)
    ensures Total(ps + [row], f) == Total(ps, f) + f(row)
  {
    assert (ps + [row])[..|ps|] == ps;
  }

  lemma {:induction false} TotalZero(ps: seq<Payout>, f: Payout -> nat)
    ensures Total(ps, f) == 0 <==> forall i :: 0 <= i < |ps| ==> f(ps[i]) == 0
  {
    if ps != [] {
      var n := |ps| - 1;
      TotalZero(ps[..n], f);
      assert forall i :: 0 <= i < n ==> ps[..n][i] == ps[i];
    }
  }

  lemma {:induction false} TotalAdds(ps: seq<Payout>, f: Payout -> nat, g: Payout -> nat, h: Payout -> nat)
    requires forall p :: h(p) == f(p) + g(p)
    ensures Total(ps, h) == Total(ps, f) + Total(ps, g)
  {
    if ps != [] { TotalAdds(ps[..|ps| - 1], f, g, h); }
  }

  /** What is allocated is paid or still to be settled. */
  lemma AllocatedSplits(ps: seq<Payout>, r: RewardId)
    ensures Sum(ps, r, ALLOCATED) == Sum(ps, r, {PaidOut}) + Sum(ps, r, UNSETTLED)
  {
    TotalAdds(ps, AmountIf(r, {PaidOut}), AmountIf(r, UNSETTLED), AmountIf(r, ALLOCATED));
  }

  lemma CountIsZero(ps: seq<Payout>, r: RewardId, st: set<PayoutStatus>)
    ensures Count(ps, r, st) == 0 <==> forall i :: 0 <= i < |ps| ==> !(ps[i].reward == r && ps[i].status in st)
  {
    TotalZero(ps, OneIf(r, st));
    forall i | 0 <= i < |ps| ensures OneIf(r, st)(ps[i]) == 0 <==> !(ps[i].reward == r && ps[i].status in st) {}
  }

  lemma {:induction false} RefundedSumAppend(fs: seq<Refund>, f: Refund, r: RewardId)
    ensures RefundedSum(fs + [f], r) == RefundedSum(fs, r) + (if f.reward == r then f.amount else 0)
  {
    assert (fs + [f])[..|fs|] == fs;
  }

  // ----- One reward and the totals of its payout rows -----

  datatype Tally = Tally(held: nat, paid: nat, paidRows: nat, unsettledRows: nat, openRows: nat)

  function TallyOf(ps: seq<Payout>, r: RewardId): Tally {
    Tally(Sum(ps, r, ALLOCATED), Sum(ps, r, {PaidOut}), Count(ps, r, {PaidOut}), Count(ps, r, UNSETTLED),
      Count(ps, r, OPEN))
  }

  /** The stored status recomputed from scratch: FUNDED while nothing is paid; PAID once nothing is unsettled and the
      winners or the cap are reached; PARTIALLY_PAID otherwise. */
  function Recomputed(rw: Reward, maxWinners: nat, t: Tally): RewardStatus {
    if t.paidRows == 0 then Funded
    else if t.unsettledRows == 0 && (t.paidRows >= maxWinners || t.paid >= rw.Cap()) then Paid
    else PartiallyPaid
  }

  predicate RewardOk(rw: Reward, maxWinners: nat, t: Tally, refunded: int) {
    && rw.amount > 0 && rw.status != RewardCancelled
    && (rw.status == DepositPending <==> rw.deposit.None?)
    && (rw.status == DepositPending ==> rw.deposited == 0)
    && t.held <= rw.Cap()
    && (rw.status in PAYABLE ==> rw.status == Recomputed(rw, maxWinners, t))
    && (rw.status == Refunded ==> t.openRows == 0 && refunded > 0 && t.paid + refunded == rw.deposited)
    && (rw.status != Refunded ==> refunded == 0)
  }

  predicate RewardsOk(l: Ledger) {
    forall r :: r in l.rewards ==>
      && l.Has(r)
      && RewardOk(l.rewards[r], l.bounties[l.rewards[r].bounty].maxWinners, TallyOf(l.payouts, r),
                  RefundedSum(l.refunds, r))
  }

  predicate RowOk(l: Ledger, p: Payout) {
    && p.reward in l.rewards && p.amount > 0
    && (p.hash.Some? <==> p.status == PaidOut)
    && (p.status in SENDABLE + {PaidOut} ==>
      p.approvedBy.Some? && (p.approvedBy.value == p.requestedBy ==> l.allowSelf))
  }

  predicate RowsOk(l: Ledger) {
    && (forall i :: 0 <= i < |l.refunds| ==> l.refunds[i].reward in l.rewards && l.refunds[i].amount > 0)
    && (forall i :: 0 <= i < |l.payouts| ==> RowOk(l, l.payouts[i]))
    && (forall i, j :: 0 <= i < j < |l.payouts| && l.payouts[i].reward == l.payouts[j].reward ==>
      l.payouts[i].submission != l.payouts[j].submission)
  }

  // ----- Rows changed one at a time -----

  lemma PutTally(ps: seq<Payout>, i: nat, row: Payout, r: RewardId)
    requires i < |ps|
    ensures var a, b := TallyOf(ps, r), TallyOf(ps[i := row], r);
      && b.held == a.held - AmountIf(r, ALLOCATED)(ps[i]) + AmountIf(r, ALLOCATED)(row)
      && b.paid == a.paid - AmountIf(r, {PaidOut})(ps[i]) + AmountIf(r, {PaidOut})(row)
      && b.paidRows == a.paidRows - OneIf(r, {PaidOut})(ps[i]) + OneIf(r, {PaidOut})(row)
      && b.unsettledRows == a.unsettledRows - OneIf(r, UNSETTLED)(ps[i]) + OneIf(r, UNSETTLED)(row)
      && b.openRows == a.openRows - OneIf(r, OPEN)(ps[i]) + OneIf(r, OPEN)(row)
  {
    TotalPut(ps, i, row, AmountIf(r, ALLOCATED));
    TotalPut(ps, i, row, AmountIf(r, {PaidOut}));
    TotalPut(ps, i, row, OneIf(r, {PaidOut}));
    TotalPut(ps, i, row, OneIf(r, UNSETTLED));
    TotalPut(ps, i, row, OneIf(r, OPEN));
  }

  lemma PutElsewhere(ps: seq<Payout>, i: nat, row: Payout, r: RewardId)
    requires i < |ps| && ps[i].reward != r && row.reward != r
    ensures TallyOf(ps[i := row], r) == TallyOf(ps, r)
  {
    hide TallyOf;
    PutTally(ps, i, row, r);
  }

  lemma AppendTally(ps: seq<Payout>, row: Payout, r: RewardId)
    requires row.status == Requested
    ensures var a, b := TallyOf(ps, r), TallyOf(ps + [row], r);
      b == if row.reward != r then a
        else Tally(a.held + row.amount, a.paid, a.paidRows, a.unsettledRows + 1, a.openRows + 1)
  {
    TotalAppend(ps, row, AmountIf(r, ALLOCATED));
    TotalAppend(ps, row, AmountIf(r, {PaidOut}));
    TotalAppend(ps, row, OneIf(r, {PaidOut}));
    TotalAppend(ps, row, OneIf(r, UNSETTLED));
    TotalAppend(ps, row, OneIf(r, OPEN));
  }

  /** A reward that met the invariant up to its stored status meets it after the recomputation. */
  lemma AdvanceOk(l: Ledger, r: RewardId, before: Tally)
    requires l.Has(r)
    requires RewardOk(l.rewards[r], l.bounties[l.rewards[r].bounty].maxWinners, before, RefundedSum(l.refunds, r))
    requires var t := TallyOf(l.payouts, r);
      t.held <= l.rewards[r].Cap() && t.paidRows >= before.paidRows
      && (l.rewards[r].status == Refunded ==> t.openRows == 0 && t.paid == before.paid)
    ensures RewardOk(l.Advanced(r), l.bounties[l.rewards[r].bounty].maxWinners, TallyOf(l.payouts, r),
      RefundedSum(l.refunds, r))
  {
  }

  // ----- Each operation keeps the rewards -----

  /** Payout `p` becomes `row`, and its reward is recomputed (or did not need to be). */
  lemma PutKeeps(l: Ledger, p: PayoutId, row: Payout)
    requires RewardsOk(l) && RowsOk(l) && p < |l.payouts| && row.reward == l.payouts[p].reward
    requires var t := TallyOf(l.payouts[p := row], row.reward);
      var rw := l.rewards[row.reward];
      && t.held <= rw.Cap() && t.paidRows >= TallyOf(l.payouts, row.reward).paidRows
      && (rw.status == Refunded ==> t.openRows == 0 && t.paid == TallyOf(l.payouts, row.reward).paid)
    ensures RewardsOk(l.Put(p, row).Advance(row.reward))
  {
    hide TallyOf, RewardOk;
    var m := l.Put(p, row);
    AdvanceOk(m, row.reward, TallyOf(l.payouts, row.reward));
    forall r | r in l.rewards && r != row.reward ensures TallyOf(m.payouts, r) == TallyOf(l.payouts, r) {
      PutElsewhere(l.payouts, p, row, r);
    }
  }

  /** If payout and unsettled counts do not change, the recomputation changes nothing. */
  lemma QuietAdvance(l: Ledger, p: PayoutId, row: Payout)
    requires RewardsOk(l) && RowsOk(l) && p < |l.payouts| && row.reward == l.payouts[p].reward
    requires var a, b := TallyOf(l.payouts, row.reward), TallyOf(l.payouts[p := row], row.reward);
      a.paid == b.paid && a.paidRows == b.paidRows && a.unsettledRows == b.unsettledRows
    ensures l.Put(p, row).Advance(row.reward) == l.Put(p, row)
  {
    hide Total;
    assert l.Put(p, row).Advanced(row.reward) == l.rewards[row.reward];
  }

  lemma OpenRowCounts(l: Ledger, p: PayoutId)
    requires RewardsOk(l) && RowsOk(l) && p < |l.payouts|
    ensures l.Has(l.payouts[p].reward)
    ensures l.payouts[p].status in OPEN ==> l.rewards[l.payouts[p].reward].status != Refunded
  {
    CountIsZero(l.payouts, l.payouts[p].reward, OPEN);
    assert RowOk(l, l.payouts[p]);
  }

  lemma AwardKeeps(l: Ledger, row: Payout)
    requires RewardsOk(l) && l.Has(row.reward) && row.status == Requested && l.rewards[row.reward].status in PAYABLE
    requires l.Allocated(row.reward) + row.amount <= l.rewards[row.reward].Cap()
    ensures RewardsOk(l.Award(row))
  {
    hide RewardOk, Total;
    var m := l.(payouts := l.payouts + [row]);
    forall q | q in l.rewards ensures
      TallyOf(m.payouts, q) == (if q != row.reward then TallyOf(l.payouts, q) else
        var a := TallyOf(l.payouts, q);
          Tally(a.held + row.amount, a.paid, a.paidRows, a.unsettledRows + 1, a.openRows + 1)) {
      AppendTally(l.payouts, row, q);
    }
    assert TallyOf(l.payouts, row.reward).held == l.Allocated(row.reward) by { TallyAllocated(l.payouts, row.reward); }
    AdvanceOk(m, row.reward, TallyOf(l.payouts, row.reward));
  }

  lemma TallyAllocated(ps: seq<Payout>, r: RewardId)
    ensures TallyOf(ps, r).held == Sum(ps, r, ALLOCATED) && TallyOf(ps, r).paid == Sum(ps, r, {PaidOut})
    ensures TallyOf(ps, r).openRows == Count(ps, r, OPEN) && TallyOf(ps, r).paidRows == Count(ps, r, {PaidOut})
    ensures TallyOf(ps, r).unsettledRows == Count(ps, r, UNSETTLED)
  {
  }

  lemma PayKeeps(l: Ledger, p: PayoutId, h: Hash)
    requires RewardsOk(l) && RowsOk(l) && p < |l.payouts| && l.payouts[p].status in SENDABLE
    requires l.Has(l.payouts[p].reward)
    ensures RewardsOk(l.Put(p, l.payouts[p].(status := PaidOut, hash := Some(h))).Advance(l.payouts[p].reward))
  {
    hide RewardOk, Total, RewardsOk;
    var row := l.payouts[p].(status := PaidOut, hash := Some(h));
    OpenRowCounts(l, p);
    PutTally(l.payouts, p, row, row.reward);
    assert TallyOf(l.payouts, row.reward).held <= l.rewards[row.reward].Cap() by { RewardsCap(l, row.reward); }
    PutKeeps(l, p, row);
  }

  lemma RewardsCap(l: Ledger, r: RewardId)
    requires RewardsOk(l) && r in l.rewards
    ensures TallyOf(l.payouts, r).held <= l.rewards[r].Cap()
  {
  }

  /** A manual change of payout `p` that leaves it unpaid and does not push the reward over its cap. */
  lemma ByHandKeepsRewards(l: Ledger, p: PayoutId, row: Payout)
    requires RewardsOk(l) && RowsOk(l) && p < |l.payouts| && row.reward == l.payouts[p].reward
    requires l.payouts[p].status in UNSETTLED && row.status in UNSETTLED + {PayoutCancelled}
    requires row.status in OPEN ==> l.payouts[p].status in OPEN
    requires row.status == PayoutCancelled
      || l.Allocated(row.reward) - l.payouts[p].amount + row.amount <= l.rewards[row.reward].Cap()
    ensures RewardsOk(l.Put(p, row).Advance(row.reward))
    ensures row.status != PayoutCancelled ==> l.Put(p, row).Advance(row.reward) == l.Put(p, row)
  {
    hide RewardOk, Total, RewardsOk, RowsOk, TallyOf;
    OpenRowCounts(l, p);
    PutTally(l.payouts, p, row, row.reward);
    TallyAllocated(l.payouts, row.reward);
    assert TallyOf(l.payouts, row.reward).held <= l.rewards[row.reward].Cap() by { RewardsCap(l, row.reward); }
    if l.rewards[row.reward].status == Refunded { RefundedHasNoOpen(l, row.reward); }
    PutKeeps(l, p, row);
    if row.status != PayoutCancelled { QuietAdvance(l, p, row); }
  }

  lemma RefundedHasNoOpen(l: Ledger, r: RewardId)
    requires RewardsOk(l) && r in l.rewards && l.rewards[r].status == Refunded
    ensures TallyOf(l.payouts, r).openRows == 0
  {
  }

  lemma NothingPaidWithoutDeposit(l: Ledger, r: RewardId)
    requires RewardsOk(l) && RowsOk(l) && r in l.rewards && l.rewards[r].status == DepositPending
    ensures TallyOf(l.payouts, r).paidRows == 0 && TallyOf(l.payouts, r).held == 0
  {
    hide TallyOf;
    assert TallyOf(l.payouts, r).held == 0;
    TallyAllocated(l.payouts, r);
    TotalZero(l.payouts, AmountIf(r, ALLOCATED));
    assert Count(l.payouts, r, {PaidOut}) == 0 by {
      CountIsZero(l.payouts, r, {PaidOut});
      forall i | 0 <= i < |l.payouts| ensures !(l.payouts[i].reward == r && l.payouts[i].status in {PaidOut}) {
        assert RowOk(l, l.payouts[i]);
        assert AmountIf(r, ALLOCATED)(l.payouts[i]) == 0;
      }
    }
  }

  lemma FundKeeps(l: Ledger, r: RewardId, h: Hash, amount: nat)
    requires RewardsOk(l) && RowsOk(l) && r in l.rewards && l.rewards[r].status == DepositPending
    ensures RewardsOk(l.Fund(r, h, amount))
  {
    hide TallyOf, RowsOk;
    NothingPaidWithoutDeposit(l, r);
  }

  lemma ReturnKeeps(l: Ledger, r: RewardId, h: Hash)
    requires RewardsOk(l) && l.Has(r) && l.rewards[r].status in REFUNDABLE && Count(l.payouts, r, OPEN) == 0
    requires l.rewards[r].deposited > l.PaidSum(r)
    ensures RewardsOk(l.Return(r, h))
  {
    hide TallyOf, Total, RefundedSum, RewardOk;
    var m := l.Return(r, h);
    forall q | q in l.rewards
      ensures RewardOk(m.rewards[q], m.bounties[m.rewards[q].bounty].maxWinners, TallyOf(m.payouts, q),
        RefundedSum(m.refunds, q)) {
      RefundedSumAppend(l.refunds, Refund(r, h, l.rewards[r].deposited - l.PaidSum(r)), q);
      if q == r {
        TallyAllocated(l.payouts, r);
        ReturnedOk(l.rewards[r], l.bounties[l.rewards[r].bounty].maxWinners, TallyOf(l.payouts, r),
          RefundedSum(l.refunds, r));
      }
    }
  }

  lemma ReturnedOk(rw: Reward, maxWinners: nat, t: Tally, before: int)
    requires RewardOk(rw, maxWinners, t, before) && rw.status in REFUNDABLE && t.openRows == 0 && rw.deposited > t.paid
    ensures RewardOk(rw.(status := Refunded), maxWinners, t, before + rw.deposited - t.paid)
  {
  }

  // ----- Each operation keeps the rows -----

  lemma PutKeepsRows(l: Ledger, p: PayoutId, row: Payout)
    requires RowsOk(l) && p < |l.payouts| && row.reward == l.payouts[p].reward
    requires row.submission == l.payouts[p].submission && RowOk(l, row)
    ensures RowsOk(l.Put(p, row))
    ensures l.Has(row.reward) ==> RowsOk(l.Put(p, row).Advance(row.reward))
  {
  }

  lemma AwardKeepsRows(l: Ledger, row: Payout)
    requires RowsOk(l) && l.Has(row.reward) && !l.HasRow(row.reward, row.submission) && row.amount > 0
    requires row.status == Requested
    requires row.hash.None?
    ensures RowsOk(l.Award(row))
  {
    hide Total;
    var m := l.Award(row);
    forall i | 0 <= i < |m.payouts| ensures RowOk(m, m.payouts[i]) {
      if i < |l.payouts| { assert RowOk(l, l.payouts[i]); }
    }
  }

  // ----- What an accepted call did -----

  lemma Confirmed(l: Ledger, r: RewardId, raw: string, a: int)
    requires l.ConfirmDeposit(r, raw, a).Ok?
    ensures a > 0 && l.Has(r) && l.rewards[r].status == DepositPending && l.rewards[r].amount <= a
    ensures NormalizeTxHash(raw).Some?
    ensures var h := NormalizeTxHash(raw).value;
      !l.HashPaid(h) && !l.HashRefunded(h) && !l.HashDeposited(h)
        && l.ConfirmDeposit(r, raw, a).value == l.Fund(r, h, a)
  {
  }

  lemma Awarded(l: Ledger, r: RewardId, s: SubmissionId, a: int, admin: UserId) returns (row: Payout)
    requires l.RequestPayout(r, s, a, admin).Ok?
    ensures row.reward == r && row.submission == s && row.amount == a > 0 && row.status == Requested
    ensures row.hash.None? && l.Has(r)
    ensures l.rewards[r].status in PAYABLE && !l.HasRow(r, s) && l.Allocated(r) + a <= l.rewards[r].Cap()
    ensures l.RequestPayout(r, s, a, admin).value == l.Award(row)
  {
    hide Total;
    row := Payout(r, s, l.wallets[l.Recipient(s).value], a, Requested, admin, None, None);
  }

  lemma Settled(l: Ledger, p: PayoutId, raw: string)
    requires l.MarkPaid(p, raw).Ok?
    ensures p < |l.payouts| && l.Has(l.payouts[p].reward) && l.payouts[p].status in SENDABLE
    ensures NormalizeTxHash(raw).Some?
    ensures var h := NormalizeTxHash(raw).value;
      !l.PaidElsewhere(p, h) && !l.HashDeposited(h) && !l.HashRefunded(h)
      && l.MarkPaid(p, raw).value
        == l.Put(p, l.payouts[p].(status := PaidOut, hash := Some(h))).Advance(l.payouts[p].reward)
  {
    hide Total;
  }

  lemma Returned(l: Ledger, r: RewardId, raw: string)
    requires l.RecordRefund(r, raw).Ok?
    ensures l.Has(r) && l.rewards[r].status in REFUNDABLE && Count(l.payouts, r, OPEN) == 0
    ensures l.rewards[r].deposited > l.PaidSum(r)
    ensures NormalizeTxHash(raw).Some?
    ensures var h := NormalizeTxHash(raw).value;
      !l.HashPaid(h) && !l.HashRefunded(h) && !l.HashDeposited(h) && l.RecordRefund(r, raw).value == l.Return(r, h)
  {
    hide Total;
  }

  // ----- Every step -----

  predicate Books(l: Ledger) { RewardsOk(l) && RowsOk(l) }

  lemma StepKeepsBooks(l: Ledger, st: Step)
    requires Books(l)
    ensures Books(Apply(l, st))
  {
    hide RewardsOk, RowsOk;
    match st
    case Confirm(r, raw, a) => ConfirmStep(l, r, raw, a);
    case Request(r, s, a, admin) => RequestStep(l, r, s, a, admin);
    case Approve(p, admin) => ApproveStep(l, p, admin);
    case Pay(p, raw) => PayStep(l, p, raw);
    case Repay(r, raw) => RepayStep(l, r, raw);
    case CancelByHand(p) => CancelStep(l, p);
    case CorrectByHand(p, _) => ByHandStep(l, st, p);
    case FailByHand(p) => ByHandStep(l, st, p);
    case AwaitByHand(p) => ByHandStep(l, st, p);
    case BroadcastByHand(p) => ByHandStep(l, st, p);
    case _ => OtherStep(l, st);
  }

  lemma ConfirmStep(l: Ledger, r: RewardId, raw: string, a: int)
    requires Books(l)
    ensures Books(Apply(l, Confirm(r, raw, a)))
  {
    hide RewardsOk, RowOk, Ledger.ConfirmDeposit, NormalizeTxHash, Ledger.HashPaid, Ledger.HashDeposited,
      Ledger.HashRefunded;
    if l.ConfirmDeposit(r, raw, a).Ok? {
      Confirmed(l, r, raw, a);
      FundKeeps(l, r, NormalizeTxHash(raw).value, a);
      SameRows(l, l.ConfirmDeposit(r, raw, a).value);
    }
  }

  lemma RequestStep(l: Ledger, r: RewardId, s: SubmissionId, a: int, admin: UserId)
    requires Books(l)
    ensures Books(Apply(l, Request(r, s, a, admin)))
  {
    hide RewardsOk, RowsOk, Ledger.RequestPayout, Ledger.Award, Total, Ledger.HasRow;
    if l.RequestPayout(r, s, a, admin).Ok? {
      var row := Awarded(l, r, s, a, admin);
      AwardKeeps(l, row);
      AwardKeepsRows(l, row);
    }
  }

  lemma RepayStep(l: Ledger, r: RewardId, raw: string)
    requires Books(l)
    ensures Books(Apply(l, Repay(r, raw)))
  {
    hide RewardsOk, Ledger.RecordRefund, NormalizeTxHash, Ledger.HashPaid, Ledger.HashDeposited, Ledger.HashRefunded,
      Total;
    if l.RecordRefund(r, raw).Ok? {
      Returned(l, r, raw);
      ReturnKeeps(l, r, NormalizeTxHash(raw).value);
      SameRows(l, l.RecordRefund(r, raw).value);
    }
  }

  lemma SameRows(l: Ledger, m: Ledger)
    requires RowsOk(l) && m.payouts == l.payouts && l.rewards.Keys <= m.rewards.Keys && m.allowSelf == l.allowSelf
    requires forall i :: 0 <= i < |m.refunds| ==> m.refunds[i].reward in m.rewards && m.refunds[i].amount > 0
    ensures RowsOk(m)
  {
    forall i | 0 <= i < |m.payouts| ensures RowOk(m, m.payouts[i]) { assert RowOk(l, l.payouts[i]); }
  }

  lemma PayStep(l: Ledger, p: PayoutId, raw: string)
    requires Books(l)
    ensures Books(Apply(l, Pay(p, raw)))
  {
    hide RewardsOk, RowsOk, Ledger.MarkPaid, Ledger.PaidElsewhere, NormalizeTxHash, Ledger.HashDeposited,
      Ledger.HashRefunded, Total;
    if l.MarkPaid(p, raw).Ok? {
      Settled(l, p, raw);
      var h := NormalizeTxHash(raw).value;
      PayKeeps(l, p, h);
      assert RowOk(l, l.payouts[p]) by { RowAt(l, p); }
      PutKeepsRows(l, p, l.payouts[p].(status := PaidOut, hash := Some(h)));
    }
  }

  lemma RowAt(l: Ledger, p: PayoutId)
    requires RowsOk(l) && p < |l.payouts|
    ensures RowOk(l, l.payouts[p])
  {
  }

  /** Approval, in the shape of a manual change: an open row stays open. */
  lemma ApproveStep(l: Ledger, p: PayoutId, admin: UserId)
    requires Books(l)
    ensures Books(Apply(l, Approve(p, admin)))
  {
    hide RewardsOk, RewardOk, Total;
    if l.MarkApproved(p, admin).Ok? {
      assert RowOk(l, l.payouts[p]);
      FitsAsBefore(l, p);
      var row := l.payouts[p].(status := Approved, approvedBy := Some(admin));
      ByHandKeepsRewards(l, p, row);
      PutKeepsRows(l, p, row);
    }
  }

  lemma FitsAsBefore(l: Ledger, p: PayoutId)
    requires RewardsOk(l) && p < |l.payouts| && l.payouts[p].reward in l.rewards
    ensures l.Allocated(l.payouts[p].reward) <= l.rewards[l.payouts[p].reward].Cap()
  {
    TallyAllocated(l.payouts, l.payouts[p].reward);
  }

  /** Payout `p` still unpaid after a change by hand. */
  lemma HandStep(l: Ledger, p: PayoutId, row: Payout)
    requires Books(l) && p < |l.payouts| && l.payouts[p].reward in l.rewards
    requires row.reward == l.payouts[p].reward && row.submission == l.payouts[p].submission
    requires row.requestedBy == l.payouts[p].requestedBy
    requires row.hash == l.payouts[p].hash && row.amount > 0
    requires l.payouts[p].status in UNSETTLED && row.status in UNSETTLED + {PayoutCancelled}
    requires row.status in OPEN ==> l.payouts[p].status in OPEN
    requires row.status in SENDABLE ==> row.approvedBy == l.payouts[p].approvedBy && l.payouts[p].status in SENDABLE
    requires row.amount == l.payouts[p].amount
      || l.Allocated(row.reward) - l.payouts[p].amount + row.amount <= l.rewards[row.reward].Cap()
    ensures l.Has(row.reward) && Books(l.Put(p, row).Advance(row.reward))
    ensures row.status != PayoutCancelled ==> Books(l.Put(p, row))
  {
    hide RewardsOk, RowsOk, RewardOk, Total;
    RowAt(l, p);
    FitsAsBefore(l, p);
    OpenRowCounts(l, p);
    ByHandKeepsRewards(l, p, row);
    PutKeepsRows(l, p, row);
  }

  lemma ByHandStep(l: Ledger, st: Step, p: PayoutId)
    requires Books(l)
    requires (st.CorrectByHand? && st.p == p) || st == FailByHand(p) || st == AwaitByHand(p) || st == BroadcastByHand(p)
    ensures Books(Apply(l, st))
  {
    hide RewardsOk, RowsOk, RewardOk, Total;
    if p < |l.payouts| && l.payouts[p].status in UNSETTLED {
      var was := l.payouts[p];
      RowAt(l, p);
      match st
      case CorrectByHand(_, a) => if l.CorrectPayout(p, a) != l {
        HandStep(l, p, was.(amount := a, status := Requested, approvedBy := None));
      }
      case FailByHand(_) => if was.status in OPEN { HandStep(l, p, was.(status := Failed)); }
      case AwaitByHand(_) => if was.status == Requested { HandStep(l, p, was.(status := AwaitingMultisig)); }
      case BroadcastByHand(_) => if was.status == Approved { HandStep(l, p, was.(status := Broadcasting)); }
    }
  }

  lemma CancelStep(l: Ledger, p: PayoutId)
    requires Books(l)
    ensures Books(l.CancelPayout(p))
  {
    hide RewardsOk, RowsOk, RewardOk, Total;
    if l.CancelPayout(p) != l {
      RowAt(l, p);
      HandStep(l, p, l.payouts[p].(status := PayoutCancelled));
    }
  }

  lemma OtherStep(l: Ledger, st: Step)
    requires Books(l)
    requires st.RefundPendingByHand? || st.NewBounty? || st.NewReward? || st.Transition? || st.Delete? || st.People?
    ensures Books(Apply(l, st))
  {
    hide TallyOf, RowsOk, RewardOk, RewardsOk;
    match st
    case NewReward(r, b, a) =>
      NewRewardStep(l, r, b, a);
      StillRows(l, l.AddReward(r, b, a));
    case RefundPendingByHand(r) =>
      RefundPendingStep(l, r);
      StillRows(l, l.AwaitRefund(r));
    case _ => BountyOrPeopleStep(l, st);
  }

  lemma OnlyBounties(l: Ledger, st: Step)
    requires st.NewBounty? || st.Transition? || st.Delete? || st.People?
    ensures var m := Apply(l, st);
      m.rewards == l.rewards && m.payouts == l.payouts && m.refunds == l.refunds && m.allowSelf == l.allowSelf
    ensures var m := Apply(l, st);
      forall b :: b in l.bounties ==> b in m.bounties && m.bounties[b].maxWinners == l.bounties[b].maxWinners
  {
    hide TransitionsFrom, Total;
    match st
    case NewBounty(b, n) =>
    case Transition(b, to) =>
    case Delete(b) =>
    case People(_, _, _, _) =>
  }

  lemma BountyOrPeopleStep(l: Ledger, st: Step)
    requires Books(l) && (st.NewBounty? || st.Transition? || st.Delete? || st.People?)
    ensures Books(Apply(l, st))
  {
    hide Books, Apply;
    OnlyBounties(l, st);
    Unmoved(l, Apply(l, st));
  }

  lemma StillRows(l: Ledger, m: Ledger)
    requires RowsOk(l) && m.payouts == l.payouts && m.refunds == l.refunds && l.rewards.Keys <= m.rewards.Keys
    requires m.allowSelf == l.allowSelf
    ensures RowsOk(m)
  {
    SameRows(l, m);
  }

  lemma Unmoved(l: Ledger, m: Ledger)
    requires Books(l) && m.rewards == l.rewards && m.payouts == l.payouts && m.refunds == l.refunds
    requires m.allowSelf == l.allowSelf
    requires forall b :: b in l.bounties ==> b in m.bounties && m.bounties[b].maxWinners == l.bounties[b].maxWinners
    ensures Books(m)
  {
    hide RowsOk, RewardsOk;
    StillRows(l, m);
    SameRewards(l, m);
  }

  lemma SameRewards(l: Ledger, m: Ledger)
    requires RewardsOk(l) && m.rewards == l.rewards && m.payouts == l.payouts && m.refunds == l.refunds
    requires forall b :: b in l.bounties ==> b in m.bounties && m.bounties[b].maxWinners == l.bounties[b].maxWinners
    ensures RewardsOk(m)
  {
    hide TallyOf, RewardOk;
  }

  lemma RefundPendingStep(l: Ledger, r: RewardId)
    requires RewardsOk(l)
    ensures RewardsOk(l.AwaitRefund(r))
  {
    hide TallyOf;
  }

  lemma NewRewardStep(l: Ledger, r: RewardId, b: BountyId, a: int)
    requires Books(l)
    ensures RewardsOk(l.AddReward(r, b, a))
  {
    hide TallyOf, RowsOk, RewardOk;
    if r !in l.rewards && b in l.bounties && a > 0 {
      NothingYet(l, r);
      assert RewardOk(Reward(b, a, DepositPending, None, 0), l.bounties[b].maxWinners, TallyOf(l.payouts, r), 0) by {
        FreshRewardOk(a, b, l.bounties[b].maxWinners, TallyOf(l.payouts, r));
      }
    }
  }

  lemma FreshRewardOk(a: nat, b: BountyId, maxWinners: nat, t: Tally)
    requires a > 0 && t.held == 0
    ensures RewardOk(Reward(b, a, DepositPending, None, 0), maxWinners, t, 0)
  {
  }

  lemma NothingYet(l: Ledger, r: RewardId)
    requires RowsOk(l) && r !in l.rewards
    ensures TallyOf(l.payouts, r).held == 0 && RefundedSum(l.refunds, r) == 0
  {
    NoRefundYet(l.refunds, r);
    TotalZero(l.payouts, AmountIf(r, ALLOCATED));
    forall i | 0 <= i < |l.payouts| ensures AmountIf(r, ALLOCATED)(l.payouts[i]) == 0 { assert RowOk(l, l.payouts[i]); }
  }

  lemma {:induction false} NoRefundYet(fs: seq<Refund>, r: RewardId)
    requires forall i :: 0 <= i < |fs| ==> fs[i].reward != r
    ensures RefundedSum(fs, r) == 0
  {
    if fs != [] { NoRefundYet(fs[..|fs| - 1], r); }
  }
}
