/** The ledger's transactions, one after the other, as runs of the lock-level machine. */
module LedgerSerial {
  import opened Prelude
  import opened TxHash
  import opened LedgerModel
  import opened LedgerSafety
  import H = LedgerHashes

  function ViewOf(l: Ledger): H.View {
    H.View(map r | r in l.rewards && l.rewards[r].deposit.Some? :: l.rewards[r].deposit.value,
           map p: PayoutId | p < |l.payouts| && l.payouts[p].hash.Some? && l.payouts[p].reward in l.rewards ::
             H.Sent(l.rewards[l.payouts[p].reward].bounty, l.payouts[p].hash.value),
           l.refunds)
  }

  /** The hash columns agree row by row. */
  lemma SameView(l: Ledger, m: Ledger)
    requires m.refunds == l.refunds && l.rewards.Keys <= m.rewards.Keys && |l.payouts| <= |m.payouts|
    requires forall r :: r in m.rewards && r !in l.rewards ==> m.rewards[r].deposit.None?
    requires forall r :: r in l.rewards ==>
      m.rewards[r].deposit == l.rewards[r].deposit && m.rewards[r].bounty == l.rewards[r].bounty
    requires forall i :: |l.payouts| <= i < |m.payouts| ==> m.payouts[i].hash.None?
    requires forall i :: 0 <= i < |l.payouts| ==>
      m.payouts[i].hash == l.payouts[i].hash && m.payouts[i].reward == l.payouts[i].reward
    requires forall i :: 0 <= i < |l.payouts| ==> l.payouts[i].reward in l.rewards
    ensures ViewOf(m) == ViewOf(l)
  {
    assert ViewOf(m).deposits == ViewOf(l).deposits;
    assert ViewOf(m).sent == ViewOf(l).sent;
  }

  lemma RewardsKnown(l: Ledger)
    requires Books(l)
    ensures forall i :: 0 <= i < |l.payouts| ==> l.payouts[i].reward in l.rewards
  {
    forall i | 0 <= i < |l.payouts| ensures l.payouts[i].reward in l.rewards { RowAt(l, i); }
  }

  lemma HashesRead(l: Ledger, h: Hash)
    requires Books(l)
    ensures ViewOf(l).Deposited(h) <==> l.HashDeposited(h)
    ensures ViewOf(l).Paid(h) <==> l.HashPaid(h)
    ensures ViewOf(l).Refunded(h) <==> l.HashRefunded(h)
  {
    hide RewardsOk;
    var v := ViewOf(l);
    forall r | r in l.rewards && l.rewards[r].deposit == Some(h) ensures v.Deposited(h) { assert r in v.deposits; }
    forall p: PayoutId | p < |l.payouts| && l.payouts[p].hash == Some(h) ensures v.Paid(h) {
      RowAt(l, p);
      assert p in v.sent && v.sent[p].hash == h;
    }
  }

  lemma PaidElsewhereRead(l: Ledger, p: PayoutId, h: Hash)
    requires Books(l) && p < |l.payouts| && l.payouts[p].status in SENDABLE && l.Has(l.payouts[p].reward)
    ensures p !in ViewOf(l).sent
    ensures ViewOf(l).PaidOutside(h, l.rewards[l.payouts[p].reward].bounty) ==> l.PaidElsewhere(p, h)
  {
    hide RewardOk;
    RowAt(l, p);
    forall q | q in ViewOf(l).sent ensures l.Has(l.payouts[q].reward) && q != p && l.payouts[q].status == PaidOut {
      RowAt(l, q);
    }
  }

  lemma {:induction false} RefundRowCounts(fs: seq<Refund>, r: RewardId, i: nat)
    requires forall k :: 0 <= k < |fs| ==> fs[k].amount > 0
    ensures RefundedSum(fs, r) >= 0
    ensures i < |fs| && fs[i].reward == r ==> RefundedSum(fs, r) > 0
  {
    if fs != [] { RefundRowCounts(fs[..|fs| - 1], r, i); }
  }

  lemma NotReturned(l: Ledger, r: RewardId)
    requires Books(l) && r in l.rewards && l.rewards[r].status != Refunded
    ensures !ViewOf(l).Returned(r)
  {
    forall i: nat | i < |l.refunds| ensures l.refunds[i].reward != r { RefundRowCounts(l.refunds, r, i); }
  }

  // ----- One call, one transaction of the machine -----

  /** The machine at rest over the ledger's hash columns. */
  function Rest(l: Ledger, key: Hash -> int): H.State { H.State(ViewOf(l), map[], key, true) }

  lemma ConfirmRuns(s0: H.State, before: seq<H.Step>, l: Ledger, key: Hash -> int, r: RewardId, raw: string, a: int)
    returns (steps: seq<H.Step>)
    requires Books(l) && l.ConfirmDeposit(r, raw, a).Ok? && H.Runs(s0, before, Rest(l, key))
    ensures H.Runs(s0, steps, Rest(l.ConfirmDeposit(r, raw, a).value, key))
  {
    hide ViewOf, H.Runs, Ledger.ConfirmDeposit, NormalizeTxHash, Ledger.HashDeposited, Ledger.HashPaid,
      Ledger.HashRefunded, Books;
    Confirmed(l, r, raw, a);
    var h := NormalizeTxHash(raw).value;
    HashesRead(l, h);
    FundView(l, r, h, a);
    steps := H.DepositChecks(s0, before, Rest(l, key), 0, r, h);
    steps := H.Finishes(s0, steps, Rest(l, key), 0, H.Txn(H.Depositing(r), h, H.AllChecked));
  }

  lemma FundView(l: Ledger, r: RewardId, h: Hash, a: nat)
    requires Books(l) && r in l.rewards && l.rewards[r].status == DepositPending
    ensures r !in ViewOf(l).deposits
    ensures ViewOf(l.Fund(r, h, a)) == H.Committed(ViewOf(l), H.Txn(H.Depositing(r), h, H.AllChecked))
  {
    hide RowsOk, TallyOf;
    assert l.rewards[r].deposit.None?;
    hide RewardsOk;
    var v := ViewOf(l.Fund(r, h, a));
    assert v.deposits == ViewOf(l).deposits[r := h];
    assert v.sent == ViewOf(l).sent;
  }

  lemma PayRuns(s0: H.State, before: seq<H.Step>, l: Ledger, key: Hash -> int, p: PayoutId, raw: string)
    returns (steps: seq<H.Step>)
    requires Books(l) && l.MarkPaid(p, raw).Ok? && H.Runs(s0, before, Rest(l, key))
    ensures H.Runs(s0, steps, Rest(l.MarkPaid(p, raw).value, key))
  {
    hide ViewOf, H.Runs, Ledger.MarkPaid, Ledger.PaidElsewhere, NormalizeTxHash, Ledger.HashDeposited, Ledger.HashPaid,
      Ledger.HashRefunded, Books, Total;
    Settled(l, p, raw);
    var h := NormalizeTxHash(raw).value;
    var b := l.rewards[l.payouts[p].reward].bounty;
    HashesRead(l, h);
    PaidElsewhereRead(l, p, h);
    steps := H.PaymentChecks(s0, before, Rest(l, key), 0, p, b, h);
    steps := H.Finishes(s0, steps, Rest(l, key), 0, H.Txn(H.Paying(p, b), h, H.AllChecked));
    PaidView(l, p, h);
  }

  lemma PaidView(l: Ledger, p: PayoutId, h: Hash)
    requires Books(l) && p < |l.payouts| && l.Has(l.payouts[p].reward)
    ensures var b := l.rewards[l.payouts[p].reward].bounty;
      ViewOf(l.Put(p, l.payouts[p].(status := PaidOut, hash := Some(h))).Advance(l.payouts[p].reward))
        == H.Committed(ViewOf(l), H.Txn(H.Paying(p, b), h, H.AllChecked))
  {
    hide Total, Books;
    RewardsKnown(l);
    var b := l.rewards[l.payouts[p].reward].bounty;
    var m := l.Put(p, l.payouts[p].(status := PaidOut, hash := Some(h)));
    assert ViewOf(m).sent == ViewOf(l).sent[p := H.Sent(b, h)];
    SameView(m, m.Advance(l.payouts[p].reward));
  }

  lemma RefundRuns(s0: H.State, before: seq<H.Step>, l: Ledger, key: Hash -> int, r: RewardId, raw: string)
    returns (steps: seq<H.Step>)
    requires Books(l) && l.RecordRefund(r, raw).Ok? && H.Runs(s0, before, Rest(l, key))
    ensures H.Runs(s0, steps, Rest(l.RecordRefund(r, raw).value, key))
  {
    hide ViewOf, H.Runs, Ledger.RecordRefund, NormalizeTxHash, Ledger.HashDeposited, Ledger.HashPaid,
      Ledger.HashRefunded, Books, Total;
    Returned(l, r, raw);
    var h, a := NormalizeTxHash(raw).value, l.rewards[r].deposited - l.PaidSum(r);
    HashesRead(l, h);
    NotReturned(l, r);
    steps := H.RefundChecks(s0, before, Rest(l, key), 0, r, a, h);
    steps := H.Finishes(s0, steps, Rest(l, key), 0, H.Txn(H.Refunding(r, a), h, H.AllChecked));
    RewardsKnown(l);
    ReturnView(l, r, h);
  }

  lemma ReturnView(l: Ledger, r: RewardId, h: Hash)
    requires r in l.rewards && forall i :: 0 <= i < |l.payouts| ==> l.payouts[i].reward in l.rewards
    ensures ViewOf(l.Return(r, h))
      == H.Committed(ViewOf(l), H.Txn(H.Refunding(r, l.rewards[r].deposited - l.PaidSum(r)), h, H.AllChecked))
  {
    hide Total;
    var m := l.(rewards := l.rewards[r := l.rewards[r].(status := Refunded)]);
    SameView(l, m);
  }

  /** Every other step leaves the hash columns alone. */
  lemma OthersKeepHashes(l: Ledger, st: Step)
    requires Books(l) && !st.Confirm? && !st.Pay? && !st.Repay?
    ensures ViewOf(Apply(l, st)) == ViewOf(l)
  {
    hide Books, Total, TransitionsFrom, ViewOf;
    match st
    case Request(r, s, a, admin) => RequestKeepsHashes(l, r, s, a, admin);
    case Approve(p, admin) => {
      if Apply(l, st) != l { PutKeepsHashes(l, p, l.payouts[p].(status := Approved, approvedBy := Some(admin))); }
    }
    case CancelByHand(p) => { if Apply(l, st) != l { PutKeepsHashes(l, p, l.payouts[p].(status := PayoutCancelled)); } }
    case CorrectByHand(p, a) => {
      if Apply(l, st) != l {
        PutKeepsHashes(l, p, l.payouts[p].(amount := a, status := Requested, approvedBy := None));
      }
    }
    case FailByHand(p) => { if Apply(l, st) != l { PutKeepsHashes(l, p, l.payouts[p].(status := Failed)); } }
    case AwaitByHand(p) => { if Apply(l, st) != l { PutKeepsHashes(l, p, l.payouts[p].(status := AwaitingMultisig)); } }
    case BroadcastByHand(p) => { if Apply(l, st) != l { PutKeepsHashes(l, p, l.payouts[p].(status := Broadcasting)); } }
    case _ => RewardKeepsHashes(l, st);
  }

  lemma RewardKeepsHashes(l: Ledger, st: Step)
    requires Books(l)
    requires (st.RefundPendingByHand? || st.NewBounty? || st.NewReward? || st.Transition? || st.Delete? || st.People?)
    ensures ViewOf(Apply(l, st)) == ViewOf(l)
  {
    hide Books, Total, TransitionsFrom, ViewOf;
    RewardsKnown(l);
    match st
    case NewReward(r, b, a) => SameView(l, l.AddReward(r, b, a));
    case RefundPendingByHand(r) => SameView(l, l.AwaitRefund(r));
    case _ => BountiesKeepHashes(l, st);
  }

  lemma BountiesKeepHashes(l: Ledger, st: Step)
    requires st.NewBounty? || st.Transition? || st.Delete? || st.People?
    ensures ViewOf(Apply(l, st)) == ViewOf(l)
  {
    hide Apply, ViewOf;
    OnlyBounties(l, st);
    SameTables(l, Apply(l, st));
  }

  lemma SameTables(l: Ledger, m: Ledger)
    requires m.rewards == l.rewards && m.payouts == l.payouts && m.refunds == l.refunds
    ensures ViewOf(m) == ViewOf(l)
  {
    assert ViewOf(m).deposits == ViewOf(l).deposits;
    assert ViewOf(m).sent == ViewOf(l).sent;
  }

  lemma PutKeepsHashes(l: Ledger, p: PayoutId, row: Payout)
    requires Books(l) && p < |l.payouts| && row.reward == l.payouts[p].reward && row.hash == l.payouts[p].hash
    ensures ViewOf(l.Put(p, row)) == ViewOf(l)
    ensures l.Has(row.reward) ==> ViewOf(l.Put(p, row).Advance(row.reward)) == ViewOf(l)
  {
    hide Total, ViewOf, Books;
    RewardsKnown(l);
    SameView(l, l.Put(p, row));
    if l.Has(row.reward) { SameView(l, l.Put(p, row).Advance(row.reward)); }
  }

  lemma RequestKeepsHashes(l: Ledger, r: RewardId, s: SubmissionId, a: int, admin: UserId)
    requires Books(l)
    ensures ViewOf(Apply(l, Request(r, s, a, admin))) == ViewOf(l)
  {
    hide Total, Ledger.RequestPayout, ViewOf, Books;
    RewardsKnown(l);
    if l.RequestPayout(r, s, a, admin).Ok? {
      var row := Awarded(l, r, s, a, admin);
      SameView(l, l.Award(row));
    }
  }

  /** Every run of whole transactions on the ledger is, on the hash columns, a run of the interleaved machine. */
  lemma {:induction false} LedgerRunsAreMachineRuns(s0: H.State, before: seq<H.Step>, l: Ledger, key: Hash -> int,
      steps: seq<Step>)
    returns (serial: seq<H.Step>)
    requires Books(l) && H.Runs(s0, before, Rest(l, key))
    ensures H.Runs(s0, serial, Rest(Run(l, steps), key))
    decreases |steps|
  {
    hide H.Runs, Books, Ledger.ConfirmDeposit, Ledger.MarkPaid, Ledger.RecordRefund;
    serial := before;
    if steps != [] {
      match steps[0] {
        case Confirm(r, raw, a) => if l.ConfirmDeposit(r, raw, a).Ok? {
          serial := ConfirmRuns(s0, before, l, key, r, raw, a);
        }
        case Pay(p, raw) => if l.MarkPaid(p, raw).Ok? { serial := PayRuns(s0, before, l, key, p, raw); }
        case Repay(r, raw) => if l.RecordRefund(r, raw).Ok? { serial := RefundRuns(s0, before, l, key, r, raw); }
        case _ => OthersKeepHashes(l, steps[0]);
      }
      StepKeepsBooks(l, steps[0]);
      serial := LedgerRunsAreMachineRuns(s0, serial, Apply(l, steps[0]), key, steps[1..]);
    }
  }

  /** So the ledger's deposit, payout and refund hashes keep to one direction after every run. */
  lemma LedgerHashesKeepDirection(allowSelf: bool, steps: seq<Step>)
    ensures H.OneDirection(ViewOf(Run(Init(allowSelf), steps)))
  {
    hide H.OneDirection;
    var key := (h: Hash) => 0;
    var s0 := H.Init(key, true);
    assert Rest(Init(allowSelf), key) == s0;
    assert H.Runs(s0, [], s0);
    var serial := LedgerRunsAreMachineRuns(s0, [], Init(allowSelf), key, steps);
    H.OneHashOneDirection(key, serial, Rest(Run(Init(allowSelf), steps), key));
  }
}
