/** Fresh numbers, for claim tokens, transactions and refresh tokens. */
module Fresh {
  lemma {:induction false} FreshNat(used: set<nat>) returns (n: nat)
    ensures forall m :: m in used ==> m < n
    decreases |used|
  {
    n := 0;
    if used != {} {
      var m :| m in used;
      var rest := FreshNat(used - {m});
      n := if rest > m then rest else m + 1;
      forall k | k in used ensures k < n { if k != m { assert k in used - {m}; } }
    }
  }
}
