/**
 * Induction along a run: what holds at one point and is kept by each step holds from there on.
 */
module Induction {
  lemma {:induction false} UpTo(holds: nat -> bool, i: nat, k: nat)
    requires i <= k && holds(i)
    requires forall m: nat :: i <= m < k && holds(m) ==> holds(m + 1)
    ensures holds(k)
  {
    if i < k {
      UpTo(holds, i, k - 1);
      assert holds((k - 1) + 1);
    }
  }
}
