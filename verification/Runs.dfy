/** Induction along the states of a run, for properties that every step keeps. */
module Runs {

  lemma {:induction false} HoldsAlong(steps: nat, holds: nat -> bool, i: nat)
    requires i <= steps && holds(0)
    requires forall k: nat :: k < steps && holds(k) ==> holds(k + 1)
    ensures holds(i)
  {
    if i > 0 {
      HoldsAlong(steps, holds, i - 1);
    }
  }
}
