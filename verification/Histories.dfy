/**
 What becomes of a fact over a run, told by position: it holds exactly if it held to begin with or
 some step made it so, and no later step has ended it.
 */
module Histories {

  ghost predicate LastsFrom(ended: nat -> bool, from: nat, n: nat) {
    forall k: nat :: from <= k < n ==> !ended(k)
  }

  // Made at k, and not ended since.
  ghost predicate MadeAndLasts(made: nat -> bool, ended: nat -> bool, k: nat, n: nat) {
    k < n && made(k) && LastsFrom(ended, k + 1, n)
  }

  /** After n steps of a run in which step k makes the fact true if `made(k)` and otherwise false if
      `ended(k)`. */
  ghost predicate Stands(initially: bool, made: nat -> bool, ended: nat -> bool, n: nat) {
    || (initially && LastsFrom(ended, 0, n))
    || exists k: nat :: MadeAndLasts(made, ended, k, n)
  }

  lemma StandsMore(initially: bool, made: nat -> bool, ended: nat -> bool, n: nat)
    ensures Stands(initially, made, ended, n + 1) <==> made(n) || (Stands(initially, made, ended, n) && !ended(n))
  {
    var m := n + 1;
    if made(n) {
      assert MadeAndLasts(made, ended, n, m);
    } else {
      forall k: nat ensures MadeAndLasts(made, ended, k, m) <==> MadeAndLasts(made, ended, k, n) && !ended(n) {
      }
      assert LastsFrom(ended, 0, m) <==> LastsFrom(ended, 0, n) && !ended(n);
    }
  }

  // Step k makes, ends or leaves the fact.
  ghost predicate Changes(holds: nat -> bool, made: nat -> bool, ended: nat -> bool, k: nat) {
    holds(k + 1) <==> made(k) || (holds(k) && !ended(k))
  }

  /** A fact that every step makes, ends or leaves stands exactly so at the end. */
  lemma {:induction false} StandsExactly(holds: nat -> bool, made: nat -> bool, ended: nat -> bool, n: nat)
    requires forall k: nat :: k < n ==> Changes(holds, made, ended, k)
    ensures holds(n) <==> Stands(holds(0), made, ended, n)
  {
    if n == 0 {
    } else {
      StandsExactly(holds, made, ended, n - 1);
      StandsMore(holds(0), made, ended, n - 1);
      assert Changes(holds, made, ended, n - 1);
    }
  }
}
