/** Natural numbers: the smaller of two, and one above all of a finite set. */
module Numbers {
  function Min(a: nat, b: nat): nat { if a <= b then a else b }

  lemma {:induction false} Above(ns: set<nat>) returns (m: nat)
    ensures forall n :: n in ns ==> n < m
  {
    if forall n: nat :: n !in ns {
      m := 0;
    } else {
      var n: nat :| n in ns;
      var rest := Above(ns - {n});
      m := if n < rest then rest else n + 1;
      forall x | x in ns ensures x < m {
        assert x == n || x in ns - {n};
      }
    }
  }
}
