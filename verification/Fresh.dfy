/** Numbers nobody uses yet. */
module Fresh {

  lemma {:induction false} UpperBound(used: set<nat>) returns (bound: nat)
    ensures forall n <- used :: n < bound
    decreases |used|
  {
    if used == {} {
      bound := 0;
    } else {
      var n :| n in used;
      var rest := UpperBound(used - {n});
      bound := if rest > n then rest else n + 1;
      assert forall m <- used :: m == n || m in used - {n};
    }
  }
}
