module Sets {
  /** A set that is not empty has a member. */
  lemma Member<T>(xs: set<T>) returns (x: T)
    requires xs != {}
    ensures x in xs
  {
    x :| x in xs;
  }

  /** A number beyond all that are in use. */
  lemma {:induction false} Above(xs: set<nat>) returns (n: nat)
    ensures forall x :: x in xs ==> x < n
    decreases |xs|
  {
    n := 0;
    if xs != {} {
      var x :| x in xs;
      var m := Above(xs - {x});
      n := if x < m then m else x + 1;
      forall y | y in xs ensures y < n {
        assert y == x || y in xs - {x};
      }
    }
  }
}
