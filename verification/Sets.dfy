/** Finite sets: an element of a non-empty one, sizes, and the largest integer. */
module Sets {

  lemma Inhabitant<T>(s: set<T>) returns (x: T)
    requires s != {}
    ensures x in s
  {
    x :| x in s;
  }

  lemma SubsetCardinality<T>(a: set<T>, b: set<T>)
    requires a <= b
    ensures |a| <= |b|
    ensures a != b ==> |a| < |b|
  {
    assert b == a + (b - a);
    if a != b { assert b - a != {}; }
  }

  predicate IsMax(s: set<int>, x: int) { x in s && forall y :: y in s ==> y <= x }

  lemma {:induction false} MaxExists(s: set<int>)
    requires s != {}
    ensures exists x :: IsMax(s, x)
    decreases s
  {
    var x := Inhabitant(s);
    var rest := s - {x};
    if rest == {} {
      assert s == {x};
      assert IsMax(s, x);
    } else {
      MaxExists(rest);
      var y :| IsMax(rest, y);
      assert forall z :: z in s ==> z == x || z in rest;
      assert IsMax(s, if x < y then y else x);
    }
  }

  function Max(s: set<int>): (x: int)
    requires s != {}
    ensures IsMax(s, x)
  {
    MaxExists(s);
    var x :| IsMax(s, x);
    x
  }
}
