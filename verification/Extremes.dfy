/** Least, greatest and number of the values in a finite set. */
module Extremes {
  import opened Text

  lemma Inhabited(s: set<int>)
    requires s != {}
    ensures exists x :: x in s
  {
    if forall x :: x !in s {
      assert false;
    }
  }

  ghost function Least(s: set<int>): (m: int)
    requires s != {}
    ensures m in s && forall x :: x in s ==> m <= x
  {
    Inhabited(s);
    var x :| x in s;
    if s == {x} then x
    else
      var y := Least(s - {x});
      assert forall z :: z in s ==> z == x || z in s - {x};
      if x <= y then x else y
  }

  ghost function Greatest(s: set<int>): (m: int)
    requires s != {}
    ensures m in s && forall x :: x in s ==> x <= m
  {
    Inhabited(s);
    var x :| x in s;
    if s == {x} then x
    else
      var y := Greatest(s - {x});
      assert forall z :: z in s ==> z == x || z in s - {x};
      if x >= y then x else y
  }

  /** The extreme of no values is absent. */
  ghost function LeastOf(s: set<int>): Option<int> { if s == {} then None else Some(Least(s)) }

  ghost function GreatestOf(s: set<int>): Option<int> { if s == {} then None else Some(Greatest(s)) }

  /** Adding values to a set moves each extreme one way only, and moves it exactly when an added value beats it. */
  lemma ExtremesOfUnion(a: set<int>, b: set<int>)
    requires a != {}
    ensures a + b != {}
    ensures Least(a + b) <= Least(a) && (Least(a + b) == Least(a) <==> forall v :: v in b ==> v >= Least(a))
    ensures Greatest(a + b) >= Greatest(a) && (Greatest(a + b) == Greatest(a) <==> forall v :: v in b ==> v <= Greatest(a))
  {
    assert Least(a) in a + b && Greatest(a) in a + b;
  }

  lemma LeastOfUnion(a: set<int>, b: set<int>)
    ensures LeastOf(a).Some? ==> LeastOf(a + b).Some? && LeastOf(a + b).value <= LeastOf(a).value
    ensures LeastOf(a + b) == LeastOf(a) <==> forall v :: v in b ==> a != {} && v >= Least(a)
  {
    if a != {} {
      ExtremesOfUnion(a, b);
    } else {
      assert a + b == b;
    }
  }

  lemma GreatestOfUnion(a: set<int>, b: set<int>)
    ensures GreatestOf(a).Some? ==> GreatestOf(a + b).Some? && GreatestOf(a + b).value >= GreatestOf(a).value
    ensures GreatestOf(a + b) == GreatestOf(a) <==> forall v :: v in b ==> a != {} && v <= Greatest(a)
  {
    if a != {} {
      ExtremesOfUnion(a, b);
    } else {
      assert a + b == b;
    }
  }

  /** Adding values to a set adds to its size exactly when one of them is new. */
  lemma SizeOfUnion<T>(a: set<T>, b: set<T>)
    ensures |a + b| >= |a| && (|a + b| == |a| <==> b <= a)
  {
    assert a + b == a + (b - a);
    assert |a + b| == |a| + |b - a|;
    if b <= a {
      assert b - a == {};
    }
    if b - a == {} {
      assert forall v :: v in b ==> v in a;
    }
  }
}
