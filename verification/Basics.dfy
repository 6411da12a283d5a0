/** Shared datatypes, and counting facts about finite sets of instance indices. */
module Basics {

  datatype Option<+T> = None | Some(value: T)

  /** The ordinals 0 .. n-1. */
  function Indices(n: nat): (r: set<nat>)
    ensures forall i: nat :: i in r <==> i < n
    ensures |r| == n
  {
    if n == 0 then {} else Indices(n - 1) + {n - 1}
  }

  lemma {:induction false} SubsetCard<T>(a: set<T>, b: set<T>)
    requires a <= b
    ensures |a| <= |b|
  {
    if a != {} {
      var x :| x in a;
      SubsetCard(a - {x}, b - {x});
    }
  }

  /** Two sets of ordinals below n that together count more than n share a member. */
  lemma Overlap(a: set<nat>, b: set<nat>, n: nat) returns (x: nat)
    requires a <= Indices(n) && b <= Indices(n)
    requires |a| + |b| > n
    ensures x in a && x in b
  {
    if a * b == {} {
      assert |a + b| == |a| + |b|;
      SubsetCard(a + b, Indices(n));
    }
    x :| x in a * b;
  }

  /** Disjoint sets of ordinals below n count at most n together. */
  lemma DisjointCard(a: set<nat>, b: set<nat>, n: nat)
    requires a <= Indices(n) && b <= Indices(n) && a !! b
    ensures |a| + |b| <= n
  {
    assert |a + b| == |a| + |b|;
    SubsetCard(a + b, Indices(n));
  }
}
