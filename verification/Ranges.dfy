/** The pigeonhole principle for sets of indexes. */
module Ranges {

  function Range(n: nat): (r: set<int>)
    ensures forall x :: x in r <==> 0 <= x < n
    ensures |r| == n
  {
    if n == 0 then {} else Range(n - 1) + {n - 1}
  }

  lemma SubsetOfSameSize(a: set<int>, b: set<int>)
    requires a <= b && |a| == |b|
    ensures a == b
  {
    if b - a != {} { assert |b| == |a| + |b - a| by { assert b == a + (b - a); } }
    assert b == a + (b - a);
  }

  /** n different indexes below n are all of them. */
  lemma Pigeonhole(a: set<int>, n: nat)
    requires |a| == n && forall x :: x in a ==> 0 <= x < n
    ensures a == Range(n)
  {
    SubsetOfSameSize(a, Range(n));
  }

  lemma SomeIndex(a: set<int>)
    ensures a != {} ==> exists x :: x in a
  {
    if forall x :: x !in a { assert a == {}; }
  }
}
