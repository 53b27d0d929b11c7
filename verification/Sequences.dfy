/** Sequences without duplicates. */
module Sequences {

  function Elements<T>(s: seq<T>): set<T> {
    set x | x in s
  }

  ghost predicate Distinct<T(!new)>(s: seq<T>) {
    forall i, j :: 0 <= i < j < |s| ==> s[i] != s[j]
  }

  lemma {:induction false} DistinctCardinality<T(!new)>(s: seq<T>)
    requires Distinct(s)
    ensures |Elements(s)| == |s|
  {
    if s != [] {
      var front := s[..|s| - 1];
      DistinctCardinality(front);
      assert s == front + [s[|s| - 1]];
      assert Elements(s) == Elements(front) + {s[|s| - 1]};
    }
  }

  lemma SubsetCardinality<T>(a: set<T>, b: set<T>)
    requires a <= b
    ensures |a| <= |b|
    ensures |a| == |b| ==> a == b
  {
    assert b == a + (b - a);
  }

  lemma TailOfDistinct<T(!new)>(s: seq<T>)
    requires Distinct(s) && s != []
    ensures Distinct(s[1..])
    ensures forall x :: x in s[1..] <==> x in s && x != s[0]
  {
    assert s == [s[0]] + s[1..];
  }

  /** A log that misses an entry of another one is shorter. */
  lemma MissingEntry<T(!new)>(part: seq<T>, whole: seq<T>, x: T)
    requires Distinct(part) && Distinct(whole)
    requires forall y :: y in part ==> y in whole
    requires x in whole && x !in part
    ensures |part| < |whole|
  {
    DistinctCardinality(part);
    DistinctCardinality(whole);
    assert Elements(part) + {x} <= Elements(whole);
    SubsetCardinality(Elements(part) + {x}, Elements(whole));
  }
}
