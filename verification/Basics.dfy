/** Stock types and set facts shared by the other modules. */
module Basics {

  datatype Option<+T> = None | Some(value: T)

  /** The elements of a set are no fewer than those of a subset. */
  lemma SubsetSize<T>(a: set<T>, b: set<T>)
    requires a <= b
    ensures |a| <= |b|
  {
    assert b == a + (b - a);
  }

  /** Pigeonhole: two disjoint subsets fit side by side into the whole. */
  lemma DisjointSubsetsFit<T>(a: set<T>, b: set<T>, whole: set<T>)
    requires a <= whole && b <= whole && a * b == {}
    ensures |a| + |b| <= |whole|
  {
    assert |a + b| == |a| + |b|;
    SubsetSize(a + b, whole);
  }

  /** A set can be cut down to any smaller size. */
  lemma SubsetOfSize<T>(whole: set<T>, size: nat) returns (part: set<T>)
    requires size <= |whole|
    ensures part <= whole && |part| == size
  {
    part := whole;
    while |part| > size
      invariant part <= whole && |part| >= size
      decreases |part|
    {
      var x :| x in part;
      part := part - {x};
    }
  }
}
