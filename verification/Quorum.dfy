/** Majority arithmetic of `PaxosOptions` and the intersection of quorums it is for. */
module Quorum {
  import opened Basics

  function Ceil(x: real): int {
    -((-x).Floor)
  }

  /** `GetMajorityCount`: the threshold times the member count, rounded up. The threshold is a real number. */
  function MajorityCount(threshold: real, members: nat): nat
    requires threshold >= 0.0
  {
    assert threshold * members as real >= 0.0;
    Ceil(threshold * members as real)
  }

  /** Any two vote sets of at least `majority` voters among `members` nodes share a voter. */
  ghost predicate QuorumsIntersect(majority: nat, members: nat) {
    forall nodes: set<nat>, a: set<nat>, b: set<nat> ::
      |nodes| == members && a <= nodes && b <= nodes && |a| >= majority && |b| >= majority ==> a * b != {}
  }

  function FirstNodes(n: nat): (s: set<nat>)
    ensures |s| == n
    ensures forall x :: x in s <==> 0 <= x < n
  {
    if n == 0 then {} else FirstNodes(n - 1) + {n - 1}
  }

  /** Quorums intersect exactly when twice the majority exceeds the member count. */
  lemma QuorumsIntersectIff(majority: nat, members: nat)
    ensures QuorumsIntersect(majority, members) <==> 2 * majority > members
  {
    if 2 * majority > members {
      forall nodes: set<nat>, a: set<nat>, b: set<nat> |
        |nodes| == members && a <= nodes && b <= nodes && |a| >= majority && |b| >= majority
        ensures a * b != {}
      {
        if a * b == {} {
          DisjointSubsetsFit(a, b, nodes);
        }
      }
    } else {
      var nodes := FirstNodes(members);
      var a := SubsetOfSize(nodes, majority);
      var b := SubsetOfSize(nodes - a, majority);
      assert a * b == {};
    }
  }

  lemma CeilBounds(x: real)
    ensures (Ceil(x) - 1) as real < x <= Ceil(x) as real
  {
  }

  /** A threshold above one half makes quorums intersect in every non-empty cluster. */
  lemma ThresholdAboveHalfIntersects(threshold: real, members: nat)
    requires threshold > 0.5 && members > 0
    ensures QuorumsIntersect(MajorityCount(threshold, members), members)
  {
    var product := threshold * members as real;
    assert product > 0.5 * members as real;
    CeilBounds(product);
    QuorumsIntersectIff(MajorityCount(threshold, members), members);
  }

  /** With the threshold at exactly one half, quorums intersect only in clusters of odd size. */
  lemma HalfThresholdIntersectsIffOdd(members: nat)
    ensures QuorumsIntersect(MajorityCount(0.5, members), members) <==> members % 2 == 1
  {
    var product := 0.5 * members as real;
    CeilBounds(product);
    assert members % 2 == 0 ==> product == (members / 2) as real;
    assert members % 2 == 1 ==> product == (members / 2) as real + 0.5;
    QuorumsIntersectIff(MajorityCount(0.5, members), members);
  }
}
