/** Strict majorities of a finite cluster. */
module Quorum {
  import opened Types

  ghost predicate Majority(quorum: set<NodeId>, cluster: set<NodeId>) {
    quorum <= cluster && 2 * |quorum| > |cluster|
  }

  lemma {:induction false} SubsetSize<T>(a: set<T>, b: set<T>)
    requires a <= b
    ensures |a| <= |b|
    decreases a
  {
    if a == {} {
    } else {
      var x :| x in a;
      SubsetSize(a - {x}, b - {x});
    }
  }

  lemma MajoritiesMeet(a: set<NodeId>, b: set<NodeId>, cluster: set<NodeId>) returns (x: NodeId)
    requires Majority(a, cluster) && Majority(b, cluster)
    ensures x in a && x in b
  {
    if a * b == {} {
      assert |a + b| == |a| + |b|;
      SubsetSize(a + b, cluster);
      assert false;
    }
    x :| x in a * b;
  }
}
