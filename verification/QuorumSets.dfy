/** Counting facts behind the three vote thresholds. */
module QuorumSets {

  ghost predicate Replicas(s: set<nat>, n: nat) {
    forall r :: r in s ==> r < n
  }

  function Range(lo: nat, hi: nat): (s: set<nat>)
    requires lo <= hi
    ensures forall r :: r in s <==> lo <= r < hi
    ensures |s| == hi - lo
    decreases hi - lo
  {
    if lo == hi then {} else Range(lo, hi - 1) + {hi - 1}
  }

  lemma SubsetSize(s: set<nat>, t: set<nat>)
    requires s <= t
    ensures |s| <= |t|
  {
    assert t == s + (t - s);
  }

  /** Two sets of replicas overlap in at least the excess of their sizes over n. */
  lemma Overlap(q1: set<nat>, q2: set<nat>, n: nat)
    requires Replicas(q1, n) && Replicas(q2, n)
    ensures |q1 * q2| >= |q1| + |q2| - n
  {
    var all := Range(0, n);
    assert q1 + q2 <= all;
    SubsetSize(q1 + q2, all);
    assert |q1 + q2| == |q1| + |q2| - |q1 * q2|;
  }

  /** Quorum intersection: two vote sets of 2*byzNo+1 over at most 3*byzNo+1 replicas, with at most byzNo
      of them faulty, share a correct replica. */
  lemma CorrectReplicaInBoth(q1: set<nat>, q2: set<nat>, faulty: set<nat>, n: nat, byzNo: nat) returns (r: nat)
    requires Replicas(q1, n) && Replicas(q2, n) && n <= 3 * byzNo + 1 && |faulty| <= byzNo
    requires |q1| >= 2 * byzNo + 1 && |q2| >= 2 * byzNo + 1
    ensures r in q1 && r in q2 && r !in faulty
  {
    Overlap(q1, q2, n);
    if q1 * q2 <= faulty {
      SubsetSize(q1 * q2, faulty);
      assert false;
    }
    r :| r in q1 * q2 && r !in faulty;
  }

  // The pacemaker's threshold: strictly more than n*2/3 senders.

  function PacemakerThreshold(n: nat): nat {
    n * 2 / 3 + 1
  }

  /** The threshold is what the non-faulty nodes alone can supply, and two sender sets that reach it
      overlap in more nodes than can be faulty. */
  lemma PacemakerQuorums(n: nat, s1: set<nat>, s2: set<nat>)
    requires n >= 1 && Replicas(s1, n) && Replicas(s2, n)
    requires |s1| >= PacemakerThreshold(n) && |s2| >= PacemakerThreshold(n)
    ensures PacemakerThreshold(n) == n - (n - 1) / 3
    ensures |s1 * s2| >= (n - 1) / 3 + 1
  {
    Overlap(s1, s2, n);
  }
}
