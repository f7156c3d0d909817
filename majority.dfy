/** Majority arithmetic of the lock manager: the quorum size and the vote
    count of one round, with the intersection property that makes two
    quorums over the same nodes share a node. */
module Majority {

  /** Width of the `u32` the node count is cast to. */
  const U32: nat := 0x1_0000_0000

  /** `(N as u32) / 2 + 1`: the least number of nodes that is a strict
      majority of N (for every N the cast leaves unchanged). */
  function Quorum(n: nat): (q: nat)
    ensures q >= 1
    ensures n < U32 ==> n < 2 * q <= n + 2
    ensures 1 <= n < U32 ==> q <= n
  {
    (n % U32) / 2 + 1
  }

  /** The number of `true` votes, folded from the left as the manager does. */
  function Count(votes: seq<bool>): (n: nat)
    ensures n <= |votes|
    ensures n == 0 <== forall i :: 0 <= i < |votes| ==> !votes[i]
  {
    if votes == [] then 0
    else Count(votes[..|votes| - 1]) + (if votes[|votes| - 1] then 1 else 0)
  }

  /** Pointwise conjunction of two vote vectors over the same nodes. */
  function Both(a: seq<bool>, b: seq<bool>): (c: seq<bool>)
    requires |a| == |b|
    ensures |c| == |a|
    ensures forall i :: 0 <= i < |c| ==> c[i] == (a[i] && b[i])
  {
    seq(|a|, i requires 0 <= i < |a| => a[i] && b[i])
  }

  /** Every node votes `true`: the count is the number of nodes. */
  lemma {:induction false} CountAll(v: seq<bool>)
    requires forall i :: 0 <= i < |v| ==> v[i]
    ensures Count(v) == |v|
  {
    if v != [] {
      CountAll(v[..|v| - 1]);
    }
  }

  /** A node-by-node weaker vector never has more votes. */
  lemma {:induction false} CountMonotone(a: seq<bool>, b: seq<bool>)
    requires |a| == |b|
    requires forall i :: 0 <= i < |a| ==> a[i] ==> b[i]
    ensures Count(a) <= Count(b)
  {
    if a != [] {
      CountMonotone(a[..|a| - 1], b[..|b| - 1]);
    }
  }

  /** A positive count names a node that voted `true`. */
  lemma CountPositive(v: seq<bool>)
    requires Count(v) > 0
    ensures exists i :: 0 <= i < |v| && v[i]
  {
  }

  /** Counting two vote vectors: whatever they do not share fits in N nodes. */
  lemma {:induction false} CountOverlap(a: seq<bool>, b: seq<bool>)
    requires |a| == |b|
    ensures Count(a) + Count(b) <= |a| + Count(Both(a, b))
  {
    if a != [] {
      var k := |a| - 1;
      CountOverlap(a[..k], b[..k]);
      assert Both(a, b)[..k] == Both(a[..k], b[..k]);
    }
  }

  /** Quorum intersection: two vote vectors over the same N nodes that each
      reach the quorum have a node in common. */
  lemma QuorumsIntersect(a: seq<bool>, b: seq<bool>)
    requires |a| == |b| < U32
    requires Count(a) >= Quorum(|a|) && Count(b) >= Quorum(|b|)
    ensures exists i :: 0 <= i < |a| && a[i] && b[i]
  {
    CountOverlap(a, b);
    CountPositive(Both(a, b));
    var i :| 0 <= i < |a| && Both(a, b)[i];
  }

  /** The contrapositive used for mutual exclusion: while one vector holds a
      quorum, a vector that never agrees with it stays below the quorum. */
  lemma DisjointBelowQuorum(a: seq<bool>, b: seq<bool>)
    requires |a| == |b| < U32
    requires forall i :: 0 <= i < |a| ==> !(a[i] && b[i])
    requires Count(b) >= Quorum(|b|)
    ensures Count(a) < Quorum(|a|)
  {
    CountOverlap(a, b);
  }
}
