/** What the protocol guarantees across rounds and across lock managers that
    share the same nodes: a granted lock is stored at a quorum, a second
    token cannot win a round while the first holds a quorum, and releasing
    the first lets the second in. */
module Safety {
  import opened Node
  import opened Majority
  import opened Redlock

  /** All links of a round, fan-out and rollback, reach their nodes. */
  predicate AllUp(a: Attempt) {
    (forall i :: 0 <= i < |a.links| ==> a.links[i] == Up) &&
    (forall i :: 0 <= i < |a.rollback| ==> a.rollback[i] == Up)
  }

  /** Which links reached their nodes and got an answer back. */
  function Reachable(links: seq<Link>): (r: seq<bool>)
    ensures |r| == |links|
    ensures forall i :: 0 <= i < |r| ==> r[i] == (links[i] == Up)
  {
    seq(|links|, i requires 0 <= i < |links| => links[i] == Up)
  }

  /** `val` is stored under `key` at a quorum of the nodes. */
  predicate HeldByQuorum(nodes: seq<Store>, key: Key, val: Token, quorum: nat) {
    Count(Holding(nodes, key, val)) >= quorum
  }

  /** Only nodes that answered can vote: a round in which fewer than a
      quorum of nodes answered never grants. */
  lemma MinorityReachableFails(quorum: nat, p: Primitive, key: Key, val: Token, ttl: nat, a: Attempt, nodes: seq<Store>)
    requires |a.links| == |nodes| && |a.rollback| == |nodes|
    requires Count(Reachable(a.links)) < quorum
    ensures Round(quorum, p, key, val, ttl, a, nodes).Retry?
  {
    CountMonotone(Votes(FanOut(p, a.links, nodes, key, val, ttl)), Reachable(a.links));
  }

  /** A granted acquisition or extension round leaves its token stored at a
      quorum of nodes. */
  lemma GrantHoldsQuorum(quorum: nat, p: Primitive, key: Key, val: Token, ttl: nat, a: Attempt, nodes: seq<Store>)
    requires p != Release
    requires |a.links| == |nodes| && |a.rollback| == |nodes|
    requires Round(quorum, p, key, val, ttl, a, nodes).Grant?
    ensures HeldByQuorum(Round(quorum, p, key, val, ttl, a, nodes).nodes, key, val, quorum)
  {
    var replies := FanOut(p, a.links, nodes, key, val, ttl);
    CountMonotone(Votes(replies), Holding(Stores(replies), key, val));
  }

  /** `Acquired` from the retry loop means the token is stored at a quorum
      of nodes when the loop returns. */
  lemma {:induction false} AcquiredHoldsQuorum(quorum: nat, delay: nat, p: Primitive, key: Key, val: Token, ttl: nat,
                                               env: seq<Attempt>, nodes: seq<Store>)
    requires p != Release
    requires Scripted(env, |nodes|)
    requires Rounds(quorum, delay, p, key, val, ttl, env, nodes).result.Acquired?
    ensures HeldByQuorum(Rounds(quorum, delay, p, key, val, ttl, env, nodes).nodes, key, val, quorum)
    decreases |env|
  {
    var s := Round(quorum, p, key, val, ttl, env[0], nodes);
    if s.Grant? {
      GrantHoldsQuorum(quorum, p, key, val, ttl, env[0], nodes);
    } else {
      AcquiredHoldsQuorum(quorum, delay, p, key, val, ttl, env[1..], s.nodes);
    }
  }

  /** A node that votes for `val` in an acquisition or extension round does
      not hold any other token under the key. */
  lemma VoteExcludesOtherHolder(p: Primitive, key: Key, val: Token, other: Token, ttl: nat, links: seq<Link>, nodes: seq<Store>)
    requires p != Release && val != other
    requires |links| == |nodes|
    ensures forall i :: 0 <= i < |nodes| ==>
              !(Votes(FanOut(p, links, nodes, key, val, ttl))[i] && Holding(nodes, key, other)[i])
  {
  }

  /** Mutual exclusion for one round: while `other` is stored at a quorum,
      a round for any different token fails, and `other` keeps its quorum. */
  lemma ForeignRoundFails(quorum: nat, p: Primitive, key: Key, val: Token, other: Token, ttl: nat,
                          a: Attempt, nodes: seq<Store>)
    requires p != Release && val != other
    requires |a.links| == |nodes| && |a.rollback| == |nodes| && |nodes| < U32
    requires quorum == Quorum(|nodes|)
    requires HeldByQuorum(nodes, key, other, quorum)
    ensures Round(quorum, p, key, val, ttl, a, nodes).Retry?
    ensures HeldByQuorum(Round(quorum, p, key, val, ttl, a, nodes).nodes, key, other, quorum)
  {
    var votes := Votes(FanOut(p, a.links, nodes, key, val, ttl));
    VoteExcludesOtherHolder(p, key, val, other, ttl, a.links, nodes);
    DisjointBelowQuorum(votes, Holding(nodes, key, other));
    var s := Round(quorum, p, key, val, ttl, a, nodes);
    CountMonotone(Holding(nodes, key, other), Holding(s.nodes, key, other));
  }

  /** Mutual exclusion for `lock` and `extend`: while `other` is stored at a
      quorum of nodes, no number of rounds for a different token is granted
      (whatever the links and the timing), and `other` keeps its quorum. */
  lemma {:induction false} MutualExclusion(quorum: nat, delay: nat, p: Primitive, key: Key, val: Token, other: Token, ttl: nat,
                                           env: seq<Attempt>, nodes: seq<Store>)
    requires p != Release && val != other
    requires Scripted(env, |nodes|) && |nodes| < U32
    requires quorum == Quorum(|nodes|)
    requires HeldByQuorum(nodes, key, other, quorum)
    ensures !Rounds(quorum, delay, p, key, val, ttl, env, nodes).result.Acquired?
    ensures HeldByQuorum(Rounds(quorum, delay, p, key, val, ttl, env, nodes).nodes, key, other, quorum)
    decreases |env|
  {
    if env != [] {
      var s := Round(quorum, p, key, val, ttl, env[0], nodes);
      assert s.Retry? && HeldByQuorum(s.nodes, key, other, quorum) by {
        ForeignRoundFails(quorum, p, key, val, other, ttl, env[0], nodes);
      }
      var rest := Rounds(quorum, delay, p, key, val, ttl, env[1..], s.nodes);
      assert !rest.result.Acquired? && HeldByQuorum(rest.nodes, key, other, quorum) by {
        MutualExclusion(quorum, delay, p, key, val, other, ttl, env[1..], s.nodes);
      }
      RetryFirstRound(quorum, delay, p, key, val, ttl, env, nodes);
    }
  }

  /** When the first round is refused, the loop either panics with that
      round's stores or continues as the loop over the remaining attempts. */
  lemma RetryFirstRound(quorum: nat, delay: nat, p: Primitive, key: Key, val: Token, ttl: nat,
                        env: seq<Attempt>, nodes: seq<Store>)
    requires Scripted(env, |nodes|) && env != []
    requires Round(quorum, p, key, val, ttl, env[0], nodes).Retry?
    ensures var s := Round(quorum, p, key, val, ttl, env[0], nodes);
            var o := Rounds(quorum, delay, p, key, val, ttl, env, nodes);
            var rest := Rounds(quorum, delay, p, key, val, ttl, env[1..], s.nodes);
            (o.result == BackoffPanic && o.nodes == s.nodes) || (o.result == rest.result && o.nodes == rest.nodes)
  {
  }

  /** With no servers the quorum is 1 and no round is ever granted. */
  lemma {:induction false} NoServersNoLock(delay: nat, p: Primitive, key: Key, val: Token, ttl: nat, env: seq<Attempt>)
    requires Scripted(env, 0)
    ensures !Rounds(Quorum(0), delay, p, key, val, ttl, env, []).result.Acquired?
    decreases |env|
  {
    if env != [] {
      var s := Round(Quorum(0), p, key, val, ttl, env[0], []);
      assert s.nodes == [];
      NoServersNoLock(delay, p, key, val, ttl, env[1..]);
    }
  }

  /** A round for a token that differs from the one every node holds changes
      no node and is refused. */
  lemma ForeignRoundChangesNothing(quorum: nat, p: Primitive, key: Key, val: Token, other: Token, ttl: nat,
                                   a: Attempt, nodes: seq<Store>)
    requires p != Release && val != other && quorum >= 1
    requires |a.links| == |nodes| && |a.rollback| == |nodes|
    requires forall i :: 0 <= i < |nodes| ==> Holds(nodes[i], key, other)
    ensures Round(quorum, p, key, val, ttl, a, nodes) == Retry(nodes)
  {
    var replies := FanOut(p, a.links, nodes, key, val, ttl);
    assert Stores(replies) == nodes;
    assert UnlockAll(a.rollback, nodes, key, val) == nodes;
  }

  lemma {:induction false} ForeignRoundsChangeNothing(quorum: nat, delay: nat, p: Primitive, key: Key, val: Token, other: Token, ttl: nat,
                                                      env: seq<Attempt>, nodes: seq<Store>)
    requires p != Release && val != other && quorum >= 1
    requires Scripted(env, |nodes|)
    requires forall i :: 0 <= i < |nodes| ==> Holds(nodes[i], key, other)
    ensures !Rounds(quorum, delay, p, key, val, ttl, env, nodes).result.Acquired?
    ensures Rounds(quorum, delay, p, key, val, ttl, env, nodes).nodes == nodes
    decreases |env|
  {
    if env != [] {
      ForeignRoundChangesNothing(quorum, p, key, val, other, ttl, env[0], nodes);
      ForeignRoundsChangeNothing(quorum, delay, p, key, val, other, ttl, env[1..], nodes);
    }
  }

  /** A key that no node holds is acquired in the first round when every
      node answers and the round is fast enough, and then every node holds
      the new token. */
  lemma FreeKeyAcquired(quorum: nat, delay: nat, key: Key, val: Token, ttl: nat, env: seq<Attempt>, nodes: seq<Store>)
    requires 1 <= |nodes| < U32 && quorum == Quorum(|nodes|)
    requires Scripted(env, |nodes|) && env != [] && AllUp(env[0])
    requires Validity(ttl, env[0].elapsed) > 0
    requires forall i :: 0 <= i < |nodes| ==> key !in nodes[i]
    ensures var o := Rounds(quorum, delay, SetNx, key, val, ttl, env, nodes);
            o.result.Acquired? && o.rounds == 1 && o.result.lock.validity == Validity(ttl, env[0].elapsed) &&
            forall i :: 0 <= i < |nodes| ==> Holds(o.nodes[i], key, val)
  {
    var votes := Votes(FanOut(SetNx, env[0].links, nodes, key, val, ttl));
    CountAll(votes);
  }

  /** A 1000 ms lock on a free key whose first round takes less than 88 ms
      (the 12 ms drift allowance leaves 988 ms) is granted with more than
      900 ms of validity. */
  lemma FreshLockValidity(quorum: nat, delay: nat, key: Key, val: Token, env: seq<Attempt>, nodes: seq<Store>)
    requires 1 <= |nodes| < U32 && quorum == Quorum(|nodes|)
    requires Scripted(env, |nodes|) && env != [] && AllUp(env[0])
    requires env[0].elapsed < 88
    requires forall i :: 0 <= i < |nodes| ==> key !in nodes[i]
    ensures var o := Rounds(quorum, delay, SetNx, key, val, 1000, env, nodes);
            o.result.Acquired? && o.result.lock.resource == key && o.result.lock.validity > 900
  {
    FreeKeyAcquired(quorum, delay, key, val, 1000, env, nodes);
  }

  /** `extend` of a lock that every node still holds is granted in the first
      round when every node answers and the round is fast enough; every node
      then holds the token with the new expiry. */
  lemma HeldLockExtended(quorum: nat, delay: nat, key: Key, val: Token, ttl: nat, env: seq<Attempt>, nodes: seq<Store>)
    requires 1 <= |nodes| < U32 && quorum == Quorum(|nodes|)
    requires Scripted(env, |nodes|) && env != [] && AllUp(env[0])
    requires Validity(ttl, env[0].elapsed) > 0
    requires forall i :: 0 <= i < |nodes| ==> Holds(nodes[i], key, val)
    ensures var o := Rounds(quorum, delay, Refresh, key, val, ttl, env, nodes);
            o.result.Acquired? && o.rounds == 1 && o.result.lock.validity == Validity(ttl, env[0].elapsed) &&
            forall i :: 0 <= i < |nodes| ==> Holds(o.nodes[i], key, val) && o.nodes[i][key].ttl == ttl
  {
    var votes := Votes(FanOut(Refresh, env[0].links, nodes, key, val, ttl));
    CountAll(votes);
  }

  /** Mutual exclusion through the manager: for a manager whose quorum
      belongs to its server list, while another token is stored at a quorum
      of its servers, the rounds its `lock` or `extend` runs for a different
      token are never granted. */
  lemma ManagerMutualExclusion(m: LockManager, p: Primitive, key: Key, val: Token, other: Token, ttl: nat,
                               env: seq<Attempt>, nodes: seq<Store>)
    requires m.Valid() && |m.servers| < U32
    requires p != Release && val != other
    requires |nodes| == |m.servers| && Scripted(env, |nodes|)
    requires HeldByQuorum(nodes, key, other, m.quorum)
    ensures !Rounds(m.quorum, m.retryDelay, p, key, val, ttl, env, nodes).result.Acquired?
  {
    MutualExclusion(m.quorum, m.retryDelay, p, key, val, other, ttl, env, nodes);
  }

  /** Releasing at every node a token that is the only one stored under the
      key leaves the key absent everywhere. */
  lemma UnlockClearsKey(links: seq<Link>, nodes: seq<Store>, key: Key, val: Token)
    requires |links| == |nodes|
    requires forall i :: 0 <= i < |links| ==> links[i] == Up
    requires forall i :: 0 <= i < |nodes| ==> key in nodes[i] ==> Holds(nodes[i], key, val)
    ensures forall i :: 0 <= i < |nodes| ==> key !in UnlockAll(links, nodes, key, val)[i]
  {
  }

  /** Two managers on the same nodes contend for a fresh key: the first
      acquires it, the second's `lock` is refused and changes nothing, the
      first unlocks, and the second's next `lock` is granted. Every node
      answers throughout and each granting round is fast enough. */
  lemma LockUnlockHandover(quorum: nat, delay: nat, key: Key, first: Token, second: Token, ttl: nat,
                           envFirst: seq<Attempt>, envRefused: seq<Attempt>, unlockLinks: seq<Link>,
                           envSecond: seq<Attempt>, nodes: seq<Store>)
    requires 1 <= |nodes| < U32 && quorum == Quorum(|nodes|)
    requires first != second
    requires forall i :: 0 <= i < |nodes| ==> key !in nodes[i]
    requires Scripted(envFirst, |nodes|) && envFirst != [] && AllUp(envFirst[0])
    requires Validity(ttl, envFirst[0].elapsed) > 0
    requires Scripted(envRefused, |nodes|)
    requires |unlockLinks| == |nodes| && forall i :: 0 <= i < |nodes| ==> unlockLinks[i] == Up
    requires Scripted(envSecond, |nodes|) && envSecond != [] && AllUp(envSecond[0])
    requires Validity(ttl, envSecond[0].elapsed) > 0
    ensures var a := Rounds(quorum, delay, SetNx, key, first, ttl, envFirst, nodes);
            var b := Rounds(quorum, delay, SetNx, key, second, ttl, envRefused, a.nodes);
            var released := UnlockAll(unlockLinks, b.nodes, key, first);
            var c := Rounds(quorum, delay, SetNx, key, second, ttl, envSecond, released);
            a.result.Acquired? && !b.result.Acquired? && b.nodes == a.nodes && c.result.Acquired?
  {
    FreeKeyAcquired(quorum, delay, key, first, ttl, envFirst, nodes);
    var a := Rounds(quorum, delay, SetNx, key, first, ttl, envFirst, nodes);
    ForeignRoundsChangeNothing(quorum, delay, SetNx, key, second, first, ttl, envRefused, a.nodes);
    UnlockClearsKey(unlockLinks, a.nodes, key, first);
    FreeKeyAcquired(quorum, delay, key, second, ttl, envSecond, UnlockAll(unlockLinks, a.nodes, key, first));
  }

  /** The node TTL of `key` running out at every node. */
  function ExpireAll(nodes: seq<Store>, key: Key): (after: seq<Store>)
    ensures |after| == |nodes|
    ensures forall i :: 0 <= i < |nodes| ==> key !in after[i]
    ensures forall i :: 0 <= i < |nodes| ==> after[i] - {key} == nodes[i] - {key}
  {
    seq(|nodes|, i requires 0 <= i < |nodes| => Expire(nodes[i], key))
  }

  /** A lock whose TTL ran out at every node is taken by another manager,
      after which the first manager's `extend` is refused. */
  lemma ExtendAfterExpiryFails(quorum: nat, delay: nat, key: Key, first: Token, second: Token, ttl: nat,
                               envSecond: seq<Attempt>, envExtend: seq<Attempt>, nodes: seq<Store>)
    requires 1 <= |nodes| < U32 && quorum == Quorum(|nodes|)
    requires first != second
    requires Scripted(envSecond, |nodes|) && envSecond != [] && AllUp(envSecond[0])
    requires Validity(ttl, envSecond[0].elapsed) > 0
    requires Scripted(envExtend, |nodes|)
    ensures var b := Rounds(quorum, delay, SetNx, key, second, ttl, envSecond, ExpireAll(nodes, key));
            b.result.Acquired? &&
            !Rounds(quorum, delay, Refresh, key, first, ttl, envExtend, b.nodes).result.Acquired?
  {
    var expired := ExpireAll(nodes, key);
    FreeKeyAcquired(quorum, delay, key, second, ttl, envSecond, expired);
    var b := Rounds(quorum, delay, SetNx, key, second, ttl, envSecond, expired);
    AcquiredHoldsQuorum(quorum, delay, SetNx, key, second, ttl, envSecond, expired);
    MutualExclusion(quorum, delay, Refresh, key, first, second, ttl, envExtend, b.nodes);
  }

  /** A manager acquires a fresh key and extends the lock while every node
      still holds it; another manager's `lock` for the key is then refused,
      and the first token keeps its quorum. */
  lemma ExtendKeepsOthersOut(quorum: nat, delay: nat, key: Key, first: Token, second: Token, ttl: nat,
                             envFirst: seq<Attempt>, envExtend: seq<Attempt>, envSecond: seq<Attempt>,
                             nodes: seq<Store>)
    requires 1 <= |nodes| < U32 && quorum == Quorum(|nodes|)
    requires first != second
    requires forall i :: 0 <= i < |nodes| ==> key !in nodes[i]
    requires Scripted(envFirst, |nodes|) && envFirst != [] && AllUp(envFirst[0])
    requires Validity(ttl, envFirst[0].elapsed) > 0
    requires Scripted(envExtend, |nodes|) && envExtend != [] && AllUp(envExtend[0])
    requires Validity(ttl, envExtend[0].elapsed) > 0
    requires Scripted(envSecond, |nodes|)
    ensures var a := Rounds(quorum, delay, SetNx, key, first, ttl, envFirst, nodes);
            var e := Rounds(quorum, delay, Refresh, key, first, ttl, envExtend, a.nodes);
            var b := Rounds(quorum, delay, SetNx, key, second, ttl, envSecond, e.nodes);
            a.result.Acquired? && e.result.Acquired? && !b.result.Acquired? &&
            HeldByQuorum(b.nodes, key, first, quorum)
  {
    FreeKeyAcquired(quorum, delay, key, first, ttl, envFirst, nodes);
    var a := Rounds(quorum, delay, SetNx, key, first, ttl, envFirst, nodes);
    HeldLockExtended(quorum, delay, key, first, ttl, envExtend, a.nodes);
    var e := Rounds(quorum, delay, Refresh, key, first, ttl, envExtend, a.nodes);
    AcquiredHoldsQuorum(quorum, delay, Refresh, key, first, ttl, envExtend, a.nodes);
    MutualExclusion(quorum, delay, SetNx, key, second, first, ttl, envSecond, e.nodes);
  }
}
