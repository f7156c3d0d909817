/** The lock manager: one acquisition or extension round fanned out to every
    node, the retry loop around it, and the public operations `lock`,
    `extend`, `unlock` and `set_retry`.

    The nodes' stores live outside the manager (they are Redis servers), so
    every operation takes the stores before the call and returns them after
    it. Time, the random token and the random backoff are inputs too: one
    `Attempt` per round says how each node's link behaved, how many
    milliseconds the round took, and what the random backoff drew. */
module Redlock {
  import opened Node
  import opened Majority

  const DEFAULT_RETRY_COUNT: nat := 3
  const DEFAULT_RETRY_DELAY: nat := 200
  /** Length of the random value `lock` stores under the key. */
  const LOCK_ID_LEN: nat := 20
  /** Width of `usize` on a 64-bit target. */
  const USIZE: nat := 0x1_0000_0000_0000_0000

  datatype Option<T> = None | Some(value: T)

  /** A granted lock: the key, the token stored under it, and the estimated
      milliseconds it remains safe to use. */
  datatype Lock = Lock(resource: Key, val: Token, validity: nat)

  /** `Acquired` is `Ok(lock)`, `Unavailable` is `Err(LockError::Unavailable)`,
      and `BackoffPanic` is the panic of the random backoff draw on an empty
      range. */
  datatype LockResult = Acquired(lock: Lock) | Unavailable | BackoffPanic

  /** What the environment does during one round: the link to each node for
      the fan-out and for the rollback, the milliseconds elapsed between the
      round's start and the validity computation, and the raw random draw for
      the backoff. */
  datatype Attempt = Attempt(links: seq<Link>, elapsed: nat, rollback: seq<Link>, draw: nat)

  /** Every attempt describes exactly `n` nodes. */
  predicate Scripted(env: seq<Attempt>, n: nat) {
    forall a :: a in env ==> |a.links| == n && |a.rollback| == n
  }

  /** The clock drift allowance: one percent of the TTL, rounded down, plus
      2 ms. */
  function Drift(ttl: nat): (d: nat)
    ensures d >= 2
    ensures 100 * (d - 2) <= ttl < 100 * (d - 1)
  {
    ttl / 100 + 2
  }

  /** The remaining safe lifetime after a round that took `elapsed` ms,
      computed without wrap-around. */
  function Validity(ttl: nat, elapsed: nat): (v: int)
    ensures v + elapsed + 2 <= ttl
    ensures v > 0 <==> Drift(ttl) + elapsed < ttl
  {
    ttl - Drift(ttl) - elapsed
  }

  /** The same subtraction as `exec_or_retry` writes it, on `usize`: it wraps
      around (in a release build) when the round took longer than the TTL
      minus the drift. */
  function ValidityAsWritten(ttl: nat, elapsed: nat): (v: nat)
    requires ttl < USIZE && elapsed < USIZE
    ensures v < USIZE
    ensures Drift(ttl) + elapsed <= ttl ==> v == Validity(ttl, elapsed)
  {
    (ttl - Drift(ttl) - elapsed) % USIZE
  }

  /** A round with 1000 ms TTL that reaches its quorum but takes 1500 ms:
      the unsigned subtraction wraps, the `validity_time > 0` test passes, and
      the lock would be granted with a validity far beyond its TTL, where the
      signed computation refuses it. */
  lemma SlowRoundWrapsValidity()
    ensures ValidityAsWritten(1000, 1500) == USIZE - 512
    ensures ValidityAsWritten(1000, 1500) > 1000
    ensures Validity(1000, 1500) == -512
  {
  }

  /** `gen_range(0..delay)`: a value below `delay`, or a panic (`None`) when
      the range is empty. */
  function Backoff(delay: nat, draw: nat): (wait: Option<nat>)
    ensures wait.Some? <==> delay > 0
    ensures wait.Some? ==> wait.value < delay
  {
    if delay == 0 then None else Some(draw % delay)
  }

  /** The replies of all nodes to one command, in node order: each node is
      called independently, over its own link. */
  function FanOut(p: Primitive, links: seq<Link>, nodes: seq<Store>, key: Key, val: Token, ttl: nat): (replies: seq<Reply>)
    requires |links| == |nodes|
    ensures |replies| == |nodes|
    ensures forall i :: 0 <= i < |nodes| ==> replies[i] == Call(links[i], p, nodes[i], key, val, ttl)
    ensures forall i :: 0 <= i < |nodes| ==>
              (replies[i].ok <==> links[i] == Up && Exec(p, nodes[i], key, val, ttl).ok)
    ensures forall i :: 0 <= i < |nodes| && links[i] == Down ==> replies[i] == Reply(false, nodes[i])
    ensures forall i :: 0 <= i < |nodes| && links[i] != Down ==>
              replies[i].store == Exec(p, nodes[i], key, val, ttl).store
  {
    seq(|nodes|, i requires 0 <= i < |nodes| => Call(links[i], p, nodes[i], key, val, ttl))
  }

  function Votes(replies: seq<Reply>): (v: seq<bool>)
    ensures |v| == |replies|
    ensures forall i :: 0 <= i < |v| ==> v[i] == replies[i].ok
  {
    seq(|replies|, i requires 0 <= i < |replies| => replies[i].ok)
  }

  function Stores(replies: seq<Reply>): (s: seq<Store>)
    ensures |s| == |replies|
    ensures forall i :: 0 <= i < |s| ==> s[i] == replies[i].store
  {
    seq(|replies|, i requires 0 <= i < |replies| => replies[i].store)
  }

  /** Which nodes store `val` under `key`. */
  function Holding(nodes: seq<Store>, key: Key, val: Token): (h: seq<bool>)
    ensures |h| == |nodes|
    ensures forall i :: 0 <= i < |h| ==> h[i] == Holds(nodes[i], key, val)
  {
    seq(|nodes|, i requires 0 <= i < |nodes| => Holds(nodes[i], key, val))
  }

  /** Release of `key`/`val` sent to every node, results discarded: every node
      the command reached no longer holds `val`, keys other than `key` and
      other tokens under `key` are left alone. */
  function UnlockAll(links: seq<Link>, nodes: seq<Store>, key: Key, val: Token): (after: seq<Store>)
    requires |links| == |nodes|
    ensures |after| == |nodes|
    ensures forall i :: 0 <= i < |nodes| && links[i] != Down ==> !Holds(after[i], key, val)
    ensures forall i :: 0 <= i < |nodes| && links[i] != Down && Holds(nodes[i], key, val) ==> key !in after[i]
    ensures forall i :: 0 <= i < |nodes| && links[i] == Down ==> after[i] == nodes[i]
    ensures forall i :: 0 <= i < |nodes| && key !in nodes[i] ==> key !in after[i]
    ensures forall i :: 0 <= i < |nodes| ==> after[i] - {key} == nodes[i] - {key}
    ensures forall i, t :: 0 <= i < |nodes| && t != val && Holds(nodes[i], key, t) ==> Holds(after[i], key, t)
    ensures forall i :: 0 <= i < |nodes| && !Holds(nodes[i], key, val) ==> after[i] == nodes[i]
  {
    Stores(FanOut(Release, links, nodes, key, val, 0))
  }

  /** The outcome of one round: a granted lock with the stores as the
      fan-out left them, or the stores after the rollback. */
  datatype Step = Grant(lock: Lock, nodes: seq<Store>) | Retry(nodes: seq<Store>)

  /** One round: fan the command out, count the `true` replies, subtract the
      drift and the elapsed time from the TTL, grant on a quorum with positive
      validity, and otherwise release the token at every node. */
  function Round(quorum: nat, p: Primitive, key: Key, val: Token, ttl: nat, a: Attempt, nodes: seq<Store>): (s: Step)
    requires |a.links| == |nodes| && |a.rollback| == |nodes|
    ensures |s.nodes| == |nodes|
    ensures s.Grant? <==> Count(Votes(FanOut(p, a.links, nodes, key, val, ttl))) >= quorum && Validity(ttl, a.elapsed) > 0
    ensures s.Grant? ==> s.lock.resource == key && s.lock.val == val && 0 < s.lock.validity < ttl
    ensures s.Grant? ==> s.lock.validity == Validity(ttl, a.elapsed)
    ensures s.Grant? ==> s.lock.validity + a.elapsed + 2 <= ttl
    ensures s.Retry? ==> forall i :: 0 <= i < |nodes| && a.rollback[i] != Down ==> !Holds(s.nodes[i], key, val)
    ensures forall i :: 0 <= i < |nodes| ==> s.nodes[i] - {key} == nodes[i] - {key}
    ensures forall i, t :: 0 <= i < |nodes| && t != val && Holds(nodes[i], key, t) ==> Holds(s.nodes[i], key, t)
    ensures forall i :: 0 <= i < |nodes| && key in nodes[i] && nodes[i][key].token != val ==> s.nodes[i] == nodes[i]
  {
    var replies := FanOut(p, a.links, nodes, key, val, ttl);
    var n := Count(Votes(replies));
    var validity := Validity(ttl, a.elapsed);
    if n >= quorum && validity > 0 then
      Grant(Lock(key, val, validity), Stores(replies))
    else
      Retry(UnlockAll(a.rollback, Stores(replies), key, val))
  }

  /** The result of the retry loop, the stores afterwards, and how many
      rounds were run. */
  datatype Outcome = Outcome(result: LockResult, nodes: seq<Store>, rounds: nat)

  /** The retry loop over the attempts `env` (one per permitted round). */
  function Rounds(quorum: nat, delay: nat, p: Primitive, key: Key, val: Token, ttl: nat,
                  env: seq<Attempt>, nodes: seq<Store>): (o: Outcome)
    requires Scripted(env, |nodes|)
    ensures |o.nodes| == |nodes|
    ensures o.rounds <= |env|
    ensures o.result.Unavailable? ==> o.rounds == |env|
    ensures env == [] ==> o == Outcome(Unavailable, nodes, 0)
    ensures o.result.Acquired? ==> o.result.lock.resource == key && o.result.lock.val == val
    ensures o.result.Acquired? ==> 0 < o.result.lock.validity < ttl
    ensures o.result.Acquired? ==>
              1 <= o.rounds && o.result.lock.validity == Validity(ttl, env[o.rounds - 1].elapsed)
    ensures o.result.BackoffPanic? ==> delay == 0 && o.rounds == 1
    ensures delay > 0 ==> !o.result.BackoffPanic?
    ensures forall i :: 0 <= i < |nodes| ==> o.nodes[i] - {key} == nodes[i] - {key}
    decreases |env|
  {
    if env == [] then Outcome(Unavailable, nodes, 0)
    else
      match Round(quorum, p, key, val, ttl, env[0], nodes)
      case Grant(lock, after) => Outcome(Acquired(lock), after, 1)
      case Retry(after) =>
        if Backoff(delay, env[0].draw).None? then Outcome(BackoffPanic, after, 1)
        else
          var rest := Rounds(quorum, delay, p, key, val, ttl, env[1..], after);
          Outcome(rest.result, rest.nodes, rest.rounds + 1)
  }

  /** Running the loop from attempt `i` is running round `i` and, when it
      fails and the backoff is drawn, the loop from attempt `i + 1`. */
  lemma RoundsFrom(quorum: nat, delay: nat, p: Primitive, key: Key, val: Token, ttl: nat,
                   env: seq<Attempt>, i: nat, nodes: seq<Store>)
    requires i < |env| && Scripted(env, |nodes|)
    ensures var s := Round(quorum, p, key, val, ttl, env[i], nodes);
            var o := Rounds(quorum, delay, p, key, val, ttl, env[i..], nodes);
            && (s.Grant? ==> o.result == Acquired(s.lock) && o.nodes == s.nodes)
            && (s.Retry? && delay == 0 ==> o.result == BackoffPanic && o.nodes == s.nodes)
            && (s.Retry? && delay > 0 ==>
                  var rest := Rounds(quorum, delay, p, key, val, ttl, env[i + 1..], s.nodes);
                  o.result == rest.result && o.nodes == rest.nodes)
  {
    assert env[i..][0] == env[i] && env[i..][1..] == env[i + 1..];
  }

  /** The lock manager over N Redis servers. */
  class LockManager {
    var servers: seq<string>
    var quorum: nat
    var retryCount: nat
    var retryDelay: nat

    /** The quorum belongs to the server list; the retry settings are `u32`. */
    ghost predicate Valid()
      reads this
    {
      quorum == Quorum(|servers|) && retryCount < U32 && retryDelay < U32
    }

    constructor (uris: seq<string>)
      ensures Valid()
      ensures servers == uris && quorum == Quorum(|uris|)
      ensures retryCount == DEFAULT_RETRY_COUNT && retryDelay == DEFAULT_RETRY_DELAY
    {
      servers := uris;
      quorum := Quorum(|uris|);
      retryCount := DEFAULT_RETRY_COUNT;
      retryDelay := DEFAULT_RETRY_DELAY;
    }

    method SetRetry(count: nat, delay: nat)
      requires Valid()
      requires count < U32 && delay < U32
      modifies this
      ensures Valid()
      ensures retryCount == count && retryDelay == delay
      ensures servers == old(servers) && quorum == old(quorum)
    {
      retryCount := count;
      retryDelay := delay;
    }

    /** Up to `retryCount` rounds of command `p`; `env` holds one attempt per
        permitted round and `nodes` the servers' stores. */
    method ExecOrRetry(p: Primitive, resource: Key, value: Token, ttl: nat, env: seq<Attempt>, nodes: seq<Store>)
      returns (result: LockResult, nodes': seq<Store>)
      requires Valid()
      requires p != Release
      requires |nodes| == |servers| && |env| == retryCount && Scripted(env, |nodes|)
      ensures var o := Rounds(quorum, retryDelay, p, resource, value, ttl, env, nodes);
              result == o.result && nodes' == o.nodes
      ensures result.Acquired? ==> result.lock.resource == resource && result.lock.val == value
      ensures result.Acquired? ==> 0 < result.lock.validity < ttl
      ensures retryCount == 0 ==> result == Unavailable && nodes' == nodes
    {
      ghost var whole := Rounds(quorum, retryDelay, p, resource, value, ttl, env, nodes);
      var current := nodes;
      var i := 0;
      while i < retryCount
        invariant 0 <= i <= retryCount
        invariant |current| == |nodes|
        invariant var o := Rounds(quorum, retryDelay, p, resource, value, ttl, env[i..], current);
                  o.result == whole.result && o.nodes == whole.nodes
      {
        RoundsFrom(quorum, retryDelay, p, resource, value, ttl, env, i, current);
        var step := Round(quorum, p, resource, value, ttl, env[i], current);
        if step.Grant? {
          return Acquired(step.lock), step.nodes;
        }
        current := step.nodes;
        var wait := Backoff(retryDelay, env[i].draw);
        if wait.None? {
          return BackoffPanic, current;
        }
        i := i + 1;
      }
      return Unavailable, current;
    }

    /** `lock`: store the fresh 20-byte value `id` (the random draw) under
        `resource` at a quorum of nodes. */
    method Lock(resource: Key, ttl: nat, id: Token, env: seq<Attempt>, nodes: seq<Store>)
      returns (result: LockResult, nodes': seq<Store>)
      requires Valid()
      requires |id| == LOCK_ID_LEN
      requires |nodes| == |servers| && |env| == retryCount && Scripted(env, |nodes|)
      ensures var o := Rounds(quorum, retryDelay, SetNx, resource, id, ttl, env, nodes);
              result == o.result && nodes' == o.nodes
      ensures result.Acquired? ==> result.lock.resource == resource && result.lock.val == id
      ensures result.Acquired? ==> |result.lock.val| == LOCK_ID_LEN && 0 < result.lock.validity < ttl
    {
      result, nodes' := ExecOrRetry(SetNx, resource, id, ttl, env, nodes);
    }

    /** `extend`: refresh the TTL of `lock` at a quorum of nodes, with the
        lock's own resource and value. */
    method Extend(lock: Lock, ttl: nat, env: seq<Attempt>, nodes: seq<Store>)
      returns (result: LockResult, nodes': seq<Store>)
      requires Valid()
      requires |nodes| == |servers| && |env| == retryCount && Scripted(env, |nodes|)
      ensures var o := Rounds(quorum, retryDelay, Refresh, lock.resource, lock.val, ttl, env, nodes);
              result == o.result && nodes' == o.nodes
      ensures result.Acquired? ==> result.lock.resource == lock.resource && result.lock.val == lock.val
      ensures result.Acquired? ==> 0 < result.lock.validity < ttl
    {
      result, nodes' := ExecOrRetry(Refresh, lock.resource, lock.val, ttl, env, nodes);
    }

    /** `unlock`: best-effort release at every node; it reports nothing. */
    method Unlock(lock: Lock, links: seq<Link>, nodes: seq<Store>) returns (nodes': seq<Store>)
      requires |nodes| == |servers| && |links| == |nodes|
      ensures nodes' == UnlockAll(links, nodes, lock.resource, lock.val)
      ensures forall i :: 0 <= i < |nodes| && links[i] != Down ==> !Holds(nodes'[i], lock.resource, lock.val)
      ensures forall i :: 0 <= i < |nodes| && links[i] == Down ==> nodes'[i] == nodes[i]
    {
      nodes' := UnlockAll(links, nodes, lock.resource, lock.val);
    }
  }
}
