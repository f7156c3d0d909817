/** One Redis node as the lock manager sees it: a key/value store and the three
    atomic commands the manager sends to it (SET NX PX, the extend script and
    the unlock script), plus the link over which the command travels. */
module Node {

  newtype byte = b: int | 0 <= b < 256

  /** The resource name, used verbatim as the Redis key. */
  type Key = seq<byte>

  /** The random value a lock manager stores under the key to mark its lock. */
  type Token = seq<byte>

  /** What a node keeps under a key: the token and the `PX` expiry (in
      milliseconds) it was last given. */
  datatype Entry = Entry(token: Token, ttl: nat)

  type Store = map<Key, Entry>

  /** The boolean a per-node call reports, and the node's store afterwards. */
  datatype Reply = Reply(ok: bool, store: Store)

  /** The per-node commands: `lock_instance`, `extend_lock_instance`,
      `unlock_instance`. */
  datatype Primitive = SetNx | Refresh | Release

  /** How one call reaches its node: `Down` means no connection could be made
      and nothing was executed; `ReplyLost` means the node executed the command
      but the client saw an error instead of the reply. Both count as `false`. */
  datatype Link = Up | Down | ReplyLost

  /** The node stores `val` under `key`. */
  predicate Holds(s: Store, key: Key, val: Token) {
    key in s && s[key].token == val
  }

  /** `SET key val NX PX ttl`: writes only when the key is absent; the client
      reports success only on the `OK` reply. */
  function LockInstance(s: Store, key: Key, val: Token, ttl: nat): (r: Reply)
    ensures r.ok <==> key !in s
    ensures Holds(r.store, key, val) <==> key !in s || Holds(s, key, val)
    ensures key in r.store
    ensures r.ok ==> r.store[key] == Entry(val, ttl)
    ensures !r.ok ==> r.store == s
    ensures r.store - {key} == s - {key}
  {
    if key in s then Reply(false, s) else Reply(true, s[key := Entry(val, ttl)])
  }

  /** The extend script: if the stored value is `val`, set it again to `val`
      with a fresh `PX ttl` and return 1; otherwise return 0. */
  function ExtendInstance(s: Store, key: Key, val: Token, ttl: nat): (r: Reply)
    ensures r.ok <==> Holds(s, key, val)
    ensures r.store.Keys == s.Keys
    ensures forall k :: k in s ==> r.store[k].token == s[k].token
    ensures r.ok ==> r.store[key].ttl == ttl
    ensures !r.ok ==> r.store == s
    ensures r.store - {key} == s - {key}
  {
    if !Holds(s, key, val) then Reply(false, s)
    else Reply(true, s[key := Entry(val, ttl)])
  }

  /** The unlock script: compare-and-delete; the client reports success when
      the script returns 1 (one key deleted). */
  function UnlockInstance(s: Store, key: Key, val: Token): (r: Reply)
    ensures r.ok <==> Holds(s, key, val)
    ensures !Holds(r.store, key, val)
    ensures r.ok ==> key !in r.store
    ensures !r.ok ==> r.store == s
    ensures r.store - {key} == s - {key}
  {
    if Holds(s, key, val) then Reply(true, s - {key}) else Reply(false, s)
  }

  /** The command `p` executed by a node that the call reached. */
  function Exec(p: Primitive, s: Store, key: Key, val: Token, ttl: nat): (r: Reply)
    ensures r.ok <==> if p == SetNx then key !in s else Holds(s, key, val)
    ensures r.ok && p != Release ==> Holds(r.store, key, val)
    ensures r.ok && p != Release ==> r.store[key] == Entry(val, ttl)
    ensures r.ok && p == Release ==> key !in r.store
    ensures !r.ok ==> r.store == s
    ensures forall t :: t != val && Holds(s, key, t) ==> Holds(r.store, key, t)
    ensures r.store - {key} == s - {key}
  {
    match p
    case SetNx => LockInstance(s, key, val, ttl)
    case Refresh => ExtendInstance(s, key, val, ttl)
    case Release => UnlockInstance(s, key, val)
  }

  /** One per-node call as the manager makes it: a failed connection or an
      error reply is a `false` vote, never an error of the round. */
  function Call(link: Link, p: Primitive, s: Store, key: Key, val: Token, ttl: nat): (r: Reply)
    ensures r.ok ==> link == Up && Exec(p, s, key, val, ttl).ok
    ensures link == Up ==> r == Exec(p, s, key, val, ttl)
    ensures link == Down ==> r.store == s
    ensures link != Down ==> r.store == Exec(p, s, key, val, ttl).store
  {
    match link
    case Up => Exec(p, s, key, val, ttl)
    case Down => Reply(false, s)
    case ReplyLost => Reply(false, Exec(p, s, key, val, ttl).store)
  }

  /** The node's own `PX` timer running out for `key`. */
  function Expire(s: Store, key: Key): (t: Store)
    ensures key !in t
    ensures t - {key} == s - {key}
  {
    s - {key}
  }

  /** Acquiring a free key and releasing it with the same token restores the
      node exactly. */
  lemma LockThenUnlock(s: Store, key: Key, val: Token, ttl: nat)
    requires key !in s
    ensures LockInstance(s, key, val, ttl).ok
    ensures UnlockInstance(LockInstance(s, key, val, ttl).store, key, val) == Reply(true, s)
  {
  }

  /** Acquire, extend and unlock with one token leave the node as it was: no
      trace of the key remains. */
  lemma LockExtendUnlock(s: Store, key: Key, val: Token, ttl: nat, ttl': nat)
    requires key !in s
    ensures var locked := LockInstance(s, key, val, ttl).store;
            var extended := ExtendInstance(locked, key, val, ttl');
            extended.ok && UnlockInstance(extended.store, key, val) == Reply(true, s)
  {
  }
}
