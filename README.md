# Redlock lock manager, modelled in Dafny

This project models the lock manager of the `rslock` crate. The crate implements
Redlock, the distributed lock algorithm published by the Redis project, over N
independent Redis servers. The manager stores a random token under the resource
key on a majority of servers (`SET NX PX`). It removes the token only where it
still matches (compare-and-delete script). It renews the expiry only where the
token still matches (compare-and-refresh script). An acquisition or extension
runs at most `retry_count` rounds in total. Every refused round, the last one
included, is followed by a random backoff.

Files and modules:

- `node.dfy`, module `Node`: one Redis server. Its store is a map from key to
  `Entry(token, ttl)`. The three commands the manager sends are transitions on
  that map. A `Link` says whether a call reached the server (`Up`), did not
  connect (`Down`: nothing executed), or was executed but its reply was lost
  (`ReplyLost`). The last two vote `false`.
- `majority.dfy`, module `Majority`: the quorum `N/2 + 1`, the vote count, and
  quorum intersection.
- `redlock.dfy`, module `Redlock`: the `Lock` record, the drift and validity
  arithmetic, the backoff draw, one round (`Round`), and the retry loop as a
  specification function (`Rounds`). It also holds the class `LockManager`,
  with fields `servers`, `quorum`, `retryCount` and `retryDelay`, and the
  methods `SetRetry`, `ExecOrRetry` (the loop itself), `Lock`, `Extend` and
  `Unlock`.
- `safety.dfy`, module `Safety`: protocol guarantees across rounds and across
  managers that share the same servers. These are mutual exclusion, hand-over
  after `unlock`, and refusal of `extend` once the lock has expired and been
  taken by someone else.

The servers' stores live outside the process, so every manager operation takes
the stores (`nodes: seq<Store>`, one per server, in server order) and returns
them afterwards. Time, randomness and the network are inputs. Each round is
described by an `Attempt`: the link to each server for the fan-out and for the
rollback, the milliseconds elapsed, and the raw random draw for the backoff.
The 20 random bytes of a new lock token are the `id` argument of `Lock`.

Outcomes: `Acquired(lock)` stands for `Ok(lock)`. `Unavailable` stands for
`Err(LockError::Unavailable)`. `BackoffPanic` stands for the panic that
`gen_range(0..retry_delay)` raises after a failed round when `retry_delay` is
0. `set_retry` accepts a delay of 0, and `exec_or_retry` then panics; the model
returns `BackoffPanic` in that case.

## Model

| member | source | states |
|---|---|---|
| `Majority.Quorum` | src/lock.rs:88 | the quorum is at least 1 and is the least strict majority of N (`N < 2*q <= N+2`), and at most N when N ≥ 1 (3 servers give 2) |
| `Majority.Count` | src/lock.rs:196-199 | the left fold counting `true` votes is never more than the number of nodes, and is 0 when no node voted `true` |
| `Majority.CountAll` | src/lock.rs:196-199 | when every node votes `true`, the count is N |
| `Majority.CountMonotone` | src/lock.rs:196-199 | a vote vector that is `true` only where another one is has no larger count |
| `Majority.CountPositive` | src/lock.rs:196-199 | a positive count names a node that voted `true` |
| `Majority.CountOverlap` | src/lock.rs:196-199 | two vote vectors over N nodes: `Count(a) + Count(b) <= N + Count(a and b)` |
| `Majority.QuorumsIntersect` | src/lock.rs:88 | two vote vectors over the same N nodes that both reach `N/2+1` share a node |
| `Majority.DisjointBelowQuorum` | src/lock.rs:208 | a vector that never agrees with a quorum-holding vector stays below the quorum |
| `Node.LockInstance` | src/lock.rs:121-144 | `SET NX PX`: succeeds exactly when the key is absent; afterwards the key holds `val` iff it was absent or already held `val`; other keys are untouched; a refusal changes nothing |
| `Node.ExtendInstance` | src/lock.rs:20-30 | the extend script succeeds exactly when the stored token is `val`; it never changes a token or the key set; on success the key carries the new TTL; a refusal changes nothing |
| `Node.UnlockInstance` | src/lock.rs:13-19 | the unlock script succeeds exactly when the stored token is `val` and then deletes the key; afterwards the key never holds `val`; a mismatch changes nothing; other keys are untouched |
| `Node.Exec` | src/lock.rs:121-180 | a reached node reports success for SET NX iff the key was absent, otherwise iff it held `val`; a successful acquire or extend stores `Entry(val, ttl)` under the key, a successful release deletes the key, and a refusal changes nothing; no command disturbs another token or another key |
| `Node.Call` | src/lock.rs:127-130 | a reached node reports exactly its command's own reply; a `true` vote comes only from a reached node whose command succeeded; an unreachable node's store does not change; an error reply still leaves the command executed |
| `Redlock.FanOut` | src/lock.rs:196 | the fan-out calls every node independently over its own link: node `i` votes `true` iff its link is up and its command succeeds; a node that could not be reached replies `false` and is unchanged; a reached node's store is its command's result |
| `Node.Expire` | src/lock.rs:131-136 | the node's `PX` expiry removes the key and nothing else |
| `Node.LockThenUnlock` | src/lock.rs:369-404 | acquiring a free key and releasing it with the same token restores the store exactly, and the release reports success |
| `Node.LockExtendUnlock` | src/lock.rs:13-30 | acquire, extend and release with one token leave no trace of the key |
| `Redlock.Drift` | src/lock.rs:201 | the drift allowance is at least 2 ms and is 1% of the TTL, rounded down, plus 2 |
| `Redlock.Validity` | src/lock.rs:203-208 | validity never exceeds `ttl - 2 - elapsed`, and it is positive exactly when drift plus elapsed time is below the TTL |
| `Redlock.ValidityAsWritten` | src/lock.rs:203-206 | the `usize` subtraction stays below 2^64 and agrees with `Validity` whenever it does not underflow |
| `Redlock.SlowRoundWrapsValidity` | src/lock.rs:203-208 | a 1000 ms lock whose round takes 1500 ms gets a wrapped validity of 2^64 - 512, which passes the `> 0` test, while the signed validity is -512 |
| `Redlock.Backoff` | src/lock.rs:224-225 | the backoff is below `retry_delay`, and it is undefined (a panic) exactly when `retry_delay` is 0 |
| `Redlock.UnlockAll` | src/lock.rs:215-221 | releasing at every node: every reached node no longer holds `val`; a node that held only `val` loses the key; a node that does not hold `val` (unreachable, without the key, or holding another token) is left exactly as it was, expiry included; other keys are untouched everywhere |
| `Redlock.Round` | src/lock.rs:195-222 | a round grants iff the `true` replies reach the quorum and validity is positive; a granted lock carries the requested key and token, and its validity is `Validity(ttl, elapsed)` of that round, with `0 < validity < ttl`; a refused round leaves no reached node holding the token (also for a refused extend); a node holding another token under the key is left exactly as it was, expiry included; other keys are never disturbed |
| `Redlock.Rounds` | src/lock.rs:194-228 | at most `retry_count` rounds run; `Unavailable` only after all of them; no rounds and no change with `retry_count == 0`; a grant carries the requested key and token, and its validity is `Validity(ttl, elapsed)` of the granting round (the last one run), with `0 < validity < ttl`; a panic only when `retry_delay` is 0, after the first round |
| `Redlock.RoundsFrom` | src/lock.rs:194-226 | the loop from attempt `i` is round `i`, then a stop on grant, a panic on a zero delay, or the loop from `i + 1` |
| `Redlock.LockManager.constructor` | src/lock.rs:87-101 | the manager keeps the server list, `quorum = N/2+1`, and runs at most 3 rounds, with a backoff below 200 ms after each refused round |
| `Redlock.LockManager.SetRetry` | src/lock.rs:116-119 | only `retry_count` and `retry_delay` change; servers and quorum stay |
| `Redlock.LockManager.ExecOrRetry` | src/lock.rs:183-229 | for the acquire and extend commands (the only ones `lock` and `extend` pass), the loop computes exactly `Rounds` over the manager's quorum and retry settings; a grant has the given resource and value and `0 < validity < ttl`; with `retry_count == 0`, no node is contacted and the result is `Unavailable` |
| `Redlock.LockManager.Lock` | src/lock.rs:251-258 | `lock` is the acquisition loop for the fresh 20-byte token; a granted lock has the requested resource and that token |
| `Redlock.LockManager.Extend` | src/lock.rs:279-284 | `extend` is the refresh loop with the lock's own resource and value, and a granted lock carries both unchanged |
| `Redlock.LockManager.Unlock` | src/lock.rs:235-242 | `unlock` releases at every node and reports nothing; every reached node no longer holds the token, and unreachable nodes are unchanged |
| `Safety.MinorityReachableFails` | src/lock.rs:196-208 | a round where fewer than a quorum of nodes answered is never granted |
| `Safety.GrantHoldsQuorum` | src/lock.rs:196-214 | a granted acquisition or extension round leaves the token stored at a quorum of nodes |
| `Safety.AcquiredHoldsQuorum` | src/lock.rs:194-228 | a lock returned by the retry loop is stored at a quorum of nodes |
| `Safety.VoteExcludesOtherHolder` | src/lock.rs:131-143 | a node that votes for a token in an acquisition or extension round holds no other token under the key |
| `Safety.ForeignRoundFails` | src/lock.rs:196-221 | while another token is stored at a quorum, a round for a different token fails and the other token keeps its quorum |
| `Safety.MutualExclusion` | src/lock.rs:469-486 | while one token is stored at a quorum, neither `lock` nor `extend` with any other token is granted, whatever the links, timing and retries, and the holder keeps its quorum |
| `Safety.RetryFirstRound` | src/lock.rs:214-226 | after a refused first round, the loop either panics on the backoff with that round's stores or continues as the loop over the remaining attempts |
| `Safety.NoServersNoLock` | src/lock.rs:88 | with no servers, no round is ever granted |
| `Safety.ForeignRoundChangesNothing` | src/lock.rs:476-478 | when every node holds another token, a round for a different token is refused and changes no node |
| `Safety.ForeignRoundsChangeNothing` | src/lock.rs:476-478 | when every node holds another token, the whole retry loop for a different token is refused and changes no node |
| `Safety.FreeKeyAcquired` | src/lock.rs:443-453 | a key that no node holds is granted in the first round when all nodes answer and validity is positive; the lock's validity is that of the first round, and then every node holds the token |
| `Safety.FreshLockValidity` | src/lock.rs:437-453 | a 1000 ms lock on a free key whose first round takes under 88 ms is granted for that key with `validity_time > 900` |
| `Safety.HeldLockExtended` | src/lock.rs:279-284 | `extend` of a lock that every node still holds is granted in the first round when all nodes answer and validity is positive; the lock's validity is that of the first round, and every node then holds the token with the new expiry |
| `Safety.ManagerMutualExclusion` | src/lock.rs:87-101 | for a manager built by `new` (its quorum belongs to its server list), while another token is stored at a quorum of its servers, the rounds of its `lock` or `extend` for a different token are never granted |
| `Safety.UnlockClearsKey` | src/lock.rs:235-242 | releasing the only token stored under a key at every reachable node leaves the key absent everywhere |
| `Safety.LockUnlockHandover` | src/lock.rs:461-488 | manager A locks a fresh key; B's `lock` is refused and changes nothing; A unlocks; then B's `lock` is granted |
| `Safety.ExpireAll` | src/lock.rs:131-136 | expiry at every node removes the key everywhere and nothing else |
| `Safety.ExtendAfterExpiryFails` | src/lock.rs:559-595 | after A's lock expires at every node, B acquires the key, and A's `extend` with its old token is then refused |
| `Safety.ExtendKeepsOthersOut` | src/lock.rs:524-555 | A locks a fresh key and extends it while every node holds it; B's `lock` for the key is then refused, and A's token keeps its quorum |

## Left out

- Redis transport: connections, `Client::open(...).unwrap()` and its panic on a malformed URI, and the wire protocol are not modelled. Each server is an abstract store reached over a `Link`.
- `join_all` concurrency and async/await are not modelled. The per-node calls are independent, so a fan-out is a map over the server list in server order.
- Managers that run at the same time are not modelled. In `Safety`, a round of one manager is atomic with respect to the others: two managers' per-node commands never interleave within a round. The safety lemmas therefore do not cover a round of manager B whose commands land between the fan-out and the rollback of manager A.
- Wall-clock time is not modelled. The elapsed milliseconds of each round are an input, and there is no clock inside the nodes. Key expiry appears only as the explicit `Expire` / `ExpireAll` event.
- `Redlock.Drift`: approximates `(ttl as f32 * 0.01) as usize + 2` with exact integer division `ttl / 100 + 2`. `f32` rounding of large TTLs is not modelled.
- Randomness is not modelled. The 20 token bytes (`get_unique_lock_id`, which never fails) are the `id` argument of `Lock`. Token uniqueness cannot be proved, so the safety lemmas take `val != other` as a hypothesis. The backoff draw is an input. The model has no clock, so the sleep itself has no effect in it.
- `LockError::Io` and `LockError::Redis` are not modelled because no modelled operation produces them. Redis errors are absorbed as `false` votes.
- `acquire`, `acquire_no_guard` and the `LockGuard` whose `Drop` unlocks are not modelled. They are an unbounded retry loop around `lock` that this model cannot state without non-termination. A guard drop is one `Unlock` call.
- The `lock_manager` back-reference in `Lock` is not modelled. The manager is the receiver of `Extend` and `Unlock`.
- `Node.LockInstance` and `Node.ExtendInstance` do not model Redis rejecting `PX 0` with an error. In Redis the reply is an error and nothing is stored; in the model the command succeeds and stores the entry with TTL 0. A round with a TTL of 0 is still always refused, because its validity is negative, but a release that misses a node can leave such an entry behind in the model.
- The cast `uris.len() as u32` is modelled in `Quorum`. The intersection lemmas assume fewer than 2^32 servers.
- `elapsed.as_secs() as usize * 1000` overflow is not modelled.
- The Docker-based tests and the feature-gated re-exports in `src/lib.rs` are not modelled. The tests covered are listed below.
  - `test_lock_valid_instance`: `Majority.Quorum` (3 servers give 2).
  - `test_lock_direct_unlock_fails` and `test_lock_direct_unlock_succeeds`: `Node.UnlockInstance`.
  - `test_lock_direct_lock_succeeds`: `Node.LockInstance`.
  - `test_lock_unlock`: `Redlock.LockManager.Unlock`.
  - `test_lock_lock`: `Safety.FreshLockValidity` and `Redlock.LockManager.Lock`. The `validity_time > 900` check holds when the round takes under 88 ms.
  - `test_lock_lock_unlock`: `Safety.LockUnlockHandover`.
  - `test_lock_extend_lock`: `Safety.ExtendKeepsOthersOut`.
  - `test_lock_extend_lock_releases`: `Safety.ExtendAfterExpiryFails`.
- `test_lock_lock_unlock_raii` is not modelled, because it uses the `LockGuard`, which is left out. `test_lock_get_unique_id` and `test_lock_get_unique_id_uniqueness` are not modelled, because they test randomness.

## Findings

| source | as written | input that shows it | evidently intended | confidence | as-written member | corrected member |
|---|---|---|---|---|---|---|
| src/lock.rs:203-208 | `validity_time = ttl - drift - elapsed` is computed on `usize`, then tested with `validity_time > 0` | `lock(key, 1000)` whose round reaches quorum but takes 1500 ms | the round is refused because no validity is left | not executed; a release build wraps to 2^64 - 512 and grants the lock, a debug build panics | `Redlock.SlowRoundWrapsValidity` | `Redlock.Round` |

The model uses the signed `Redlock.Validity` throughout. `Redlock.Round` and
`Redlock.Rounds` prove that every granted lock has `validity == Validity(ttl, elapsed)` of its
granting round, so `0 < validity < ttl`.
