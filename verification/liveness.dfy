/** The liveness ledgers of the exporter: each maps an entity key to the
    millisecond timestamp at which that entity was last reported. */
module Liveness {

  type Ledger = map<string, int>

  const MillisPerSecond: nat := 1000

  /** The cleanup tick's test: an entry has timed out when it was last seen
      strictly before `now - ttl * 1000`. An entry exactly `ttl` seconds old
      has not timed out. */
  predicate Expired(lastSeen: int, now: int, ttlSeconds: nat)
  {
    lastSeen < now - ttlSeconds * MillisPerSecond
  }

  /** `ledger.set(key, now)`: insert, or overwrite an earlier timestamp. */
  function Touch(l: Ledger, key: string, now: int): (r: Ledger)
    ensures r.Keys == l.Keys + {key}
    ensures r[key] == now
    ensures forall k :: k in l && k != key ==> r[k] == l[k]
  {
    l[key := now]
  }

  /** The keys the tick collects as timed out: those older than the TTL. */
  function ExpiredKeys(l: Ledger, now: int, ttlSeconds: nat): (e: set<string>)
    ensures e <= l.Keys
    ensures forall k :: k in l ==> (k in e <==> now - l[k] > ttlSeconds * MillisPerSecond)
  {
    set k | k in l && Expired(l[k], now, ttlSeconds)
  }

  /** The ledger after the tick deleted every timed-out key. */
  function Evict(l: Ledger, now: int, ttlSeconds: nat): (r: Ledger)
    ensures r.Keys == l.Keys - ExpiredKeys(l, now, ttlSeconds)
    ensures forall k :: k in r <==> k in l && now - l[k] <= ttlSeconds * MillisPerSecond
    ensures forall k :: k in r ==> r[k] == l[k]
  {
    l - ExpiredKeys(l, now, ttlSeconds)
  }

  /** The eviction boundary: an entry exactly `ttl` seconds old survives, an
      entry one millisecond older is evicted. */
  lemma EvictionBoundary(l: Ledger, key: string, now: int, ttlSeconds: nat)
    requires key in l
    ensures l[key] == now - ttlSeconds * MillisPerSecond ==> key in Evict(l, now, ttlSeconds)
    ensures l[key] == now - ttlSeconds * MillisPerSecond - 1 ==> key !in Evict(l, now, ttlSeconds)
  {
  }

  /** An entity touched at `seen` is still in the ledger at every tick no
      later than `ttl` seconds afterwards, with the timestamp of the touch. */
  lemma TouchedKeySurvives(l: Ledger, key: string, seen: int, now: int, ttlSeconds: nat)
    requires now - seen <= ttlSeconds * MillisPerSecond
    ensures key in Evict(Touch(l, key, seen), now, ttlSeconds)
    ensures Evict(Touch(l, key, seen), now, ttlSeconds)[key] == seen
  {
  }

  /** A second tick at the same time evicts nothing more. */
  lemma EvictIdempotent(l: Ledger, now: int, ttlSeconds: nat)
    ensures Evict(Evict(l, now, ttlSeconds), now, ttlSeconds) == Evict(l, now, ttlSeconds)
  {
    var once := Evict(l, now, ttlSeconds);
    assert ExpiredKeys(once, now, ttlSeconds) == {};
  }

  /** A later tick keeps no key that an earlier tick evicted. */
  lemma EvictMonotone(l: Ledger, earlier: int, later: int, ttlSeconds: nat)
    requires earlier <= later
    ensures Evict(l, later, ttlSeconds).Keys <= Evict(l, earlier, ttlSeconds).Keys
  {
  }

  /** Touching a key a second time overwrites the timestamp and does not
      change the number of entries. */
  lemma TouchAgain(l: Ledger, key: string, first: int, second: int)
    ensures Touch(Touch(l, key, first), key, second) == Touch(l, key, second)
    ensures |Touch(Touch(l, key, first), key, second)| == |Touch(l, key, first)|
  {
    assert Touch(Touch(l, key, first), key, second).Keys == Touch(l, key, first).Keys;
  }
}
