/** The framework cache as the helpers use it: a map from string key to a
    value with an absolute expiry instant, with read-through (`remember`),
    unconditional overwrite (`put`) and removal (`forget`). */
module TtlCache {
  import opened Base

  /** A stored value and the instant (in seconds) from which it is stale. */
  datatype Entry<V> = Entry(value: V, expiresAt: int)

  type Cache<V> = map<string, Entry<V>>

  /** An entry is live strictly before its expiry instant. */
  predicate Live<V>(e: Entry<V>, now: int)
  {
    now < e.expiresAt
  }

  /** `key` holds a live entry at time `now`: `remember` would not run its producer. */
  predicate Hit<V>(c: Cache<V>, key: string, now: int)
  {
    key in c && Live(c[key], now)
  }

  /** A read: the stored value when live, nothing otherwise. */
  function Get<V>(c: Cache<V>, key: string, now: int): (r: Option<V>)
    ensures r.Some? <==> Hit(c, key, now)
    ensures r.Some? ==> r.value == c[key].value
  {
    if Hit(c, key, now) then Some(c[key].value) else None
  }

  /** `put(key, v, ttl)` at time `now`: overwrite with expiry `now + ttl`. */
  function Put<V>(c: Cache<V>, key: string, v: V, now: int, ttl: int): (r: Cache<V>)
    ensures r.Keys == c.Keys + {key}
    ensures r[key] == Entry(v, now + ttl)
    ensures forall k :: k in c && k != key ==> r[k] == c[k]
  {
    c[key := Entry(v, now + ttl)]
  }

  /** `forget(key)`: drop the entry, whatever its expiry. */
  function Forget<V>(c: Cache<V>, key: string): (r: Cache<V>)
    ensures r.Keys == c.Keys - {key}
    ensures forall k :: k in r ==> r[k] == c[k]
  {
    c - {key}
  }

  /** A value put with ttl is read back exactly until `now + ttl`, and not from then on. */
  lemma PutLiveUntil<V>(c: Cache<V>, key: string, v: V, now: int, ttl: int, t: int)
    ensures Get(Put(c, key, v, now, ttl), key, t) == (if t < now + ttl then Some(v) else None)
  {
  }

  /** After `forget`, a read misses at every instant, so the next `remember` runs its producer. */
  lemma ForgetMisses<V>(c: Cache<V>, key: string, t: int)
    ensures Get(Forget(c, key), key, t) == None
  {
  }

  /** `forget` is idempotent. */
  lemma ForgetIdempotent<V>(c: Cache<V>, key: string)
    ensures Forget(Forget(c, key), key) == Forget(c, key)
  {
  }

  /** `put` and `forget` leave every other key's reads as they were. */
  lemma OtherKeysUnchanged<V>(c: Cache<V>, key: string, other: string, v: V, now: int, ttl: int, t: int)
    requires other != key
    ensures Get(Put(c, key, v, now, ttl), other, t) == Get(c, other, t)
    ensures Get(Forget(c, key), other, t) == Get(c, other, t)
  {
  }
}
