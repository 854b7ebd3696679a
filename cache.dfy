/**
  The response cache the client keeps (`CacheClient`). Its own source is not
  part of this model, so it is an abstract map: the key of a context comes
  from a key function supplied from outside, every entry carries the time it
  was stored, and the current time is a parameter. An entry is served while
  it is younger than the time-to-live; with a time-to-live of 0 (or less) it
  is never served.
 */
module Cache {
  import opened Wrappers
  import opened Types

  /** A stored value and the time, in seconds, it was stored at. */
  datatype CacheEntry<V> = CacheEntry(value: V, storedAt: int)

  /** Whether an entry stored at `storedAt` may still be served at `now`. */
  predicate Fresh(storedAt: int, ttl: int, now: int) {
    storedAt <= now < storedAt + ttl
  }

  /** What the cache serves for `key` at `now`. */
  function Lookup<V>(entries: map<string, CacheEntry<V>>, key: string, ttl: int, now: int): (r: Option<V>)
    ensures r.Some? ==> key in entries && r.value == entries[key].value
    ensures ttl <= 0 ==> r == None
  {
    if key in entries && Fresh(entries[key].storedAt, ttl, now) then Some(entries[key].value) else None
  }

  /** A cache nothing was stored in serves nothing. */
  lemma EmptyServesNothing<V>(key: string, ttl: int, now: int)
    ensures Lookup(map[], key, ttl, now) == Option<V>.None
  {
  }

  /** What was just stored is served back, as long as the time-to-live is positive. */
  lemma StoredIsServed<V>(entries: map<string, CacheEntry<V>>, key: string, value: V, ttl: int, now: int)
    ensures ttl > 0 ==> Lookup(entries[key := CacheEntry(value, now)], key, ttl, now) == Some(value)
    ensures ttl <= 0 ==> Lookup(entries[key := CacheEntry(value, now)], key, ttl, now) == None
  {
  }

  /** Storing under one key leaves what every other key serves unchanged. */
  lemma StoreKeepsOtherKeys<V>(entries: map<string, CacheEntry<V>>, key: string, value: V, other: string, ttl: int, now: int, later: int)
    requires other != key
    ensures Lookup(entries[key := CacheEntry(value, now)], other, ttl, later) == Lookup(entries, other, ttl, later)
  {
  }

  /** An entry stays served for exactly `ttl` seconds from the time it was stored. */
  lemma ServedUntilExpiry<V>(entries: map<string, CacheEntry<V>>, key: string, value: V, ttl: int, now: int, later: int)
    requires now <= later
    ensures Lookup(entries[key := CacheEntry(value, now)], key, ttl, later) == Some(value) <==> later < now + ttl
  {
  }

  /** `CacheClient`: a time-to-live, a key function and the stored entries. */
  class CacheClient<V> {
    const ttlSeconds: int
    const keyOf: ContextValue -> string
    var entries: map<string, CacheEntry<V>>

    constructor(ttlSeconds: int, keyOf: ContextValue -> string)
      ensures this.ttlSeconds == ttlSeconds && this.keyOf == keyOf
      ensures entries == map[]
    {
      this.ttlSeconds := ttlSeconds;
      this.keyOf := keyOf;
      entries := map[];
    }

    /** `get(context)`: the value stored for the context if it has not expired, else None. */
    function Get(context: ContextValue, now: int): (r: Option<V>)
      reads this
      ensures entries == map[] ==> r == None
      ensures ttlSeconds <= 0 ==> r == None
      ensures r.Some? ==> keyOf(context) in entries && r.value == entries[keyOf(context)].value
    {
      Lookup(entries, keyOf(context), ttlSeconds, now)
    }

    /** `set(context, value)`: stores the value under the context's key, stamped with `now`. */
    method Set(context: ContextValue, value: V, now: int)
      modifies this
      ensures entries == old(entries)[keyOf(context) := CacheEntry(value, now)]
      ensures ttlSeconds > 0 ==> Get(context, now) == Some(value)
      ensures ttlSeconds <= 0 ==> Get(context, now) == None
    {
      entries := entries[keyOf(context) := CacheEntry(value, now)];
      StoredIsServed(old(entries), keyOf(context), value, ttlSeconds, now);
    }
  }
}
