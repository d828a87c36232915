/**
 * The server's response cache (`new NodeCache({ stdTTL: 300 })` in backend/server.js).
 * The library itself is not part of this model; what is modelled is its contract:
 * `set` stores a value under a key and (re)starts that key's time-to-live, and `get`
 * returns the value while the time-to-live has not run out and nothing afterwards.
 * Time is the millisecond clock the library reads, passed explicitly as `now`.
 */
module ResponseCache {
  import opened Options
  import opened JsonValue

  /** The server's standard time-to-live, in seconds. */
  const StdTtlSeconds: nat := 300

  datatype Entry = Entry(value: Json, storedAt: int)

  /**
   * An entry stored at `storedAt` expires once the clock passes `storedAt + ttl`;
   * a time-to-live of 0 means the entry never expires.
   */
  predicate Live(e: Entry, now: int, ttlSeconds: nat) {
    ttlSeconds == 0 || now <= e.storedAt + ttlSeconds * 1000
  }

  /** `cache.get(key)`: the stored value while it is live, otherwise absent. */
  function Lookup(entries: map<string, Entry>, key: string, now: int, ttlSeconds: nat): (r: Option<Json>)
    ensures r.Some? <==> key in entries && Live(entries[key], now, ttlSeconds)
    ensures r.Some? ==> r.value == entries[key].value
  {
    if key in entries && Live(entries[key], now, ttlSeconds) then Some(entries[key].value) else None
  }

  /** `cache.set(key, value)`: overwrite the entry and restart its clock. */
  function Store(entries: map<string, Entry>, key: string, value: Json, now: int): (r: map<string, Entry>)
    ensures r.Keys == entries.Keys + {key}
  {
    entries[key := Entry(value, now)]
  }

  /** A stored value is returned for the whole time-to-live after the store... */
  lemma LookupWithinTtl(entries: map<string, Entry>, key: string, value: Json, storedAt: int, now: int, ttlSeconds: nat)
    requires storedAt <= now <= storedAt + ttlSeconds * 1000
    ensures Lookup(Store(entries, key, value, storedAt), key, now, ttlSeconds) == Some(value)
  {
  }

  /** ...and is absent after it, whatever was stored before. */
  lemma LookupAfterTtl(entries: map<string, Entry>, key: string, value: Json, storedAt: int, now: int, ttlSeconds: nat)
    requires ttlSeconds > 0 && now > storedAt + ttlSeconds * 1000
    ensures Lookup(Store(entries, key, value, storedAt), key, now, ttlSeconds) == None
  {
  }

  /** With a time-to-live of 0 a stored value is returned at any later time. */
  lemma ZeroTtlNeverExpires(entries: map<string, Entry>, key: string, value: Json, storedAt: int, now: int)
    ensures Lookup(Store(entries, key, value, storedAt), key, now, 0) == Some(value)
  {
  }

  /** The server's cache keeps a value for exactly five minutes: 300000 ms, and not one more. */
  lemma ServerCacheKeepsFiveMinutes(entries: map<string, Entry>, key: string, value: Json, storedAt: int)
    ensures Lookup(Store(entries, key, value, storedAt), key, storedAt + 300000, StdTtlSeconds) == Some(value)
    ensures Lookup(Store(entries, key, value, storedAt), key, storedAt + 300001, StdTtlSeconds) == None
  {
    LookupWithinTtl(entries, key, value, storedAt, storedAt + 300000, StdTtlSeconds);
    LookupAfterTtl(entries, key, value, storedAt, storedAt + 300001, StdTtlSeconds);
  }

  /** Storing under one key leaves every other key's answer as it was. */
  lemma StoreIsolatesKeys(entries: map<string, Entry>, key: string, other: string, value: Json, storedAt: int, now: int, ttlSeconds: nat)
    requires other != key
    ensures Lookup(Store(entries, key, value, storedAt), other, now, ttlSeconds) == Lookup(entries, other, now, ttlSeconds)
  {
  }

  /** Overwriting a key restarts its clock: the new value outlives the old entry's expiry. */
  lemma OverwriteRestartsClock(entries: map<string, Entry>, key: string, v1: Json, v2: Json, t1: int, t2: int, now: int, ttlSeconds: nat)
    requires t1 <= t2 <= now <= t2 + ttlSeconds * 1000
    ensures Lookup(Store(Store(entries, key, v1, t1), key, v2, t2), key, now, ttlSeconds) == Some(v2)
  {
  }

  /** The cache object the handlers share. */
  class Cache {
    var entries: map<string, Entry>
    const ttlSeconds: nat

    constructor (ttlSeconds: nat)
      ensures this.ttlSeconds == ttlSeconds && entries == map[]
    {
      this.ttlSeconds := ttlSeconds;
      entries := map[];
    }

    /** `cache.get(key)` at time `now`. */
    function Get(key: string, now: int): (r: Option<Json>)
      reads this
      ensures r.Some? <==> key in entries && Live(entries[key], now, ttlSeconds)
      ensures r.Some? ==> r.value == entries[key].value
    {
      Lookup(entries, key, now, ttlSeconds)
    }

    method Set(key: string, value: Json, now: int)
      modifies this
      ensures entries == Store(old(entries), key, value, now)
    {
      entries := entries[key := Entry(value, now)];
    }
  }
}
