/**
 * The response cache of `apiRequest`: a table from cache key to the last
 * successful reply and the time it was stored. An entry is served for five
 * minutes; an older one is ignored on lookup but stays in the table until a
 * later success overwrites it or the whole table is cleared.
 */
module ResponseCache {
  import opened Common
  import opened Json

  datatype CacheEntry = CacheEntry(data: Json, timestamp: int)

  type Cache = map<string, CacheEntry>

  /** `cacheTimeout`: five minutes, in milliseconds. */
  const CacheTimeout: int := 5 * 60 * 1000

  /** `useCache && cacheKey`: caching is on and the key is neither null nor "". */
  predicate UsesCache(useCache: bool, cacheKey: Option<string>) {
    useCache && cacheKey.Some? && cacheKey.value != ""
  }

  predicate IsFresh(entry: CacheEntry, now: int) {
    now - entry.timestamp < CacheTimeout
  }

  /**
   * The cache check at the start of `apiRequest`: the stored reply when caching
   * is on, the key is present and the entry is younger than the timeout; None
   * (go to the network) in every other case.
   */
  function Lookup(cache: Cache, useCache: bool, cacheKey: Option<string>, now: int): (r: Option<Json>)
    ensures r.Some? <==>
      UsesCache(useCache, cacheKey) && cacheKey.value in cache && IsFresh(cache[cacheKey.value], now)
    ensures r.Some? ==> r.value == cache[cacheKey.value].data
  {
    if UsesCache(useCache, cacheKey) && cacheKey.value in cache && IsFresh(cache[cacheKey.value], now)
    then Some(cache[cacheKey.value].data)
    else None
  }

  /**
   * The cache write after a successful attempt: when caching applies, the entry
   * for the key becomes the reply stamped with the clock; every other key keeps
   * its entry, and without caching the table is untouched.
   */
  function Store(cache: Cache, useCache: bool, cacheKey: Option<string>, response: Json, clock: int): (c: Cache)
    ensures UsesCache(useCache, cacheKey) ==>
      cacheKey.value in c && c[cacheKey.value] == CacheEntry(response, clock)
    ensures !UsesCache(useCache, cacheKey) ==> c == cache
    ensures forall k | k in cache && !(UsesCache(useCache, cacheKey) && k == cacheKey.value) ::
      k in c && c[k] == cache[k]
    ensures c.Keys == cache.Keys + (if UsesCache(useCache, cacheKey) then {cacheKey.value} else {})
  {
    if UsesCache(useCache, cacheKey) then cache[cacheKey.value := CacheEntry(response, clock)] else cache
  }

  /**
   * `handleOfflineMode`'s read of the cache: the stored reply for the key
   * whatever its age, or None exactly when the key has no entry (nothing was
   * stored under it since the cache was last emptied).
   */
  function LastKnownGood(cache: Cache, key: string): (r: Option<Json>)
    ensures r.Some? <==> key in cache
    ensures r.Some? ==> r.value == cache[key].data
  {
    if key in cache then Some(cache[key].data) else None
  }

  /** A reply stored at `clock` is served, unchanged, to a lookup less than the timeout later. */
  lemma HitWithinTimeout(cache: Cache, key: string, response: Json, clock: int, now: int)
    requires key != "" && now - clock < CacheTimeout
    ensures Lookup(Store(cache, true, Some(key), response, clock), true, Some(key), now) == Some(response)
  {
  }

  /**
   * Once the timeout has passed, a lookup misses (the request goes to the
   * network), yet the entry is still there for the offline fallback.
   */
  lemma ExpiredEntryMissesButStays(cache: Cache, key: string, now: int)
    requires key in cache && now - cache[key].timestamp >= CacheTimeout
    ensures Lookup(cache, true, Some(key), now) == None
    ensures LastKnownGood(cache, key) == Some(cache[key].data)
  {
  }

  /** Storing under one key changes no lookup under any other key. */
  lemma StoreKeepsOtherKeys(cache: Cache, key: string, other: string, response: Json, clock: int, now: int)
    requires key != "" && other != key
    ensures Lookup(Store(cache, true, Some(key), response, clock), true, Some(other), now)
         == Lookup(cache, true, Some(other), now)
    ensures LastKnownGood(Store(cache, true, Some(key), response, clock), other) == LastKnownGood(cache, other)
  {
  }

  /** Whenever a lookup hits, the offline fallback would show the same reply. */
  lemma HitAgreesWithLastKnownGood(cache: Cache, key: string, now: int)
    requires Lookup(cache, true, Some(key), now).Some?
    ensures LastKnownGood(cache, key) == Lookup(cache, true, Some(key), now)
  {
  }
}
