/**
 * One logical `apiRequest` call, stated as a function of the configuration,
 * the cache, the request's options, the network's answers and the clock: the
 * specification the imperative `IoTSensorApp.ApiRequest` is proved against.
 */
module Client {
  import opened Common
  import opened Json
  import opened ResponseCache
  import opened Retry

  /**
   * What a request yields: the reply or the thrown error, the waits between
   * attempts, the number of network attempts, and the cache afterwards.
   */
  datatype Response = Response(result: Result<Json, AjaxError>, delays: seq<int>, attempts: nat, cache: Cache)

  function Request(cache: Cache, useCache: bool, cacheKey: Option<string>,
                   maxRetries: nat, retryDelay: nat, outcomes: seq<Attempt>, now: int): Response
    requires maxRetries < |outcomes|
    ensures var r := Request(cache, useCache, cacheKey, maxRetries, retryDelay, outcomes, now);
      && (r.attempts == 0 <==> Lookup(cache, useCache, cacheKey, now).Some?)
      && r.attempts <= maxRetries + 1
      && (r.result.Err? ==> r.cache == cache)
      && (!UsesCache(useCache, cacheKey) ==> r.cache == cache)
  {
    var hit := Lookup(cache, useCache, cacheKey, now);
    if hit.Some? then
      Response(Ok(hit.value), [], 0, cache)
    else
      var run := NetworkRun(outcomes, 0, maxRetries, retryDelay);
      match run.last
      case Received(response, clock) =>
        Response(Ok(response), run.delays, run.attempts, Store(cache, useCache, cacheKey, response, clock))
      case Failed(error) =>
        Response(Err(error), run.delays, run.attempts, cache)
  }

  /** A fresh cache entry is returned as it is, with no network attempt and no change to the cache. */
  lemma CacheHitSkipsNetwork(cache: Cache, useCache: bool, cacheKey: Option<string>,
                             maxRetries: nat, retryDelay: nat, outcomes: seq<Attempt>, now: int)
    requires maxRetries < |outcomes|
    requires UsesCache(useCache, cacheKey) && cacheKey.value in cache
    requires now - cache[cacheKey.value].timestamp < CacheTimeout
    ensures var r := Request(cache, useCache, cacheKey, maxRetries, retryDelay, outcomes, now);
      r.result == Ok(cache[cacheKey.value].data) && r.attempts == 0 && r.delays == [] && r.cache == cache
  {
  }

  /**
   * Without a fresh entry (caching off, no key, no entry, or an expired one) the
   * request makes between 1 and `maxRetries + 1` attempts, waiting
   * `retryDelay * (i + 1)` after failed attempt `i`.
   */
  lemma {:induction false} MissGoesToNetwork(cache: Cache, useCache: bool, cacheKey: Option<string>,
                                             maxRetries: nat, retryDelay: nat, outcomes: seq<Attempt>, now: int)
    requires maxRetries < |outcomes|
    requires Lookup(cache, useCache, cacheKey, now).None?
    ensures var r := Request(cache, useCache, cacheKey, maxRetries, retryDelay, outcomes, now);
      && 1 <= r.attempts <= maxRetries + 1
      && |r.delays| == r.attempts - 1
      && (forall i | 0 <= i < |r.delays| :: r.delays[i] == retryDelay * (i + 1))
      && (forall j | 0 <= j < r.attempts - 1 :: outcomes[j].Failed?)
  {
    NetworkRunSpec(outcomes, 0, maxRetries, retryDelay);
  }

  /**
   * A request that succeeds returns the reply of its last attempt and, when
   * caching applies, stores it under the key stamped with that attempt's clock,
   * leaving every other key as it was; without caching the table is unchanged.
   */
  lemma {:induction false} SuccessStoresReply(cache: Cache, useCache: bool, cacheKey: Option<string>,
                                              maxRetries: nat, retryDelay: nat, outcomes: seq<Attempt>, now: int)
    requires maxRetries < |outcomes|
    requires Lookup(cache, useCache, cacheKey, now).None?
    requires Request(cache, useCache, cacheKey, maxRetries, retryDelay, outcomes, now).result.Ok?
    ensures 1 <= Request(cache, useCache, cacheKey, maxRetries, retryDelay, outcomes, now).attempts <= maxRetries + 1
    ensures var r := Request(cache, useCache, cacheKey, maxRetries, retryDelay, outcomes, now);
      var a := outcomes[r.attempts - 1];
      && a.Received? && r.result.value == a.response
      && (UsesCache(useCache, cacheKey) ==> r.cache == cache[cacheKey.value := CacheEntry(a.response, a.clock)])
      && (!UsesCache(useCache, cacheKey) ==> r.cache == cache)
  {
    NetworkRunSpec(outcomes, 0, maxRetries, retryDelay);
  }

  /**
   * A request that fails has made every one of its `maxRetries + 1` attempts,
   * throws the error of the last one, and leaves the cache as it was, stale
   * entries included.
   */
  lemma {:induction false} FailureKeepsCache(cache: Cache, useCache: bool, cacheKey: Option<string>,
                                             maxRetries: nat, retryDelay: nat, outcomes: seq<Attempt>, now: int)
    requires maxRetries < |outcomes|
    requires Request(cache, useCache, cacheKey, maxRetries, retryDelay, outcomes, now).result.Err?
    ensures var r := Request(cache, useCache, cacheKey, maxRetries, retryDelay, outcomes, now);
      && r.attempts == maxRetries + 1
      && (forall j | 0 <= j <= maxRetries :: outcomes[j].Failed?)
      && r.result.error == outcomes[maxRetries].error
      && r.cache == cache
  {
    NetworkRunSpec(outcomes, 0, maxRetries, retryDelay);
  }

  /**
   * Two requests under the same key: after one that succeeded, a second one
   * made less than the timeout after the first reply was handled is served from
   * the cache with no network attempt and returns the same reply.
   */
  lemma {:induction false} SecondRequestServedFromCache(cache: Cache, key: string, maxRetries: nat, retryDelay: nat,
                                                        first: seq<Attempt>, second: seq<Attempt>, now: int, later: int)
    requires maxRetries < |first| && maxRetries < |second| && key != ""
    requires Request(cache, true, Some(key), maxRetries, retryDelay, first, now).result.Ok?
    requires var r := Request(cache, true, Some(key), maxRetries, retryDelay, first, now);
      later - r.cache[key].timestamp < CacheTimeout
    ensures var r1 := Request(cache, true, Some(key), maxRetries, retryDelay, first, now);
      var r2 := Request(r1.cache, true, Some(key), maxRetries, retryDelay, second, later);
      r2.result == r1.result && r2.attempts == 0 && r2.cache == r1.cache
  {
    var r1 := Request(cache, true, Some(key), maxRetries, retryDelay, first, now);
    if Lookup(cache, true, Some(key), now).None? {
      SuccessStoresReply(cache, true, Some(key), maxRetries, retryDelay, first, now);
    }
  }
}
