/**
 * `IoTSensorApp`: the configuration, the response cache, the diagnostic retry
 * counter, the connection flag, the auto-refresh timer and the persisted
 * settings, with the operations that change them. The host's timers are
 * modelled by the table of live repeating timers (`intervals`), the next
 * handle the host will hand out, and the one-shot dashboard loads scheduled
 * with `setTimeout` (`pendingLoads`); `localStorage`'s `iot-settings` entry is
 * `storage`.
 */
module App {
  import opened Common
  import opened Json
  import opened ResponseCache
  import opened Retry
  import opened Client
  import opened Settings
  import opened Decimal
  import opened History

  /** A timer handle as `setInterval` returns it: a positive integer. */
  type Handle = nat

  /** The cache key of the dashboard's status request. */
  const DashboardKey: string := "dashboard_status"

  /** The settling delay before the dashboard load that follows a resume. */
  const ResumeLoadDelay: int := 1000

  class IoTSensorApp {
    var config: Config
    var cache: Cache
    /** `state.retryCount`: only ever reset to 0 by a successful request. */
    var retryCount: int
    /** `state.isOnline`, as the connection indicator last set it. */
    var isOnline: bool
    /** `state.autoRefresh`: the handle of the last interval started, if any. */
    var autoRefresh: Option<Handle>
    /** The host's live repeating timers: handle to period in milliseconds. */
    var intervals: map<Handle, int>
    /** The handle the host's next `setInterval` returns. */
    var nextHandle: Handle
    /** Dashboard loads scheduled with `setTimeout`, by delay in milliseconds. */
    var pendingLoads: seq<int>
    /** The parsed `iot-settings` entry of `localStorage`, when there is one. */
    var storage: Option<StoredSettings>

    /**
     * The app's invariant: a live interval is always the one `autoRefresh`
     * names (so at most one is live), handles are positive and fresh, the
     * refresh period is at least five seconds, and the retry counter is 0.
     */
    ghost predicate Valid()
      reads this
    {
      && nextHandle > 0
      && (autoRefresh.Some? ==> 0 < autoRefresh.value < nextHandle)
      && (forall h | h in intervals :: autoRefresh == Some(h))
      && config.refreshInterval >= MinRefreshSeconds * 1000
      && retryCount == 0
    }

    /** At most one auto-refresh interval is ever live. */
    lemma AtMostOneInterval()
      requires Valid()
      ensures |intervals| <= 1
      ensures intervals != map[] ==> autoRefresh.Some? && intervals.Keys == {autoRefresh.value}
    {
      if intervals != map[] {
        var h :| h in intervals;
        assert intervals.Keys == {h};
      }
    }

    /**
     * `new IoTSensorApp()` up to its first dashboard load: the default
     * configuration, `loadSettings` applied to the stored settings, and the
     * auto-refresh interval started at the resulting period.
     */
    constructor(storage: Option<StoredSettings>, urlParses: bool)
      ensures Valid()
      ensures this.storage == storage
      ensures config == LoadedConfig(DefaultConfig, storage, urlParses)
      ensures cache == map[] && !isOnline && pendingLoads == []
      ensures autoRefresh == Some(1) && intervals == map[1 := config.refreshInterval] && nextHandle == 2
    {
      config := DefaultConfig;
      cache := map[];
      retryCount := 0;
      isOnline := false;
      autoRefresh := None;
      intervals := map[];
      nextHandle := 1;
      pendingLoads := [];
      this.storage := storage;
      new;
      LoadSettings(urlParses);
      StartAutoRefresh();
    }

    /** `loadSettings`: apply the stored settings to the configuration. */
    method LoadSettings(urlParses: bool)
      requires Valid()
      modifies this`config
      ensures Valid()
      ensures config == LoadedConfig(old(config), storage, urlParses)
    {
      config := LoadedConfig(config, storage, urlParses);
    }

    /**
     * `apiRequest`: serve a fresh cache entry, or try the network up to
     * `maxRetries + 1` times, waiting `retryDelay * (attempt + 1)` after each
     * failed attempt but the last; a success is cached (when caching applies)
     * and resets the retry counter, and the last failure is thrown.
     */
    method ApiRequest(useCache: bool, cacheKey: Option<string>, outcomes: seq<Attempt>, now: int)
      returns (result: Result<Json, AjaxError>, delays: seq<int>, attempts: nat)
      requires Valid()
      requires config.maxRetries < |outcomes|
      modifies this`cache, this`retryCount
      ensures Valid()
      ensures var r := Request(old(cache), useCache, cacheKey, config.maxRetries, config.retryDelay, outcomes, now);
        result == r.result && delays == r.delays && attempts == r.attempts && cache == r.cache
      ensures attempts <= config.maxRetries + 1
      ensures forall i | 0 <= i < |delays| :: delays[i] == config.retryDelay * (i + 1)
    {
      ghost var spec := Request(cache, useCache, cacheKey, config.maxRetries, config.retryDelay, outcomes, now);
      var cached := Lookup(cache, useCache, cacheKey, now);
      if cached.Some? {
        return Ok(cached.value), [], 0;
      }
      ghost var run := NetworkRun(outcomes, 0, config.maxRetries, config.retryDelay);
      NetworkRunSpec(outcomes, 0, config.maxRetries, config.retryDelay);
      assert spec == match run.last
        case Received(response, clock) =>
          Response(Ok(response), run.delays, run.attempts, Store(cache, useCache, cacheKey, response, clock))
        case Failed(error) => Response(Err(error), run.delays, run.attempts, cache);
      delays := [];
      var attempt: nat := 0;
      while attempt <= config.maxRetries
        invariant attempt <= config.maxRetries
        invariant cache == old(cache)
        invariant var rest := NetworkRun(outcomes, attempt, config.maxRetries, config.retryDelay);
          rest.last == run.last && rest.attempts == run.attempts && run.delays == delays + rest.delays
        decreases config.maxRetries - attempt
      {
        ghost var rest := NetworkRun(outcomes, attempt, config.maxRetries, config.retryDelay);
        match outcomes[attempt] {
          case Received(response, clock) =>
            assert rest == Run(outcomes[attempt], [], attempt + 1);
            if UsesCache(useCache, cacheKey) {
              cache := cache[cacheKey.value := CacheEntry(response, clock)];
            }
            retryCount := 0;
            assert delays == run.delays && run.last == Received(response, clock);
            assert cache == Store(old(cache), useCache, cacheKey, response, clock);
            assert spec == Response(Ok(response), delays, attempt + 1, cache);
            return Ok(response), delays, attempt + 1;
          case Failed(error) =>
            if attempt < config.maxRetries {
              ghost var next := NetworkRun(outcomes, attempt + 1, config.maxRetries, config.retryDelay);
              assert rest.delays == [config.retryDelay * (attempt + 1)] + next.delays;
              delays := delays + [config.retryDelay * (attempt + 1)];
              assert run.delays == delays + next.delays;
            } else {
              assert rest == Run(outcomes[attempt], [], attempt + 1);
              assert delays == run.delays && run.last == Failed(error);
              assert spec == Response(Err(error), delays, attempt + 1, cache);
              return Err(error), delays, attempt + 1;
            }
        }
        attempt := attempt + 1;
      }
      assert false;
    }

    /**
     * `handleOfflineMode`: when the cache holds a `dashboard_status` entry, its
     * readings are shown however old the entry is; without one nothing is shown.
     */
    function HandleOfflineMode(): (shown: Option<Json>)
      reads this
      ensures DashboardKey in cache ==> shown == DashboardReadings(cache[DashboardKey].data)
      ensures DashboardKey !in cache ==> shown.None?
    {
      match LastKnownGood(cache, DashboardKey)
      case Some(data) => DashboardReadings(data)
      case None => None
    }

    /**
     * `loadDashboardData`: request `system/status` through the cache under
     * `dashboard_status`; on success go online and show the reply's readings,
     * on failure go offline and fall back to the cached reply. The fallback can
     * only show a stale entry, since a fresh one is served without the network.
     */
    method LoadDashboardData(outcomes: seq<Attempt>, now: int) returns (shown: Option<Json>)
      requires Valid()
      requires config.maxRetries < |outcomes|
      modifies this`cache, this`retryCount, this`isOnline
      ensures Valid()
      ensures var r := Request(old(cache), true, Some(DashboardKey), config.maxRetries, config.retryDelay, outcomes, now);
        && cache == r.cache
        && isOnline == r.result.Ok?
        && (r.result.Ok? ==> shown == DashboardReadings(r.result.value))
        && (r.result.Err? ==> shown == old(HandleOfflineMode()))
      ensures !isOnline && shown.Some? ==> DashboardKey in cache && !IsFresh(cache[DashboardKey], now)
    {
      var result, _, _ := ApiRequest(true, Some(DashboardKey), outcomes, now);
      if result.Ok? {
        isOnline := true;
        shown := DashboardReadings(result.value);
      } else {
        isOnline := false;
        shown := HandleOfflineMode();
      }
    }

    /**
     * `loadHistoryData`: request a sensor's latest readings through the cache
     * under `history_<sensor>_<limit>`, unwrap the reply, draw the chart and
     * count the list; None when the request failed or drawing threw, in which
     * case both containers show an error.
     */
    method LoadHistoryData(sensor: string, limit: int, outcomes: seq<Attempt>, now: int)
      returns (listing: Option<HistoryListing>)
      requires Valid()
      requires config.maxRetries < |outcomes|
      modifies this`cache, this`retryCount
      ensures Valid()
      ensures var r := Request(old(cache), true, Some("history_" + sensor + "_" + IntToString(limit)),
                               config.maxRetries, config.retryDelay, outcomes, now);
        && cache == r.cache
        && listing == (if r.result.Ok? && !HistoryRenderThrows(Unwrap(r.result.value), sensor, MaxItems)
                       then Some(HistoryList(Unwrap(r.result.value), MaxItems)) else None)
    {
      var result, _, _ := ApiRequest(true, Some("history_" + sensor + "_" + IntToString(limit)), outcomes, now);
      if result.Ok? && !HistoryRenderThrows(Unwrap(result.value), sensor, MaxItems) {
        listing := Some(HistoryList(Unwrap(result.value), MaxItems));
      } else {
        listing := None;
      }
    }

    /**
     * `loadStatsData`: request the statistics for a period through the cache
     * under `stats_<hours>` and unwrap the reply; None when the request failed.
     */
    method LoadStatsData(hours: int, outcomes: seq<Attempt>, now: int) returns (stats: Option<Json>)
      requires Valid()
      requires config.maxRetries < |outcomes|
      modifies this`cache, this`retryCount
      ensures Valid()
      ensures var r := Request(old(cache), true, Some("stats_" + IntToString(hours)),
                               config.maxRetries, config.retryDelay, outcomes, now);
        && cache == r.cache
        && stats == (if r.result.Ok? then Some(Unwrap(r.result.value)) else None)
    {
      var result, _, _ := ApiRequest(true, Some("stats_" + IntToString(hours)), outcomes, now);
      stats := if result.Ok? then Some(Unwrap(result.value)) else None;
    }

    /**
     * `saveSettings`: validate the form's URL and interval (in seconds); a
     * rejected save changes nothing. An accepted one persists the settings,
     * installs the new URL and period, restarts the auto-refresh interval at
     * that period and empties the cache.
     */
    method SaveSettings(apiUrl: string, refreshInterval: int, notifications: bool, urlParses: bool)
      returns (outcome: Result<SavedSettings, ValidationError>)
      requires Valid()
      modifies this`config, this`cache, this`storage, this`autoRefresh, this`intervals, this`nextHandle
      ensures Valid()
      ensures outcome == ValidateSettings(apiUrl, refreshInterval, notifications, urlParses)
      ensures outcome.Err? ==> unchanged(this)
      ensures outcome.Ok? ==>
        && storage == Some(ToStored(outcome.value))
        && config == Apply(old(config), outcome.value)
        && cache == map[]
        && autoRefresh == Some(old(nextHandle))
        && nextHandle == old(nextHandle) + 1
        && intervals == map[old(nextHandle) := refreshInterval * 1000]
    {
      outcome := ValidateSettings(apiUrl, refreshInterval, notifications, urlParses);
      if outcome.Err? {
        return;
      }
      storage := Some(ToStored(outcome.value));
      config := Apply(config, outcome.value);
      StartAutoRefresh();
      cache := map[];
    }

    /**
     * `startAutoRefresh`: clear the interval `autoRefresh` names, if any, and
     * start a new one at the configured period; afterwards exactly that one
     * interval is live.
     */
    method StartAutoRefresh()
      requires Valid()
      modifies this`autoRefresh, this`intervals, this`nextHandle
      ensures Valid()
      ensures autoRefresh == Some(old(nextHandle)) && nextHandle == old(nextHandle) + 1
      ensures intervals == map[old(nextHandle) := config.refreshInterval]
    {
      if autoRefresh.Some? {
        intervals := intervals - {autoRefresh.value};
      }
      assert intervals == map[];
      var handle := nextHandle;
      nextHandle := nextHandle + 1;
      intervals := intervals[handle := config.refreshInterval];
      autoRefresh := Some(handle);
    }

    /**
     * `onPause`: clear the interval, so no interval is live. The stale handle
     * stays in `autoRefresh`.
     */
    method OnPause()
      requires Valid()
      modifies this`intervals
      ensures Valid()
      ensures intervals == map[]
    {
      if autoRefresh.Some? {
        intervals := intervals - {autoRefresh.value};
      }
    }

    /**
     * `onResume`: restart the interval and schedule exactly one dashboard load
     * after the settling delay, whatever time the cleared interval had left.
     */
    method OnResume()
      requires Valid()
      modifies this`autoRefresh, this`intervals, this`nextHandle, this`pendingLoads
      ensures Valid()
      ensures autoRefresh == Some(old(nextHandle))
      ensures intervals == map[old(nextHandle) := config.refreshInterval]
      ensures pendingLoads == old(pendingLoads) + [ResumeLoadDelay]
    {
      StartAutoRefresh();
      pendingLoads := pendingLoads + [ResumeLoadDelay];
    }

    /**
     * The host firing the earliest load `onResume` scheduled: it leaves the
     * pending loads and the dashboard is loaded, whatever page is active.
     */
    method FireResumeLoad(outcomes: seq<Attempt>, now: int) returns (shown: Option<Json>)
      requires Valid()
      requires |pendingLoads| > 0
      requires config.maxRetries < |outcomes|
      modifies this`pendingLoads, this`cache, this`retryCount, this`isOnline
      ensures Valid()
      ensures pendingLoads == old(pendingLoads)[1..]
      ensures var r := Request(old(cache), true, Some(DashboardKey), config.maxRetries, config.retryDelay, outcomes, now);
        && cache == r.cache
        && isOnline == r.result.Ok?
        && shown == (if r.result.Ok? then DashboardReadings(r.result.value) else old(HandleOfflineMode()))
    {
      pendingLoads := pendingLoads[1..];
      shown := LoadDashboardData(outcomes, now);
    }

    /**
     * One tick of a live interval: the dashboard is reloaded only when it is the
     * active page and the document is visible. A cleared interval never ticks.
     */
    method Tick(handle: Handle, onDashboard: bool, visible: bool, outcomes: seq<Attempt>, now: int)
      returns (loaded: bool, shown: Option<Json>)
      requires Valid()
      requires handle in intervals
      requires config.maxRetries < |outcomes|
      modifies this`cache, this`retryCount, this`isOnline
      ensures Valid()
      ensures loaded == (onDashboard && visible)
      ensures !loaded ==> unchanged(this) && shown.None?
      ensures loaded ==>
        var r := Request(old(cache), true, Some(DashboardKey), config.maxRetries, config.retryDelay, outcomes, now);
        && cache == r.cache
        && isOnline == r.result.Ok?
        && shown == (if r.result.Ok? then DashboardReadings(r.result.value) else old(HandleOfflineMode()))
    {
      loaded := onDashboard && visible;
      shown := None;
      if loaded {
        shown := LoadDashboardData(outcomes, now);
      }
    }

    /** `destroy`: clear the interval and empty the cache. */
    method Destroy()
      requires Valid()
      modifies this`intervals, this`cache
      ensures Valid()
      ensures intervals == map[] && cache == map[]
    {
      if autoRefresh.Some? {
        intervals := intervals - {autoRefresh.value};
      }
      cache := map[];
    }
  }
}
