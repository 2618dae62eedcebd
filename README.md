# IoT Sensors dashboard client — a Dafny model

The IoT Sensors app is a Cordova/jQuery Mobile dashboard. It polls a REST API
for temperature, pH, oxygen and light readings. Almost all of `IoTSensorApp`
(`www/js/index.js`) updates the DOM. This project models the part that has
behaviour of its own:

- **The request client** (`apiRequest`). It has a five-minute response cache
  keyed by a caller-chosen string. It retries linearly: up to `maxRetries + 1`
  attempts, with a wait of `retryDelay * (attempt + 1)` after each failure
  except the last, and the last error is thrown. A success is cached and
  resets `state.retryCount`.
- **The `{success, data}` envelope**, stripped at the three call sites.
- **Settings.** `isValidUrl`, `saveSettings` (validate, persist, apply, restart
  the timer, clear the cache) and `loadSettings`.
- **The auto-refresh timer.** `startAutoRefresh`, `onPause`, `onResume` and
  `destroy` act on a single interval handle.
- **Small counting helpers.** `getDataTimespan`, the counts of
  `displayHistoryList`, and the offline fallback `handleOfflineMode`.

The network is an oracle. Each request receives a sequence of attempt
outcomes, and `outcomes[i]` is what attempt `i` yields. A successful outcome
carries the clock reading taken when the reply was handled. The source reads
`Date.now()` a second time when it stores the reply (line 134), after any
waits, so the cache timestamp is that reading and not the lookup time. The
lookup itself uses a `now` parameter. The platform's URL parser
(`new URL(s)` throwing or not) is a boolean parameter.

Modules: `Json` (decoded values, JavaScript truthiness, envelope unwrapping),
`ResponseCache` (lookup, store, last-known-good), `Retry` (the attempt loop as
a function, with its schedule), `Client` (one logical request as a function),
`Settings`, `Decimal` and `History` (timespan and list counts), and `App`. The
`App` module holds the class `IoTSensorApp`, whose methods change its fields in
place and are proved against the functions above. `Scenarios` holds client
code that checks the documented behaviours from the contracts alone.

The model reproduces these details of the code exactly:

- A cache key must be truthy, so an empty key disables caching like a null one.
- The envelope is unwrapped only when `success` and `data` are truthy. A
  `data` of `0`, `""`, `false` or `null` leaves the reply wrapped
  (`EnvelopeRoundTrip`).
- A request that exhausts its retries throws the last attempt's own error;
  there is no separate wrapper error.
- The fallback after a failed request exists only for the dashboard key
  `dashboard_status`.
- `loadSettings` accepts any stored interval of at least 5 seconds, with no
  upper bound (`LoadAcceptsLongIntervals`).
- `onPause` clears the interval but leaves the stale handle in
  `state.autoRefresh`.
- `state.retryCount` is only ever set to 0, so the class invariant states that
  it is always 0.

## Model

| member | source | states |
|---|---|---|
| `Json.Unwrap` | www/js/index.js:186-191 | the payload is the reply or its `data` member, and a truthy reply never unwraps to a falsy payload |
| `Json.Truthy` | www/js/index.js:189 | a value is truthy exactly when it is not null, false, 0 or the empty string |
| `Json.IsEnvelope` | www/js/index.js:189 | an envelope is an object with truthy `success` and `data` members |
| `Json.UnwrapChangesExactlyEnvelopes` | www/js/index.js:188-191 | unwrapping changes a reply exactly when the reply, its `success` and its `data` are all truthy |
| `Json.EnvelopeRoundTrip` | www/js/index.js:270-273 | wrapping a payload in `{success: true, data}` and unwrapping gives it back exactly when the payload is truthy |
| `Json.DashboardReadings` | www/js/index.js:186-198 | the dashboard shows the truthy `latest_readings` of the unwrapped reply, and nothing when that member is missing or falsy |
| `ResponseCache.Lookup` | www/js/index.js:108-114 | the cached reply is returned exactly when caching is on, the key is truthy and present, and the entry is under five minutes old |
| `ResponseCache.Store` | www/js/index.js:130-136 | when caching applies, the key's entry becomes the reply stamped with the clock; every other key keeps its entry, and without caching nothing changes |
| `ResponseCache.LastKnownGood` | www/js/index.js:572-580 | the offline fallback returns the stored reply whatever its age, and nothing exactly when the key has no entry (never stored, or the cache was emptied since) |
| `ResponseCache.HitWithinTimeout` | www/js/index.js:109-136 | a reply stored at time t is served unchanged to any lookup made less than five minutes after t |
| `ResponseCache.ExpiredEntryMissesButStays` | www/js/index.js:109-114 | an expired entry causes a miss but is not evicted: the offline fallback still finds it |
| `ResponseCache.StoreKeepsOtherKeys` | www/js/index.js:131-136 | storing under one key changes no lookup and no fallback under another key |
| `ResponseCache.HitAgreesWithLastKnownGood` | www/js/index.js:574 | whenever a lookup hits, the offline fallback holds the same reply |
| `Retry.NetworkRunSpec` | www/js/index.js:118-149 | a run makes 1 to maxRetries+1 attempts; all but the last failed; it ends at the first success or after attempt maxRetries; after failed attempt i it waits retryDelay*(i+1) |
| `Retry.NetworkRun` | www/js/index.js:118-149 | the attempt loop as a recursion over the attempt index: from attempt `from` it makes between 1 and maxRetries+1-from attempts, with one wait fewer than attempts |
| `Retry.FirstSuccessWins` | www/js/index.js:120-139 | the first successful attempt ends the run, and its reply is the result |
| `Retry.AllFailedExhausts` | www/js/index.js:141-148 | when every attempt fails, exactly maxRetries+1 attempts are made and the last attempt's error is thrown |
| `Retry.DefaultBackoff` | www/js/index.js:144-145 | with 3 retries and a 2000 ms delay, a request that always fails makes 4 attempts and waits 2000, 4000 and 6000 ms |
| `Retry.TotalWait` | www/js/index.js:144-145 | the total wait of a run is retryDelay*(1+2+...+(attempts-1)) |
| `Client.CacheHitSkipsNetwork` | www/js/index.js:109-114 | a request with a fresh entry returns the cached data with zero attempts, zero waits and an unchanged cache |
| `Client.MissGoesToNetwork` | www/js/index.js:116-149 | without a fresh entry, a request makes at least one and at most maxRetries+1 attempts, on the linear wait schedule |
| `Client.SuccessStoresReply` | www/js/index.js:130-139 | a successful request returns its last attempt's reply and overwrites the key's entry with it when caching applies; without caching the cache is unchanged |
| `Client.FailureKeepsCache` | www/js/index.js:141-148 | a failed request has failed all maxRetries+1 attempts, throws the last error and leaves the cache as it was |
| `Client.SecondRequestServedFromCache` | www/js/index.js:109-139 | after a successful request under a key, a second one made within five minutes of the stored reply returns the same reply with no network attempt |
| `Client.Request` | www/js/index.js:100-151 | one request makes no network attempt exactly when the cache hits and at most maxRetries+1 otherwise; a failure or a request without caching leaves the cache unchanged |
| `Settings.ValidUrlBySchemeName` | www/js/index.js:560-567 | a URL is valid exactly when it parses, its scheme is `http` or `https` in lower case, and the scheme is followed by `://` |
| `Settings.IsValidUrl` | www/js/index.js:560-567 | a valid URL parses and starts with `http:` or `https:`; nothing that fails to parse is valid |
| `Settings.ValidateSettings` | www/js/index.js:488-497 | a bad URL is refused first, then an interval outside 5..300 seconds; otherwise the form's values are accepted |
| `Settings.AcceptedSaveBounds` | www/js/index.js:494-505 | an accepted save gives a valid URL and a period of 5000 to 300000 ms, and keeps the timeout and retry settings |
| `Settings.Apply` | www/js/index.js:504-505 | applying saved settings changes only the URL and the refresh interval, and an accepted interval gives a period of at least 5000 ms |
| `Settings.LoadedConfig` | www/js/index.js:457-477 | a stored URL is applied exactly when it is present and valid, and a stored interval exactly when it is at least 5 seconds (times 1000); otherwise each field is kept, as are the timeout and retry settings |
| `Settings.SaveThenLoad` | www/js/index.js:499-505 | loading the record a save persisted gives the configuration the save produced |
| `Settings.LoadAcceptsLongIntervals` | www/js/index.js:466-469 | an interval above 300 seconds is refused by a save but applied by a load |
| `History.RoundDiv` | www/js/index.js:328 | the result is `Math.round(n / d)`: the nearest integer, halves rounded up |
| `History.DataTimespan` | www/js/index.js:323-332 | fewer than two readings are insufficient; otherwise the first-minus-last difference in rounded hours h is reported as hours when h < 24, else as round(h / 24) days, which is at least one |
| `History.TimespanAccuracy` | www/js/index.js:328-331 | the reported span is within half an hour of the true difference when given in hours, and within 12.5 hours when given in days |
| `History.Label` | www/js/index.js:324-331 | the text ends in `h` exactly for a span in hours and in `j` exactly for a span in days |
| `Decimal.IntToStringRoundTrip` | www/js/index.js:330-331 | the decimal text of every integer reads back as that integer (`ParseInt` exists only for this lemma; the source never parses the text) |
| `History.LabelRoundTrip` | www/js/index.js:324-331 | every timespan's text (`Données insuffisantes`, `<h>h`, `<d>j`) reads back as that timespan, so different spans give different texts (`ParseLabel` exists only for this lemma; the source never parses a label) |
| `History.HistoryList` | www/js/index.js:337-364 | a non-array gives the error entry; otherwise the header reports n, the first min(n, 20) items are shown, and a "load more" entry for the rest appears exactly when n > 20 |
| `History.HistoryRenderThrows` | www/js/index.js:288-364 | drawing the chart and list of a non-empty array throws when `this.sensors` does not resolve the sensor name or the first or last reading is `null`; it never throws on an empty array or a non-array, nor for a resolved name (one of the four sensors or a member inherited from `Object.prototype`, such as `toString`) whose readings are all objects |
| `App.IoTSensorApp.AtMostOneInterval` | www/js/index.js:585-598 | under the class invariant at most one interval is live, and it is the one `state.autoRefresh` names |
| `App.IoTSensorApp.constructor` | www/js/index.js:7-43 | the defaults, then `loadSettings` on the stored record, then one interval at the loaded period; the cache is empty |
| `App.IoTSensorApp.LoadSettings` | www/js/index.js:457-477 | the configuration becomes the stored settings applied to it |
| `App.IoTSensorApp.ApiRequest` | www/js/index.js:100-151 | the loop returns, waits and caches as the request function specifies, within maxRetries+1 attempts on the linear schedule, and keeps the invariant |
| `App.IoTSensorApp.HandleOfflineMode` | www/js/index.js:572-580 | when a `dashboard_status` entry is cached its readings are shown, with no test of its age; without an entry nothing is shown |
| `App.IoTSensorApp.LoadDashboardData` | www/js/index.js:163-181 | online with the reply's readings on success; offline with the cached readings on failure, which then come from a stale entry |
| `App.IoTSensorApp.LoadHistoryData` | www/js/index.js:259-283 | requests under `history_<sensor>_<limit>` and unwraps the reply; the list's counts when the request succeeds and drawing does not throw, nothing (the error entries) when the request fails or drawing throws |
| `App.IoTSensorApp.LoadStatsData` | www/js/index.js:372-393 | requests under `stats_<hours>` and unwraps the reply; nothing on failure |
| `App.IoTSensorApp.SaveSettings` | www/js/index.js:482-519 | a refused save changes nothing; an accepted one persists the record, installs the URL and period, restarts the single interval at the new period and empties the cache |
| `App.IoTSensorApp.StartAutoRefresh` | www/js/index.js:585-598 | the previous interval is cleared, and exactly one new interval, with a fresh handle, runs at the configured period |
| `App.IoTSensorApp.OnPause` | www/js/index.js:639-643 | no interval is live afterwards |
| `App.IoTSensorApp.OnResume` | www/js/index.js:645-651 | one interval is live again, and exactly one dashboard load is scheduled 1000 ms later |
| `App.IoTSensorApp.FireResumeLoad` | www/js/index.js:648-650 | the earliest scheduled load leaves the pending loads, and the dashboard is loaded as by `loadDashboardData`, whatever page is active |
| `App.IoTSensorApp.Tick` | www/js/index.js:590-597 | a live interval's tick reloads the dashboard (request, online flag, shown readings as in the dashboard load) exactly when it is the active page and the document is visible, and otherwise changes nothing |
| `App.IoTSensorApp.Destroy` | www/js/index.js:781-786 | no interval is live and the cache is empty |

## Left out

- DOM and jQuery rendering are not modelled: HTML building, `.text`/`.html`/`listview`, dialogs, the CSS classes of `showConnectionStatus` (only its `isOnline` flag is kept) and `updateLastSync`. These are presentation. For `displayHistoryList` only the counts are kept.
- The `$.ajax` call is not modelled: its URL (`apiUrl + "/" + endpoint`), method, headers and per-attempt timeout. Each attempt is an oracle outcome, and a timeout is one kind of failed attempt.
- `Date.now()` is an input: the `now` parameter for the lookup, and the clock reading carried by a successful attempt for the stored timestamp.
- The form is read with `$(..).val().trim()` and `parseInt`, which is DOM input. `SaveSettings` takes the trimmed URL and an integer interval. The `parseInt` NaN case, which passes the range test at line 494, is not reproduced.
- `new URL(s)` is a platform call; whether it throws is the `urlParses`/`parses` parameter.
- `JSON.parse` of the stored settings and `localStorage` failures are host behaviour. A missing or unparsable `iot-settings` entry is `None`. Stored fields are typed, so a hand-edited non-integer interval is not modelled.
- `History.DataTimespan` takes the readings' timestamps in milliseconds, because `new Date(datetime)` parsing is a library call. The hours are the exact rounding of `diff / 3600000`; in JavaScript the quotient is a floating-point number, and for integer differences below 2^53 ms `Math.round` of that quotient equals the exact rounding.
- `formatTime`, `formatDateTime`, `calculateAverageFrequency`, `toFixed`, `displayStats`, `displayHistoryChart` and `updateSensorDisplay` are locale or floating-point formatting.
- `testConnection` is I/O against a typed URL with only trivial classification.
- Host timers are abstract. `intervals` is the table of live intervals, `nextHandle` the next handle, and `pendingLoads` the scheduled one-shot loads. When the host fires a pending load, that is `FireResumeLoad`.
- Concurrency is left out. Overlapping requests, Cordova and visibility event wiring (`setupCordovaEvents`, `bindEvents`, `onDeviceReady`) and the filter handlers are host plumbing. Each handler is a plain method call, and the selected sensor and period are parameters of `LoadHistoryData` and `LoadStatsData`.
- App.IoTSensorApp.LoadHistoryData: the chart's and list's rendering is reduced to whether it throws (`History.HistoryRenderThrows`: a `null` reading where one is read, or a sensor name that `this.sensors` does not resolve, either as one of its own four keys or as a member inherited from `Object.prototype`); a reading that is a number, string or array renders `undefined` without throwing and is not distinguished.
- App.IoTSensorApp.constructor: the first `loadDashboardData` of `init()` is not part of the constructor. It completes asynchronously after construction and needs the network oracle, so it is the caller's first `LoadDashboardData` call.
- JSON numbers are reals. `JSON.parse` can yield `Infinity` for a literal such as `1e400`; the model has no infinite number, which is harmless because only truthiness is read from numbers.
