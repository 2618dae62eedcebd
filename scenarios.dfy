/**
 * Client-side scenarios: what a caller of `IoTSensorApp` can conclude from the
 * contracts alone.
 */
module Scenarios {
  import opened Common
  import opened Json
  import opened Retry
  import opened Settings
  import opened History
  import opened App

  /** A status reply in the server's envelope is unwrapped before its readings are shown. */
  method EnvelopedStatusIsShown(now: int) {
    var temperature := JObj(map["ambient" := JNum(21.5), "object" := JNum(20.9),
                                "datetime" := JStr("2024-01-01T00:00:00Z")]);
    var readings := JObj(map["temperature" := temperature]);
    var reply := Envelope(JObj(map["latest_readings" := readings]));
    var app := new IoTSensorApp(None, true);
    var shown := app.LoadDashboardData([Received(reply, now), Failed(Timeout), Failed(Timeout), Failed(Timeout)], now);
    assert Get(reply, "data").Some?;
    assert app.isOnline && shown == Some(readings);
    assert Get(shown.value, "temperature") == Some(temperature);
    assert Get(temperature, "ambient") == Some(JNum(21.5));
  }

  /**
   * With the default configuration a request that keeps failing makes four
   * attempts, waits 2 s, 4 s and 6 s, and throws the last error; a second
   * request within five minutes of a success needs no network at all.
   */
  method RetryThenCache(now: int) {
    var app := new IoTSensorApp(None, true);
    var failing := [Failed(Timeout), Failed(HttpError(503)), Failed(Timeout), Failed(HttpError(502))];
    var r1, d1, n1 := app.ApiRequest(true, Some("k"), failing, now);
    DefaultBackoff(failing);
    assert r1 == Err(HttpError(502)) && d1 == [2000, 4000, 6000] && n1 == 4;

    var reply := JObj(map["latest_readings" := JObj(map[])]);
    var working := [Failed(Timeout), Received(reply, now + 1000), Failed(Abort), Failed(Abort)];
    var r2, d2, n2 := app.ApiRequest(true, Some("k"), working, now);
    FirstSuccessWins(working, 3, 2000, 1);
    assert r2 == Ok(reply) && d2 == [2000] && n2 == 2;

    var r3, d3, n3 := app.ApiRequest(true, Some("k"), failing, now + 200000);
    assert r3 == Ok(reply) && n3 == 0;
  }

  /**
   * The history of a sensor name that `this.sensors` resolves only through
   * `Object.prototype` is still drawn, with one item listed; a `null` first
   * reading makes drawing throw and the error entries are shown instead.
   */
  method HistoryOfInheritedSensorName(now: int) {
    var app := new IoTSensorApp(None, true);
    var readings := JArr([JObj(map["valeur" := JNum(7.0)])]);
    var rest := [Failed(Abort), Failed(Abort), Failed(Abort)];
    var listing := app.LoadHistoryData("toString", 50, [Received(readings, now)] + rest, now);
    assert Unwrap(readings) == readings;
    assert Described("toString") && !HistoryRenderThrows(readings, "toString", MaxItems);
    assert listing.Some? && listing.value == HistoryList(readings, MaxItems);
    assert listing.value.total == 1 && listing.value.remaining == None;

    var broken := JArr([JNull]);
    var failed := app.LoadHistoryData("ph", 50, [Received(broken, now)] + rest, now);
    assert failed == None;
  }

  /** Pausing stops every interval; resuming starts exactly one and schedules one load. */
  method PauseThenResume() {
    var app := new IoTSensorApp(None, true);
    app.OnPause();
    assert app.intervals == map[];
    app.OnResume();
    assert |app.intervals| == 1 && app.pendingLoads == [1000];
  }

  /** A save with a non-HTTP URL is refused and changes nothing; a valid one empties the cache. */
  method SaveSettingsOutcomes(now: int) {
    var app := new IoTSensorApp(None, true);
    var before := app.config;
    assert !IsValidUrl("ftp://x", true) by {
      assert "ftp://x"[..7][0] != "http://"[0];
    }
    var refused := app.SaveSettings("ftp://x", 30, true, true);
    assert refused == Err(InvalidUrl) && app.config == before;
    var accepted := app.SaveSettings("http://10.0.0.2/api", 60, false, true);
    assert accepted.Ok? && app.cache == map[] && app.config.refreshInterval == 60000;
    assert app.intervals == map[app.autoRefresh.value := 60000];
  }
}
