/**
 * The configuration record, the URL check `isValidUrl`, the validation done by
 * `saveSettings`, and the way `loadSettings` applies the persisted
 * `iot-settings` record.
 */
module Settings {
  import opened Common

  /** `this.config`. Intervals, timeouts and delays are in milliseconds. */
  datatype Config = Config(apiUrl: string, refreshInterval: int, requestTimeout: int,
                           maxRetries: nat, retryDelay: nat)

  const DefaultConfig: Config :=
    Config("https://api-sensor-ucad.onrender.com/api", 30000, 10000, 3, 2000)

  /** Bounds, in seconds, that `saveSettings` puts on the refresh interval. */
  const MinRefreshSeconds: int := 5
  const MaxRefreshSeconds: int := 300

  predicate StartsWith(s: string, prefix: string) {
    |prefix| <= |s| && s[..|prefix|] == prefix
  }

  /**
   * `isValidUrl`: `new URL(s)` must not throw (`parses`, the verdict of the
   * platform's URL parser) and the text must begin with `http://` or `https://`,
   * in lower case.
   */
  predicate IsValidUrl(s: string, parses: bool)
    ensures IsValidUrl(s, parses) ==> parses && |s| >= 7 && s[..4] == "http" && (s[4] == ':' || s[4..6] == "s:")
    ensures !parses ==> !IsValidUrl(s, parses)
  {
    parses && (StartsWith(s, "http://") || StartsWith(s, "https://"))
  }

  /** The characters before the first ':' (the whole text when there is none). */
  function Scheme(s: string): (r: string)
    ensures |r| <= |s| && r == s[..|r|] && ':' !in r
    ensures |r| < |s| ==> s[|r|] == ':'
  {
    if s == [] || s[0] == ':' then [] else [s[0]] + Scheme(s[1..])
  }

  /** The scheme of `p + rest` is `p` when `p` holds no ':' and `rest` is empty or starts with one. */
  lemma {:induction false} SchemeOfPrefix(p: string, rest: string)
    requires ':' !in p
    requires rest == [] || rest[0] == ':'
    ensures Scheme(p + rest) == p
  {
    if p != [] {
      assert (p + rest)[1..] == p[1..] + rest;
      SchemeOfPrefix(p[1..], rest);
    } else {
      assert p + rest == rest;
    }
  }

  lemma PrefixSplit(s: string, a: string, b: string)
    requires StartsWith(s, a + b)
    ensures StartsWith(s, a) && StartsWith(s[|a|..], b)
  {
    assert s[..|a|] == (a + b)[..|a|] == a;
    assert s[|a|..][..|b|] == s[..|a| + |b|][|a|..] == b;
  }

  lemma PrefixJoin(s: string, a: string, b: string)
    requires StartsWith(s, a) && StartsWith(s[|a|..], b)
    ensures StartsWith(s, a + b)
  {
    assert s[..|a| + |b|] == s[..|a|] + s[|a|..][..|b|];
  }

  /** A text starting with `p + "://"`, where `p` holds no ':', has scheme `p`. */
  lemma SchemeBeforeSeparator(s: string, p: string)
    requires ':' !in p && StartsWith(s, p + "://")
    ensures Scheme(s) == p && StartsWith(s[|p|..], "://")
  {
    PrefixSplit(s, p, "://");
    assert s[|p|..][0] == ':';
    assert s == p + s[|p|..];
    SchemeOfPrefix(p, s[|p|..]);
  }

  /**
   * An independent reading of `isValidUrl`: the URL parses, its scheme is
   * exactly `http` or `https`, and the scheme is followed by `://`. So
   * `ftp://x` and `HTTP://x` are both refused, whatever the parser says.
   */
  lemma ValidUrlBySchemeName(s: string, parses: bool)
    ensures IsValidUrl(s, parses) <==>
      parses && (Scheme(s) == "http" || Scheme(s) == "https") && StartsWith(s[|Scheme(s)|..], "://")
  {
    assert "http" + "://" == "http://" && "https" + "://" == "https://";
    var sc := Scheme(s);
    if StartsWith(s, "http://") {
      SchemeBeforeSeparator(s, "http");
    } else if StartsWith(s, "https://") {
      SchemeBeforeSeparator(s, "https");
    } else if (sc == "http" || sc == "https") && StartsWith(s[|sc|..], "://") {
      PrefixJoin(s, sc, "://");
      assert false;
    }
  }

  datatype ValidationError = InvalidUrl | IntervalOutOfRange

  /** The record `saveSettings` persists: the refresh interval is in seconds. */
  datatype SavedSettings = SavedSettings(apiUrl: string, refreshInterval: int, notifications: bool)

  /**
   * The checks of `saveSettings`, in its order: the URL first, then the
   * interval, which must lie in 5..300 seconds.
   */
  function ValidateSettings(apiUrl: string, refreshInterval: int, notifications: bool, parses: bool)
    : (r: Result<SavedSettings, ValidationError>)
    ensures r == Err(InvalidUrl) <==> !IsValidUrl(apiUrl, parses)
    ensures r == Err(IntervalOutOfRange) <==>
      IsValidUrl(apiUrl, parses) && !(MinRefreshSeconds <= refreshInterval <= MaxRefreshSeconds)
    ensures r.Ok? ==> r.value == SavedSettings(apiUrl, refreshInterval, notifications)
  {
    if !IsValidUrl(apiUrl, parses) then Err(InvalidUrl)
    else if refreshInterval < MinRefreshSeconds || refreshInterval > MaxRefreshSeconds then Err(IntervalOutOfRange)
    else Ok(SavedSettings(apiUrl, refreshInterval, notifications))
  }

  /** The configuration after an accepted save: new URL, interval converted to milliseconds. */
  function Apply(config: Config, saved: SavedSettings): (c: Config)
    ensures c.(apiUrl := config.apiUrl, refreshInterval := config.refreshInterval) == config
    ensures IsValidUrl(saved.apiUrl, true) ==> IsValidUrl(c.apiUrl, true)
    ensures saved.refreshInterval >= MinRefreshSeconds ==> c.refreshInterval >= 5000
  {
    config.(apiUrl := saved.apiUrl, refreshInterval := saved.refreshInterval * 1000)
  }

  /** An accepted save yields a refresh interval between 5 and 300 seconds and keeps the retry settings. */
  lemma AcceptedSaveBounds(config: Config, apiUrl: string, refreshInterval: int, notifications: bool, parses: bool)
    requires ValidateSettings(apiUrl, refreshInterval, notifications, parses).Ok?
    ensures var c := Apply(config, ValidateSettings(apiUrl, refreshInterval, notifications, parses).value);
      && 5000 <= c.refreshInterval <= 300000
      && c.apiUrl == apiUrl && IsValidUrl(c.apiUrl, parses)
      && c.maxRetries == config.maxRetries && c.retryDelay == config.retryDelay
      && c.requestTimeout == config.requestTimeout
  {
  }

  /**
   * The parsed `iot-settings` record as `loadSettings` finds it; a field the
   * record lacks is None.
   */
  datatype StoredSettings = StoredSettings(apiUrl: Option<string>, refreshInterval: Option<int>,
                                           notifications: Option<bool>)

  /** The record `saveSettings` writes to storage. */
  function ToStored(saved: SavedSettings): StoredSettings {
    StoredSettings(Some(saved.apiUrl), Some(saved.refreshInterval), Some(saved.notifications))
  }

  /**
   * `loadSettings`: a stored URL replaces the configured one when it is valid; a
   * stored interval of at least 5 seconds replaces the configured one (no upper
   * bound is checked here). Missing storage, or storage that does not parse as
   * JSON, changes nothing.
   */
  function LoadedConfig(config: Config, stored: Option<StoredSettings>, parses: bool): (c: Config)
    ensures c.maxRetries == config.maxRetries && c.retryDelay == config.retryDelay
    ensures c.requestTimeout == config.requestTimeout
    ensures stored.Some? && stored.value.apiUrl.Some? && IsValidUrl(stored.value.apiUrl.value, parses)
      ==> c.apiUrl == stored.value.apiUrl.value
    ensures !(stored.Some? && stored.value.apiUrl.Some? && IsValidUrl(stored.value.apiUrl.value, parses))
      ==> c.apiUrl == config.apiUrl
    ensures stored.Some? && stored.value.refreshInterval.Some? && stored.value.refreshInterval.value >= MinRefreshSeconds
      ==> c.refreshInterval == stored.value.refreshInterval.value * 1000
    ensures !(stored.Some? && stored.value.refreshInterval.Some? && stored.value.refreshInterval.value >= MinRefreshSeconds)
      ==> c.refreshInterval == config.refreshInterval
  {
    if stored.None? then config
    else
      var s := stored.value;
      var withUrl :=
        if s.apiUrl.Some? && s.apiUrl.value != "" && IsValidUrl(s.apiUrl.value, parses)
        then config.(apiUrl := s.apiUrl.value) else config;
      if s.refreshInterval.Some? && s.refreshInterval.value != 0 && s.refreshInterval.value >= MinRefreshSeconds
      then withUrl.(refreshInterval := s.refreshInterval.value * 1000)
      else withUrl
  }

  /**
   * What a save persists, a later load restores: loading the stored record into
   * any configuration gives the configuration the save itself produced.
   */
  lemma SaveThenLoad(config: Config, other: Config, apiUrl: string, refreshInterval: int,
                     notifications: bool, parses: bool)
    requires ValidateSettings(apiUrl, refreshInterval, notifications, parses).Ok?
    requires other.requestTimeout == config.requestTimeout
    requires other.maxRetries == config.maxRetries && other.retryDelay == config.retryDelay
    ensures var saved := ValidateSettings(apiUrl, refreshInterval, notifications, parses).value;
      LoadedConfig(other, Some(ToStored(saved)), parses) == Apply(config, saved)
  {
  }

  /**
   * Loading is more lenient than saving: a stored interval above 300 seconds,
   * which a save refuses, is taken as it is.
   */
  lemma LoadAcceptsLongIntervals(config: Config, apiUrl: string, seconds: int, parses: bool)
    requires seconds > MaxRefreshSeconds
    ensures ValidateSettings(apiUrl, seconds, false, parses).Err?
    ensures LoadedConfig(config, Some(StoredSettings(None, Some(seconds), None)), parses).refreshInterval == seconds * 1000
  {
  }
}
