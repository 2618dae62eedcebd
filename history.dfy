/**
 * The counting logic of the history view: the span of time `getDataTimespan`
 * reports for a list of readings, and how many items `displayHistoryList`
 * shows and how many it reports as remaining.
 */
module History {
  import opened Common
  import opened Json
  import opened Decimal

  /** One hour, in milliseconds. */
  const HourMs: int := 1000 * 60 * 60

  /**
   * `Math.round(n / d)` for a positive divisor: the nearest integer, halves
   * rounded up.
   */
  function RoundDiv(n: int, d: int): (r: int)
    requires d > 0
    ensures 2 * d * r - d <= 2 * n < 2 * d * r + d
  {
    (2 * n + d) / (2 * d)
  }

  datatype Timespan = Insufficient | Hours(hours: int) | Days(days: int)

  /**
   * `getDataTimespan` over the readings' timestamps in milliseconds, newest
   * first: the difference between the first and the last, in rounded hours when
   * that is under 24, otherwise in rounded days.
   */
  function DataTimespan(timestamps: seq<int>): (t: Timespan)
    ensures t.Insufficient? <==> |timestamps| < 2
    ensures t.Hours? ==> t.hours < 24 && t.hours == RoundDiv(timestamps[0] - timestamps[|timestamps| - 1], HourMs)
    ensures t.Days? ==>
      && RoundDiv(timestamps[0] - timestamps[|timestamps| - 1], HourMs) >= 24
      && t.days == RoundDiv(RoundDiv(timestamps[0] - timestamps[|timestamps| - 1], HourMs), 24)
      && t.days >= 1
  {
    if |timestamps| < 2 then Insufficient
    else
      var diffHours := RoundDiv(timestamps[0] - timestamps[|timestamps| - 1], HourMs);
      if diffHours < 24 then Hours(diffHours) else Days(RoundDiv(diffHours, 24))
  }

  /**
   * The span reported is close to the true one: within half an hour when given
   * in hours, within twelve and a half hours when given in days.
   */
  lemma TimespanAccuracy(timestamps: seq<int>)
    requires |timestamps| >= 2
    ensures var diff := timestamps[0] - timestamps[|timestamps| - 1];
      match DataTimespan(timestamps)
      case Hours(h) => -HourMs <= 2 * diff - 2 * h * HourMs <= HourMs
      case Days(d) => -25 * HourMs <= 2 * diff - 48 * d * HourMs <= 25 * HourMs
      case Insufficient => false
  {
    var diff := timestamps[0] - timestamps[|timestamps| - 1];
    var h := RoundDiv(diff, HourMs);
    assert 2 * HourMs * h - HourMs <= 2 * diff < 2 * HourMs * h + HourMs;
    if h >= 24 {
      var d := RoundDiv(h, 24);
      assert 48 * d - 24 <= 2 * h < 48 * d + 24;
      assert 2 * diff - 48 * d * HourMs == (2 * diff - 2 * HourMs * h) + HourMs * (2 * h - 48 * d);
    }
  }

  const InsufficientText: string := "Données insuffisantes"

  /** The text `getDataTimespan` returns. */
  function Label(t: Timespan): (s: string)
    ensures |s| >= 2
    ensures t.Hours? <==> s[|s| - 1] == 'h'
    ensures t.Days? <==> s[|s| - 1] == 'j'
  {
    match t
    case Insufficient => InsufficientText
    case Hours(h) => IntToString(h) + "h"
    case Days(d) => IntToString(d) + "j"
  }

  /** Reads a label back; None for a text no timespan produces. */
  function ParseLabel(s: string): Option<Timespan> {
    if s == InsufficientText then Some(Insufficient)
    else if |s| >= 2 && s[|s| - 1] == 'h' && ParseInt(s[..|s| - 1]).Some? then Some(Hours(ParseInt(s[..|s| - 1]).value))
    else if |s| >= 2 && s[|s| - 1] == 'j' && ParseInt(s[..|s| - 1]).Some? then Some(Days(ParseInt(s[..|s| - 1]).value))
    else None
  }

  /** Distinct timespans get distinct labels: each label reads back as its timespan. */
  lemma LabelRoundTrip(t: Timespan)
    ensures ParseLabel(Label(t)) == Some(t)
  {
    match t
    case Insufficient =>
    case Hours(h) =>
      var s := Label(t);
      assert s[|s| - 1] == 'h' && s[..|s| - 1] == IntToString(h);
      IntToStringRoundTrip(h);
    case Days(d) =>
      var s := Label(t);
      assert s[|s| - 1] == 'j' && s[..|s| - 1] == IntToString(d);
      assert s != InsufficientText by { assert InsufficientText[|InsufficientText| - 1] == 's'; }
      IntToStringRoundTrip(d);
  }

  /** The sensors `this.sensors` describes. */
  const KnownSensors: set<string> := {"temperature", "ph", "oxygen", "luminosite"}

  /**
   * The members every object literal inherits from `Object.prototype`: looking
   * one of these up in `this.sensors` gives a function or an object, not
   * `undefined`, so its `label` and `unit` read as `undefined` without throwing.
   */
  const PrototypeNames: set<string> :=
    {"constructor", "hasOwnProperty", "isPrototypeOf", "propertyIsEnumerable",
     "toString", "toLocaleString", "valueOf", "__proto__",
     "__defineGetter__", "__defineSetter__", "__lookupGetter__", "__lookupSetter__"}

  /** Whether `this.sensors[sensor]` is something other than `undefined`. */
  predicate Described(sensor: string)
  {
    sensor in KnownSensors || sensor in PrototypeNames
  }

  /**
   * Whether drawing the chart and then the list throws on a payload: only a
   * non-empty array is read item by item, and reading throws for a sensor name
   * that `this.sensors` does not resolve (its `label` and `unit` are read from
   * `undefined`), for a `null`
   * first reading (the chart's current value), for a `null` among the first
   * `maxItems` readings (the list's values) and for a `null` last reading of two
   * or more (the chart's timespan reads its `datetime`).
   */
  predicate HistoryRenderThrows(data: Json, sensor: string, maxItems: nat)
    ensures HistoryRenderThrows(data, sensor, maxItems) ==> data.JArr? && |data.items| > 0
    ensures data.JArr? && Described(sensor) && (forall i | 0 <= i < |data.items| :: data.items[i].JObj?)
      ==> !HistoryRenderThrows(data, sensor, maxItems)
    ensures data.JArr? && |data.items| > 0 && (!Described(sensor) || data.items[0] == JNull || data.items[|data.items| - 1] == JNull)
      ==> HistoryRenderThrows(data, sensor, maxItems)
  {
    && data.JArr?
    && |data.items| > 0
    && (|| !Described(sensor)
        || data.items[0] == JNull
        || (exists i | 0 <= i < Min(|data.items|, maxItems) :: data.items[i] == JNull)
        || (|data.items| >= 2 && data.items[|data.items| - 1] == JNull))
  }

  /** How many history items `displayHistoryList` renders by default. */
  const MaxItems: nat := 20

  /**
   * The counts of the history list: an error entry when the payload is not an
   * array; otherwise the header's total, the items shown, and the number left
   * for the "load more" entry when there is one.
   */
  datatype HistoryListing = NotAList | Listing(total: nat, shown: seq<Json>, remaining: Option<nat>)

  /**
   * The list shows the first `min(n, maxItems)` readings of the `n` received,
   * reports `n` in its header, and offers the rest exactly when there are more
   * than `maxItems`; shown and remaining always add up to the total.
   */
  function HistoryList(data: Json, maxItems: nat): (l: HistoryListing)
    ensures l.Listing? <==> data.JArr?
    ensures l.Listing? ==>
      && l.total == |data.items|
      && |l.shown| == Min(|data.items|, maxItems)
      && l.shown == data.items[..|l.shown|]
      && (l.remaining.Some? <==> |data.items| > maxItems)
      && (l.remaining.Some? ==> |l.shown| + l.remaining.value == l.total && l.remaining.value > 0)
  {
    if !data.JArr? then NotAList
    else
      var n := |data.items|;
      Listing(n, data.items[..Min(n, maxItems)], if n > maxItems then Some(n - maxItems) else None)
  }
}
