/**
 * Decoded JSON replies of the sensor API, JavaScript truthiness, and the
 * `{success, data}` envelope that `updateDashboard`, `loadHistoryData` and
 * `loadStatsData` each strip before using a reply.
 */
module Json {
  import opened Common

  /** A JSON value as jQuery hands it to the application after decoding. */
  datatype Json =
    | JNull
    | JBool(b: bool)
    | JNum(n: real)
    | JStr(s: string)
    | JArr(items: seq<Json>)
    | JObj(fields: map<string, Json>)

  /** JavaScript's truthiness of a decoded value: null, false, 0 and "" are falsy. */
  predicate Truthy(v: Json)
    ensures Truthy(v) <==> v != JNull && v != JBool(false) && v != JNum(0.0) && v != JStr("")
  {
    match v
    case JNull => false
    case JBool(b) => b
    case JNum(n) => n != 0.0
    case JStr(s) => s != ""
    case JArr(_) => true
    case JObj(_) => true
  }

  /**
   * `v.key` for the keys the application reads (`success`, `data`,
   * `latest_readings`): only an object holding the key has it, on anything else
   * the property is `undefined` (None).
   */
  function Get(v: Json, key: string): (r: Option<Json>)
    ensures r.Some? <==> v.JObj? && key in v.fields
    ensures r.Some? ==> r.value == v.fields[key]
  {
    if v.JObj? && key in v.fields then Some(v.fields[key]) else None
  }

  /** `v.key` is truthy (an undefined property is falsy). */
  predicate HasTruthy(v: Json, key: string) {
    Get(v, key).Some? && Truthy(Get(v, key).value)
  }

  /** `response && response.success && response.data`. */
  predicate IsEnvelope(response: Json)
    ensures IsEnvelope(response) ==>
      response.JObj? && "success" in response.fields && "data" in response.fields
      && Truthy(response.fields["success"]) && Truthy(response.fields["data"])
  {
    Truthy(response) && HasTruthy(response, "success") && HasTruthy(response, "data")
  }

  /**
   * The payload a reply carries: `response.data` for an envelope, the reply
   * itself otherwise. Unwrapping never turns a truthy reply into a falsy payload,
   * and the payload is either the reply or its `data` member.
   */
  function Unwrap(response: Json): (payload: Json)
    ensures Truthy(response) ==> Truthy(payload)
    ensures payload == response || Get(response, "data") == Some(payload)
  {
    if IsEnvelope(response) then Get(response, "data").value else response
  }

  /** The envelope the server wraps a payload in. */
  function Envelope(payload: Json): Json {
    JObj(map["success" := JBool(true), "data" := payload])
  }

  /** A reply is changed by unwrapping exactly when it is an envelope. */
  lemma UnwrapChangesExactlyEnvelopes(response: Json)
    ensures Unwrap(response) != response <==> IsEnvelope(response)
  {
    if IsEnvelope(response) {
      var d := response.fields["data"];
      assert d in response.fields.Values;
      assert d < response;
    }
  }

  /**
   * Wrapping and unwrapping give the payload back exactly when the payload is
   * truthy; a falsy payload (0, "", false, null) is left inside its envelope.
   */
  lemma EnvelopeRoundTrip(payload: Json)
    ensures Unwrap(Envelope(payload)) == payload <==> Truthy(payload)
  {
    var e := Envelope(payload);
    assert Get(e, "success") == Some(JBool(true));
    assert Get(e, "data") == Some(payload);
    UnwrapChangesExactlyEnvelopes(e);
  }

  /**
   * What `updateDashboard` displays: the `latest_readings` member of the
   * unwrapped reply, or None when the payload is falsy or lacks it.
   */
  function DashboardReadings(response: Json): (r: Option<Json>)
    ensures r.Some? ==> Truthy(r.value) && Get(Unwrap(response), "latest_readings") == r
    ensures r.None? ==> !HasTruthy(Unwrap(response), "latest_readings")
  {
    var data := Unwrap(response);
    if Truthy(data) && HasTruthy(data, "latest_readings") then Get(data, "latest_readings") else None
  }
}
