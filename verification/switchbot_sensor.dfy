/** The SwitchBot v1.1 client: an immutable record of credentials, the
    signer, the status request it sends and the interpretation of what comes
    back. The clock reading and the random nonce are inputs, and so is the
    outcome of the HTTP call. */
module SwitchBotSensor {
  import opened Encoding
  import opened Json
  import opened Http
  import opened Crypto

  const BaseUrl: string := "https://api.switch-bot.com/v1.1"

  /** The header names the API expects on every signed request. */
  const HeaderNames: set<string> := {"Authorization", "Content-Type", "charset", "t", "sign", "nonce"}

  datatype Sensor = Sensor(token: string, secret: string, deviceId: string, baseUrl: string)

  /** A normalised reading. Each field is what `body.get(...)` gave, so an
      absent key and a key bound to null both arrive as `JNull`. */
  datatype Reading = Reading(temperature: JVal, humidity: JVal, co2: JVal)

  /** One call of `get_data`: the request it sent and what it returned. */
  datatype Fetch = Fetch(request: Request, reading: Option<Reading>)

  /** `SwitchBotSensor(token, secret, device_id)`: the credentials are kept as
      given and the base URL is fixed. */
  function NewSensor(token: string, secret: string, deviceId: string): (s: Sensor)
    ensures s.token == token && s.secret == secret && s.deviceId == deviceId
    ensures s.baseUrl == BaseUrl
  {
    Sensor(token, secret, deviceId, BaseUrl)
  }

  /** `_generate_sign` with the millisecond clock reading and the nonce given.
      The timestamp is rendered in decimal, the key is the secret (never the
      token), and the message is the token, the timestamp and the nonce
      concatenated with no separator. */
  function GenerateSign(s: Sensor, p: Primitives, millis: nat, nonce: string): (r: Signature)
    ensures IsDecimal(r.t) && DecimalValue(r.t) == millis && (r.t[0] == '0' ==> r.t == "0")
    ensures r.nonce == nonce
    ensures r.sign == Sign(p, s.secret, Utf8(s.token) + Utf8(r.t) + Utf8(nonce))
  {
    var t := DecimalString(millis);
    var stringToSign := s.token + t + nonce;
    var sign := p.base64(p.hmacSha256(Utf8(s.secret), Utf8(stringToSign)));
    DecimalRoundTrip(millis);
    Utf8Append(s.token + t, nonce);
    Utf8Append(s.token, t);
    Signature(sign, t, nonce)
  }

  /** `{base_url}/devices/{device_id}/status`: the device id sits between
      two fixed parts and can be read back from the URL. */
  function StatusUrl(s: Sensor): (u: string)
    ensures |u| == |s.baseUrl| + |s.deviceId| + 16
    ensures u[..|s.baseUrl|] == s.baseUrl
    ensures u[|s.baseUrl|..|s.baseUrl| + 9] == "/devices/"
    ensures u[|s.baseUrl| + 9..|u| - 7] == s.deviceId
    ensures u[|u| - 7..] == "/status"
  {
    s.baseUrl + "/devices/" + s.deviceId + "/status"
  }

  /** The six headers of a signed request. */
  function Headers(token: string, sig: Signature): (h: map<string, string>)
    ensures h.Keys == HeaderNames
    ensures h["Authorization"] == "Bearer " + token
    ensures h["Content-Type"] == "application/json" && h["charset"] == "utf8"
    ensures h["t"] == sig.t && h["sign"] == sig.sign && h["nonce"] == sig.nonce
  {
    map["Authorization" := "Bearer " + token,
        "Content-Type" := "application/json",
        "charset" := "utf8",
        "t" := sig.t,
        "sign" := sig.sign,
        "nonce" := sig.nonce]
  }

  /** The value for key `co2` of the reading:
      `body.get('CO2', body.get('co2', body.get('carbonDioxide')))`.
      Lookup is by presence, so a `CO2` key bound to null wins over a
      numeric `co2`. */
  function ResolveCo2(body: map<string, JVal>): (v: JVal)
    ensures "CO2" in body ==> v == body["CO2"]
    ensures "CO2" !in body && "co2" in body ==> v == body["co2"]
    ensures "CO2" !in body && "co2" !in body && "carbonDioxide" in body ==> v == body["carbonDioxide"]
    ensures "CO2" !in body && "co2" !in body && "carbonDioxide" !in body ==> v == JNull
  {
    GetOr(body, "CO2", GetOr(body, "co2", Get(body, "carbonDioxide")))
  }

  /** The dictionary built from a successful response body: temperature and
      humidity copied when present and null when absent, CO2 resolved by
      presence. */
  function ToReading(body: map<string, JVal>): (r: Reading)
    ensures "temperature" in body ==> r.temperature == body["temperature"]
    ensures "temperature" !in body ==> r.temperature == JNull
    ensures "humidity" in body ==> r.humidity == body["humidity"]
    ensures "humidity" !in body ==> r.humidity == JNull
    ensures "CO2" in body ==> r.co2 == body["CO2"]
    ensures "CO2" !in body && "co2" in body ==> r.co2 == body["co2"]
    ensures "CO2" !in body && "co2" !in body && "carbonDioxide" in body ==> r.co2 == body["carbonDioxide"]
    ensures "CO2" !in body && "co2" !in body && "carbonDioxide" !in body ==> r.co2 == JNull
  {
    Reading(Get(body, "temperature"), Get(body, "humidity"), ResolveCo2(body))
  }

  /** The reading as the Python dictionary `get_data` returns. */
  function AsDict(r: Reading): (d: map<string, JVal>)
    ensures d.Keys == {"temperature", "humidity", "co2"}
    ensures d["temperature"] == r.temperature && d["humidity"] == r.humidity && d["co2"] == r.co2
  {
    map["temperature" := r.temperature, "humidity" := r.humidity, "co2" := r.co2]
  }

  /** Python truthiness of what `get_data` returned: `None` is false, a
      dictionary is true when it has a key. */
  predicate Truthy(data: Option<Reading>) {
    data.Some? && |AsDict(data.value)| > 0
  }

  /** The envelope of a successful answer: an object whose `statusCode` is
      100 and whose `body` is an object. */
  predicate IsSuccessEnvelope(data: JVal) {
    && data.JObj?
    && "statusCode" in data.fields && data.fields["statusCode"] == JNum(100.0)
    && "body" in data.fields && data.fields["body"].JObj?
  }

  /** The response handling of `get_data`, in the order the source takes its
      early exits. Every exception in the `try` block ends as `None`. */
  function Interpret(resp: Transport): (r: Option<Reading>)
    ensures r.Some? <==> Completed(resp) && resp.payload.Some? && IsSuccessEnvelope(resp.payload.value)
    ensures r.Some? ==> r.value == ToReading(resp.payload.value.fields["body"].fields)
  {
    match resp
    case Raised => None                         // requests.get raised
    case Response(status, payload) =>
      if RaisesForStatus(status) then None      // raise_for_status()
      else match payload
        case None => None                       // response.json() raised
        case Some(data) =>
          if !data.JObj? || "statusCode" !in data.fields then None   // data["statusCode"] raised
          else if data.fields["statusCode"] != JNum(100.0) then None // API-level error
          else if "body" !in data.fields then None                   // data["body"] raised
          else match data.fields["body"]
            case JObj(body) => Some(ToReading(body))
            case _ => None                                           // body.get raised
  }

  /** `get_data`: one signed GET of the device status, then `Interpret`. */
  function GetData(s: Sensor, p: Primitives, millis: nat, nonce: string, resp: Transport): (f: Fetch)
    ensures f.reading == Interpret(resp)
  {
    var url := StatusUrl(s);
    var sig := GenerateSign(s, p, millis, nonce);
    Fetch(Request(url, Headers(s.token, sig), map[]), Interpret(resp))
  }

  // ---------------------------------------------------------------------------
  // Properties of the request
  // ---------------------------------------------------------------------------

  /** The status request goes to `{base_url}/devices/{device_id}/status`
      with the six signed headers and no query parameters; `t`, `sign` and
      `nonce` come from a single signing call, so the API can recompute the
      signature from the headers alone. */
  lemma StatusRequestShape(s: Sensor, p: Primitives, millis: nat, nonce: string, resp: Transport)
    ensures var rq := GetData(s, p, millis, nonce, resp).request;
      && rq.url == s.baseUrl + "/devices/" + s.deviceId + "/status"
      && rq.headers.Keys == HeaderNames
      && rq.headers["Authorization"] == "Bearer " + s.token
      && rq.headers["Content-Type"] == "application/json"
      && rq.headers["charset"] == "utf8"
      && rq.headers["nonce"] == nonce
      && IsDecimal(rq.headers["t"]) && DecimalValue(rq.headers["t"]) == millis
      && (rq.headers["t"][0] == '0' ==> rq.headers["t"] == "0")
      && rq.headers["sign"] == Sign(p, s.secret, Utf8(s.token) + Utf8(rq.headers["t"]) + Utf8(rq.headers["nonce"]))
      && rq.params == map[]
  {
  }

  /** The request does not depend on the response: it is fixed before the
      call is made. */
  lemma RequestIndependentOfResponse(s: Sensor, p: Primitives, millis: nat, nonce: string, r1: Transport, r2: Transport)
    ensures GetData(s, p, millis, nonce, r1).request == GetData(s, p, millis, nonce, r2).request
  {
  }

  /** A fresh nonce of the usual fixed length changes the signed message, and
      so does a different timestamp: the UTF-8 bytes handed to the MAC
      determine the timestamp and the nonce. */
  lemma SignedMessageDeterminesTimestampAndNonce(token: string, m1: nat, n1: string, m2: nat, n2: string)
    requires |n1| == |n2|
    requires Utf8(token + DecimalString(m1) + n1) == Utf8(token + DecimalString(m2) + n2)
    ensures m1 == m2 && n1 == n2
  {
    var t1, t2 := DecimalString(m1), DecimalString(m2);
    Utf8Injective(token + t1 + n1, token + t2 + n2);
    SplitThree(token, t1, n1, t2, n2);
    DecimalStringInjective(m1, m2);
  }

  /** With the prefix fixed and the suffixes of equal length, the middle
      and the suffix of a concatenation are determined. */
  lemma SplitThree(x: string, y1: string, z1: string, y2: string, z2: string)
    requires |z1| == |z2| && x + y1 + z1 == x + y2 + z2
    ensures y1 == y2 && z1 == z2
  {
    var w := x + y1 + z1;
    assert w[|x|..|w| - |z1|] == y1;
    assert w[|x|..|w| - |z2|] == y2;
    assert w[|w| - |z1|..] == z1;
    assert w[|w| - |z2|..] == z2;
  }

  // ---------------------------------------------------------------------------
  // Properties of the response handling
  // ---------------------------------------------------------------------------

  /** Each failure the source guards against ends as `None`: the call
      raising, an HTTP error status, a body that is not JSON, a missing
      `statusCode`, a missing or non-object `body`. */
  lemma FailuresGiveNone(resp: Transport)
    requires || resp.Raised?
             || (resp.Response? && RaisesForStatus(resp.status))
             || (resp.Response? && resp.payload.None?)
             || (resp.Response? && resp.payload.Some? && resp.payload.value.JObj?
                 && "statusCode" !in resp.payload.value.fields)
             || (resp.Response? && resp.payload.Some? && resp.payload.value.JObj?
                 && "body" !in resp.payload.value.fields)
    ensures Interpret(resp).None?
  {
  }

  /** A `statusCode` other than 100 gives `None` whatever the body holds. */
  lemma ApiErrorGivesNone(status: int, fields: map<string, JVal>)
    requires "statusCode" in fields && fields["statusCode"] != JNum(100.0)
    ensures Interpret(Response(status, Some(JObj(fields)))).None?
  {
  }

  /** Whatever `get_data` returns is `None` or a non-empty dictionary, so
      callers testing its truthiness are testing for success. */
  lemma TruthyIffSome(data: Option<Reading>)
    ensures Truthy(data) <==> data.Some?
  {
    if data.Some? {
      assert "co2" in AsDict(data.value);
    }
  }
}
