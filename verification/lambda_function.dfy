/** The serverless entry point: read the credentials from the environment,
    fetch one reading, forward it to ThingSpeak and report the outcome as a
    status code and a message. The environment is a map from variable names
    to values; the clock, the nonce and both HTTP outcomes are inputs. */
module LambdaFunction {
  import opened Encoding
  import opened Json
  import opened Http
  import opened Crypto
  import opened SwitchBotSensor

  const ThingSpeakUrl: string := "https://api.thingspeak.com/update"

  /** The variables read from `os.environ`, in the order they are read. */
  const EnvNames: seq<string> := ["SWITCHBOT_TOKEN", "SWITCHBOT_SECRET", "SWITCHBOT_DEVICE_ID", "THINGSPEAK_API_KEY"]

  /** One call of `send_data_to_thingspeak`: the request sent and the
      boolean returned. */
  datatype Forwarding = Forwarding(request: Request, ok: bool)

  /** The decoded `body` of the handler's result: a message, and the reading
      under `data` on success. */
  datatype ResultBody = ResultBody(message: string, data: Option<map<string, JVal>>)

  datatype HandlerResult = HandlerResult(statusCode: int, body: ResultBody)

  /** One invocation: the requests it sent, in order, and what it returned. */
  datatype Invocation = Invocation(requests: seq<Request>, result: HandlerResult)

  /** The query parameters of the forwarding request. */
  function Payload(apiKey: string, data: Reading): (m: map<string, JVal>)
    ensures m.Keys == {"api_key", "field1", "field2", "field3"}
    ensures m["api_key"] == JStr(apiKey)
    ensures m["field1"] == data.temperature && m["field2"] == data.humidity && m["field3"] == data.co2
  {
    map["api_key" := JStr(apiKey),
        "field1" := data.temperature,
        "field2" := data.humidity,
        "field3" := data.co2]
  }

  /** `send_data_to_thingspeak`: `True` exactly when the GET completed without
      an error status; a raised call or an error status gives `False`, and
      nothing escapes. */
  function SendDataToThingSpeak(apiKey: string, data: Reading, resp: Transport): (f: Forwarding)
    ensures f.ok <==> resp.Response? && !(400 <= resp.status < 600)
    ensures f.request.url == ThingSpeakUrl && f.request.headers == map[]
    ensures f.request.params == Payload(apiKey, data)
  {
    var request := Request(ThingSpeakUrl, map[], Payload(apiKey, data));
    match resp
    case Raised => Forwarding(request, false)
    case Response(status, _) => Forwarding(request, !RaisesForStatus(status))
  }

  /** `str(KeyError(name))` for one of the variable names the handler reads:
      the key in single quotes. (Python writes the key's `repr`, which for
      other names may use double quotes or escapes.) */
  function KeyErrorText(name: string): (text: string)
    requires name in EnvNames
    ensures |text| == |name| + 2
    ensures text[0] == '\'' && text[|text| - 1] == '\''
    ensures text[1..|text| - 1] == name
  {
    "'" + name + "'"
  }

  /** The first of `names` missing from `env`: the lookup that raises. */
  function FirstMissing(env: map<string, string>, names: seq<string>): (r: Option<string>)
    ensures r.None? <==> forall i :: 0 <= i < |names| ==> names[i] in env
    ensures r.Some? ==> exists k :: 0 <= k < |names| && names[k] == r.value && r.value !in env
                          && forall i :: 0 <= i < k ==> names[i] in env
  {
    if names == [] then None
    else if names[0] !in env then Some(names[0])
    else
      var r := FirstMissing(env, names[1..]);
      if r.Some? then
        var k :| 0 <= k < |names| - 1 && names[1..][k] == r.value && r.value !in env
                 && forall i :: 0 <= i < k ==> names[1..][i] in env;
        assert names[k + 1] == r.value;
        r
      else r
  }

  /** Every variable the handler reads is set. */
  predicate AllSet(env: map<string, string>) {
    "SWITCHBOT_TOKEN" in env && "SWITCHBOT_SECRET" in env
    && "SWITCHBOT_DEVICE_ID" in env && "THINGSPEAK_API_KEY" in env
  }

  lemma AllSetIffNoneMissing(env: map<string, string>)
    ensures AllSet(env) <==> FirstMissing(env, EnvNames).None?
  {
    if AllSet(env) {
      assert forall i :: 0 <= i < |EnvNames| ==> EnvNames[i] in env;
    } else {
      assert !(EnvNames[0] in env && EnvNames[1] in env && EnvNames[2] in env && EnvNames[3] in env);
    }
  }

  function Failure(message: string): HandlerResult
  {
    HandlerResult(500, ResultBody(message, None))
  }

  /** `lambda_handler`. */
  function LambdaHandler(env: map<string, string>, p: Primitives, millis: nat, nonce: string,
                         sensorResp: Transport, forwardResp: Transport): (inv: Invocation)
    ensures inv.result.statusCode == 200 || inv.result.statusCode == 500
  {
    match FirstMissing(env, EnvNames)
    case Some(name) =>
      Invocation([], Failure("Error: " + KeyErrorText(name)))
    case None =>
      assert EnvNames[0] in env && EnvNames[1] in env && EnvNames[2] in env && EnvNames[3] in env;
      var sensor := NewSensor(env["SWITCHBOT_TOKEN"], env["SWITCHBOT_SECRET"], env["SWITCHBOT_DEVICE_ID"]);
      var fetch := GetData(sensor, p, millis, nonce, sensorResp);
      if !Truthy(fetch.reading) then
        Invocation([fetch.request], Failure("Failed to get sensor data"))
      else
        var data := fetch.reading.value;
        var fwd := SendDataToThingSpeak(env["THINGSPEAK_API_KEY"], data, forwardResp);
        if fwd.ok then
          Invocation([fetch.request, fwd.request], HandlerResult(200, ResultBody("Success", Some(AsDict(data)))))
        else
          Invocation([fetch.request, fwd.request], Failure("Failed to send data to ThingSpeak"))
  }

  // ---------------------------------------------------------------------------
  // Properties
  // ---------------------------------------------------------------------------

  /** The forwarding parameters are the API key and the three readings under
      `field1`, `field2` and `field3`, and nothing else. */
  lemma PayloadFields(apiKey: string, data: Reading)
    ensures var m := Payload(apiKey, data);
      && m.Keys == {"api_key", "field1", "field2", "field3"}
      && m["api_key"] == JStr(apiKey)
      && m["field1"] == AsDict(data)["temperature"]
      && m["field2"] == AsDict(data)["humidity"]
      && m["field3"] == AsDict(data)["co2"]
  {
  }

  /** 200 is returned exactly when every variable is set, the reading was
      obtained and forwarding succeeded; then the message is `Success`, the
      reading travels under `data`, and the second request sent carried the
      reading to ThingSpeak. */
  lemma SuccessIffBothSucceed(env: map<string, string>, p: Primitives, millis: nat, nonce: string,
                              sensorResp: Transport, forwardResp: Transport)
    ensures var inv := LambdaHandler(env, p, millis, nonce, sensorResp, forwardResp);
      && (inv.result.statusCode == 200 <==>
            AllSet(env) && Interpret(sensorResp).Some? && Completed(forwardResp))
      && (inv.result.statusCode == 200 ==>
            && inv.result.body == ResultBody("Success", Some(AsDict(Interpret(sensorResp).value)))
            && |inv.requests| == 2
            && inv.requests[1]
               == Request(ThingSpeakUrl, map[], Payload(env["THINGSPEAK_API_KEY"], Interpret(sensorResp).value)))
  {
    AllSetIffNoneMissing(env);
    if FirstMissing(env, EnvNames).None? {
      TruthyIffSome(Interpret(sensorResp));
    }
  }

  /** A missing variable stops the handler before any request with 500 and
      `Error: '<NAME>'`, naming the first missing one in reading order. */
  lemma MissingVariable(env: map<string, string>, p: Primitives, millis: nat, nonce: string,
                        sensorResp: Transport, forwardResp: Transport)
    requires !AllSet(env)
    ensures var inv := LambdaHandler(env, p, millis, nonce, sensorResp, forwardResp);
      var missing := FirstMissing(env, EnvNames);
      && missing.Some? && missing.value !in env
      && inv == Invocation([], Failure("Error: '" + missing.value + "'"))
  {
    AllSetIffNoneMissing(env);
    var missing := FirstMissing(env, EnvNames);
    assert "Error: " + KeyErrorText(missing.value) == "Error: '" + missing.value + "'";
    assert LambdaHandler(env, p, millis, nonce, sensorResp, forwardResp)
        == Invocation([], Failure("Error: " + KeyErrorText(missing.value)));
  }

  /** When the reading cannot be obtained the handler answers 500
      `Failed to get sensor data` and the forwarder is never called: the
      status request is the only one sent. */
  lemma FetchFailureSkipsForwarder(env: map<string, string>, p: Primitives, millis: nat, nonce: string,
                                   sensorResp: Transport, forwardResp: Transport)
    requires AllSet(env)
    requires Interpret(sensorResp).None?
    ensures var inv := LambdaHandler(env, p, millis, nonce, sensorResp, forwardResp);
      && inv.result == Failure("Failed to get sensor data")
      && |inv.requests| == 1
      && inv.requests[0].url == BaseUrl + "/devices/" + env["SWITCHBOT_DEVICE_ID"] + "/status"
  {
    AllSetIffNoneMissing(env);
  }

  /** A failed forward answers 500 `Failed to send data to ThingSpeak` after
      sending both requests, the second to ThingSpeak with the reading. */
  lemma ForwardFailure(env: map<string, string>, p: Primitives, millis: nat, nonce: string,
                       sensorResp: Transport, forwardResp: Transport)
    requires AllSet(env)
    requires Interpret(sensorResp).Some? && !Completed(forwardResp)
    ensures var inv := LambdaHandler(env, p, millis, nonce, sensorResp, forwardResp);
      && inv.result == Failure("Failed to send data to ThingSpeak")
      && |inv.requests| == 2
      && inv.requests[1] == Request(ThingSpeakUrl, map[], Payload(env["THINGSPEAK_API_KEY"], Interpret(sensorResp).value))
  {
    AllSetIffNoneMissing(env);
    TruthyIffSome(Interpret(sensorResp));
  }

  /** A complete run: a status-100 answer with `CO2` and a 200 from
      ThingSpeak give 200 `Success`, and the reading is forwarded as
      `field1`, `field2` and `field3`. */
  lemma EndToEndScenario(p: Primitives, millis: nat, nonce: string)
    ensures var env := map["SWITCHBOT_TOKEN" := "T", "SWITCHBOT_SECRET" := "S",
                           "SWITCHBOT_DEVICE_ID" := "D", "THINGSPEAK_API_KEY" := "K"];
      var body := JObj(map["temperature" := JNum(22.1), "humidity" := JNum(55.0), "CO2" := JNum(410.0)]);
      var sensorResp := Response(200, Some(JObj(map["statusCode" := JNum(100.0), "body" := body])));
      var inv := LambdaHandler(env, p, millis, nonce, sensorResp, Response(200, None));
      && inv.result.statusCode == 200
      && inv.result.body.message == "Success"
      && |inv.requests| == 2
      && inv.requests[1].params
         == map["api_key" := JStr("K"), "field1" := JNum(22.1), "field2" := JNum(55.0), "field3" := JNum(410.0)]
  {
    var env := map["SWITCHBOT_TOKEN" := "T", "SWITCHBOT_SECRET" := "S",
                   "SWITCHBOT_DEVICE_ID" := "D", "THINGSPEAK_API_KEY" := "K"];
    var body := map["temperature" := JNum(22.1), "humidity" := JNum(55.0), "CO2" := JNum(410.0)];
    var sensorResp := Response(200, Some(JObj(map["statusCode" := JNum(100.0), "body" := JObj(body)])));
    var data := Reading(JNum(22.1), JNum(55.0), JNum(410.0));
    assert AllSet(env);
    assert ToReading(body) == data;
    assert Interpret(sensorResp) == Some(data);
    SuccessIffBothSucceed(env, p, millis, nonce, sensorResp, Response(200, None));
    assert Payload("K", data)
        == map["api_key" := JStr("K"), "field1" := JNum(22.1), "field2" := JNum(55.0), "field3" := JNum(410.0)];
  }
}
