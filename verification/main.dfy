/** The long-running monitor script: one polling cycle (fetch, forward when a
    reading came back, always clean up) and the start-up that runs a cycle
    before registering the periodic schedule. Effects are recorded as an
    event trace on an `Effects` object; the configuration file, the clock,
    the nonce and both HTTP outcomes are inputs. */
module Monitor {
  import opened Encoding
  import opened Json
  import opened Http
  import opened Crypto
  import opened SwitchBotSensor

  datatype Credentials = Credentials(token: string, secret: string, deviceId: string)

  /** What `load_config()` yields, each section present or missing:
      `sensor.switchbot`, `thingspeak.api_key` and
      `sensor.scheduler.interval_minutes`. */
  datatype Config = Config(switchbot: Option<Credentials>, thingspeakKey: Option<string>,
                           intervalMinutes: Option<int>)

  datatype Event =
    | Fetched(request: Request)    // the signed GET of the device status
    | Forwarded(request: Request)  // the GET to ThingSpeak
    | ForwardFailed                // error logged by send_data_to_thingspeak
    | FetchFailed                  // "Failed to get sensor data" logged
    | ErrorCaught                  // an exception caught and logged by the cycle
    | CleanedUp                    // sensor.cleanup()
    | Scheduled(minutes: int)      // the periodic job registered

  /** The ThingSpeak endpoint with the write key in the query string. */
  const ThingSpeakPrefix: string := "https://api.thingspeak.com/update?api_key="

  /** The query parameters of the forwarding request: the readings only. */
  function Payload(data: Reading): (m: map<string, JVal>)
    ensures m.Keys == {"field1", "field2", "field3"}
    ensures m["field1"] == data.temperature && m["field2"] == data.humidity && m["field3"] == data.co2
  {
    map["field1" := data.temperature, "field2" := data.humidity, "field3" := data.co2]
  }

  /** The forwarding request: the key is the tail of the URL, after the
      fixed prefix, and is not among the parameters. */
  function ThingSpeakRequest(apiKey: string, data: Reading): (rq: Request)
    ensures |rq.url| == |ThingSpeakPrefix| + |apiKey|
    ensures rq.url[..|ThingSpeakPrefix|] == ThingSpeakPrefix && rq.url[|ThingSpeakPrefix|..] == apiKey
    ensures "api_key" !in rq.params && rq.headers == map[]
  {
    Request(ThingSpeakPrefix + apiKey, map[], Payload(data))
  }

  /** The events of one `send_data_to_thingspeak` call. */
  function ForwardEvents(apiKey: string, data: Reading, resp: Transport): (ev: seq<Event>)
    ensures 1 <= |ev| <= 2 && ev[0].Forwarded?
    ensures |ev| == 1 <==> Completed(resp)
    ensures |ev| == 2 ==> ev[1] == ForwardFailed
  {
    [Forwarded(ThingSpeakRequest(apiKey, data))] + (if Completed(resp) then [] else [ForwardFailed])
  }

  /** The sensor object gets built: the file was read and the SwitchBot
      section is complete. Everything before that is outside the `try`. */
  predicate SensorBuilt(config: Option<Config>) {
    config.Some? && config.value.switchbot.Some?
  }

  /** The events of one `monitor_and_send` cycle. */
  function CycleEvents(config: Option<Config>, p: Primitives, millis: nat, nonce: string,
                       sensorResp: Transport, forwardResp: Transport): (ev: seq<Event>)
    ensures !SensorBuilt(config) ==> ev == []
    ensures SensorBuilt(config) ==> 3 <= |ev| <= 4 && ev[0].Fetched? && ev[|ev| - 1] == CleanedUp
  {
    if !SensorBuilt(config) then []
    else
      var c := config.value;
      var cr := c.switchbot.value;
      var fetch := GetData(NewSensor(cr.token, cr.secret, cr.deviceId), p, millis, nonce, sensorResp);
      [Fetched(fetch.request)]
      + (if !Truthy(fetch.reading) then [FetchFailed]
         else if c.thingspeakKey.None? then [ErrorCaught]
         else ForwardEvents(c.thingspeakKey.value, fetch.reading.value, forwardResp))
      + [CleanedUp]
  }

  /** Regrouping a trace made of three parts. */
  lemma ConcatAssoc(a: seq<Event>, b: seq<Event>, c: seq<Event>)
    ensures a + (b + c) == a + b + c
  {
  }

  /** The world as the script sees it: everything it has done so far. */
  class Effects {
    var events: seq<Event>

    constructor ()
      ensures events == []
    {
      events := [];
    }
  }

  /** `send_data_to_thingspeak` of the script: one GET, an error logged when
      it fails, nothing raised and nothing returned. */
  method SendDataToThingSpeak(fx: Effects, apiKey: string, data: Reading, resp: Transport)
    modifies fx
    ensures fx.events == old(fx.events) + ForwardEvents(apiKey, data, resp)
  {
    var request := ThingSpeakRequest(apiKey, data);
    fx.events := fx.events + [Forwarded(request)];
    if !Completed(resp) {
      fx.events := fx.events + [ForwardFailed];
    }
  }

  /** `monitor_and_send`. `raised` is whether an exception leaves the cycle,
      which happens only before the sensor is built. */
  method MonitorAndSend(fx: Effects, config: Option<Config>, p: Primitives, millis: nat, nonce: string,
                        sensorResp: Transport, forwardResp: Transport) returns (raised: bool)
    modifies fx
    ensures raised <==> !SensorBuilt(config)
    ensures fx.events == old(fx.events) + CycleEvents(config, p, millis, nonce, sensorResp, forwardResp)
  {
    if config.None? || config.value.switchbot.None? {
      // load_config() or config['sensor']['switchbot'][...] raised
      return true;
    }
    var cr := config.value.switchbot.value;
    var sensor := NewSensor(cr.token, cr.secret, cr.deviceId);
    // try:
    var fetch := GetData(sensor, p, millis, nonce, sensorResp);
    ghost var mid := if !Truthy(fetch.reading) then [FetchFailed]
                     else if config.value.thingspeakKey.None? then [ErrorCaught]
                     else ForwardEvents(config.value.thingspeakKey.value, fetch.reading.value, forwardResp);
    assert CycleEvents(config, p, millis, nonce, sensorResp, forwardResp)
        == [Fetched(fetch.request)] + mid + [CleanedUp];
    fx.events := fx.events + [Fetched(fetch.request)];
    ghost var start := fx.events;
    if Truthy(fetch.reading) {
      if config.value.thingspeakKey.None? {
        // config['thingspeak']['api_key'] raised; caught by the except
        fx.events := fx.events + [ErrorCaught];
      } else {
        SendDataToThingSpeak(fx, config.value.thingspeakKey.value, fetch.reading.value, forwardResp);
      }
    } else {
      fx.events := fx.events + [FetchFailed];
    }
    assert fx.events == start + mid;
    // finally:
    fx.events := fx.events + [CleanedUp];
    ConcatAssoc(start, mid, [CleanedUp]);
    ConcatAssoc(old(fx.events), [Fetched(fetch.request)], mid + [CleanedUp]);
    ConcatAssoc([Fetched(fetch.request)], mid, [CleanedUp]);
    raised := false;
  }

  /** The start-up of `main`: read the configuration, run one cycle, then
      register the periodic job. The loop that follows is not modelled. */
  method StartUp(fx: Effects, config: Option<Config>, p: Primitives, millis: nat, nonce: string,
                 sensorResp: Transport, forwardResp: Transport) returns (raised: bool)
    modifies fx
    ensures raised <==> !SensorBuilt(config) || config.value.intervalMinutes.None?
    ensures fx.events == old(fx.events) + CycleEvents(config, p, millis, nonce, sensorResp, forwardResp)
                         + (if raised then [] else [Scheduled(config.value.intervalMinutes.value)])
  {
    if config.None? {
      // load_config() raised
      return true;
    }
    raised := MonitorAndSend(fx, config, p, millis, nonce, sensorResp, forwardResp);
    if raised {
      return;
    }
    if config.value.intervalMinutes.None? {
      // config['sensor']['scheduler']['interval_minutes'] raised
      return true;
    }
    fx.events := fx.events + [Scheduled(config.value.intervalMinutes.value)];
  }

  // ---------------------------------------------------------------------------
  // Properties of a cycle
  // ---------------------------------------------------------------------------

  function Count(events: seq<Event>, e: Event): (n: nat)
    ensures n <= |events|
  {
    if events == [] then 0
    else (if events[0] == e then 1 else 0) + Count(events[1..], e)
  }

  lemma {:induction false} CountAppend(a: seq<Event>, b: seq<Event>, e: Event)
    ensures Count(a + b, e) == Count(a, e) + Count(b, e)
  {
    if a == [] {
      assert a + b == b;
    } else {
      assert (a + b)[0] == a[0] && (a + b)[1..] == a[1..] + b;
      CountAppend(a[1..], b, e);
    }
  }

  predicate Forwards(events: seq<Event>) {
    exists i :: 0 <= i < |events| && events[i].Forwarded?
  }

  /** Once the sensor is built, `cleanup()` runs exactly once and last,
      whether the reading came back, came back empty or an exception was
      caught; before that nothing runs at all. */
  lemma CleanupExactlyOnce(config: Option<Config>, p: Primitives, millis: nat, nonce: string,
                           sensorResp: Transport, forwardResp: Transport)
    ensures var ev := CycleEvents(config, p, millis, nonce, sensorResp, forwardResp);
      && Count(ev, CleanedUp) == (if SensorBuilt(config) then 1 else 0)
      && (SensorBuilt(config) ==> ev[|ev| - 1] == CleanedUp)
  {
    var ev := CycleEvents(config, p, millis, nonce, sensorResp, forwardResp);
    if SensorBuilt(config) {
      var c := config.value;
      var cr := c.switchbot.value;
      var fetch := GetData(NewSensor(cr.token, cr.secret, cr.deviceId), p, millis, nonce, sensorResp);
      var mid := if !Truthy(fetch.reading) then [FetchFailed]
                 else if c.thingspeakKey.None? then [ErrorCaught]
                 else ForwardEvents(c.thingspeakKey.value, fetch.reading.value, forwardResp);
      assert ev == [Fetched(fetch.request)] + mid + [CleanedUp];
      assert Count(mid, CleanedUp) == 0 by {
        if Truthy(fetch.reading) && c.thingspeakKey.Some? {
          var key, data := c.thingspeakKey.value, fetch.reading.value;
          CountAppend([Forwarded(ThingSpeakRequest(key, data))],
                      if Completed(forwardResp) then [] else [ForwardFailed], CleanedUp);
        }
      }
      CountAppend([Fetched(fetch.request)], mid, CleanedUp);
      CountAppend([Fetched(fetch.request)] + mid, [CleanedUp], CleanedUp);
    }
  }

  /** The forwarder is called exactly when the sensor was built, the reading
      is truthy and the ThingSpeak key could be read; it is then called with
      that key and that reading. */
  lemma ForwardIffTruthy(config: Option<Config>, p: Primitives, millis: nat, nonce: string,
                         sensorResp: Transport, forwardResp: Transport)
    ensures var ev := CycleEvents(config, p, millis, nonce, sensorResp, forwardResp);
      && (Forwards(ev) <==>
            SensorBuilt(config) && Interpret(sensorResp).Some? && config.value.thingspeakKey.Some?)
      && (Forwards(ev) ==>
            ev[1] == Forwarded(ThingSpeakRequest(config.value.thingspeakKey.value, Interpret(sensorResp).value)))
  {
    var ev := CycleEvents(config, p, millis, nonce, sensorResp, forwardResp);
    if SensorBuilt(config) {
      var c := config.value;
      var cr := c.switchbot.value;
      var fetch := GetData(NewSensor(cr.token, cr.secret, cr.deviceId), p, millis, nonce, sensorResp);
      TruthyIffSome(fetch.reading);
      var mid := if !Truthy(fetch.reading) then [FetchFailed]
                 else if c.thingspeakKey.None? then [ErrorCaught]
                 else ForwardEvents(c.thingspeakKey.value, fetch.reading.value, forwardResp);
      assert ev == [Fetched(fetch.request)] + mid + [CleanedUp];
      if fetch.reading.Some? && c.thingspeakKey.Some? {
        assert ev[1] == mid[0] == Forwarded(ThingSpeakRequest(c.thingspeakKey.value, fetch.reading.value));
      } else {
        assert |mid| == 1 && !mid[0].Forwarded?;
        assert ev == [Fetched(fetch.request), mid[0], CleanedUp];
      }
    }
  }

  /** A failed fetch is logged and nothing is forwarded: the cycle is the
      status request, the error and the cleanup. */
  lemma FetchFailureLogged(config: Option<Config>, p: Primitives, millis: nat, nonce: string,
                           sensorResp: Transport, forwardResp: Transport)
    requires SensorBuilt(config) && Interpret(sensorResp).None?
    ensures var ev := CycleEvents(config, p, millis, nonce, sensorResp, forwardResp);
      |ev| == 3 && ev[0].Fetched? && ev[1] == FetchFailed && ev[2] == CleanedUp
  {
  }

  /** The write key travels in the URL and never among the parameters,
      which hold exactly the three readings. */
  lemma KeyInQueryString(apiKey: string, data: Reading)
    ensures var rq := ThingSpeakRequest(apiKey, data);
      && rq.url == "https://api.thingspeak.com/update?api_key=" + apiKey
      && "api_key" !in rq.params
      && rq.params.Keys == {"field1", "field2", "field3"}
      && rq.params["field1"] == AsDict(data)["temperature"]
      && rq.params["field2"] == AsDict(data)["humidity"]
      && rq.params["field3"] == AsDict(data)["co2"]
  {
  }
}
