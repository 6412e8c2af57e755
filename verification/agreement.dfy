/** Facts relating the places where the repository does the same thing
    twice: the two signers, the two header maps and the two ThingSpeak
    requests. */
module Agreement {
  import opened Json
  import opened Http
  import opened Crypto
  import SwitchBotSensor
  import LambdaFunction
  import Monitor
  import ListDevices

  /** For the same token, secret, clock reading and nonce, the tool's
      `generate_sign` and the sensor's `_generate_sign` return the same
      triple. */
  lemma SignersAgree(p: Primitives, token: string, secret: string, deviceId: string, millis: nat, nonce: string)
    ensures ListDevices.GenerateSign(p, token, secret, millis, nonce)
         == SwitchBotSensor.GenerateSign(SwitchBotSensor.NewSensor(token, secret, deviceId), p, millis, nonce)
  {
  }

  /** Both clients send the same six headers; only the URL differs. */
  lemma HeadersAgree(p: Primitives, token: string, secret: string, deviceId: string, millis: nat, nonce: string,
                     resp: Transport)
    ensures var status := SwitchBotSensor.GetData(SwitchBotSensor.NewSensor(token, secret, deviceId), p, millis, nonce, resp).request;
      var list := ListDevices.DeviceListRequest(p, token, secret, millis, nonce);
      status.headers == list.headers && status.url == list.url + "/" + deviceId + "/status"
  {
    var s := SwitchBotSensor.NewSensor(token, secret, deviceId);
    var sig := SwitchBotSensor.GenerateSign(s, p, millis, nonce);
    SignersAgree(p, token, secret, deviceId, millis, nonce);
    assert SwitchBotSensor.GetData(s, p, millis, nonce, resp).request
        == Request(SwitchBotSensor.StatusUrl(s), SwitchBotSensor.Headers(token, sig), map[]);
    assert SwitchBotSensor.BaseUrl + "/devices/" == ListDevices.DevicesUrl + "/";
    assert SwitchBotSensor.StatusUrl(s) == ListDevices.DevicesUrl + "/" + deviceId + "/status";
  }

  /** The two forwarders send the same readings under the same field names;
      the serverless one carries the key as a parameter, the script in the
      URL. */
  lemma ForwardersAgree(apiKey: string, data: SwitchBotSensor.Reading, resp: Transport)
    ensures var fromLambda := LambdaFunction.SendDataToThingSpeak(apiKey, data, resp).request;
      var fromScript := Monitor.ThingSpeakRequest(apiKey, data);
      && fromScript.params == fromLambda.params - {"api_key"}
      && fromLambda.params["api_key"] == JStr(apiKey)
      && fromScript.url == fromLambda.url + "?api_key=" + apiKey
  {
  }
}
