# SwitchBot CO2 → ThingSpeak relay, modelled in Dafny

The repository polls one SwitchBot CO2 sensor through the SwitchBot v1.1 REST
API and forwards temperature, humidity and CO2 to ThingSpeak. It has two
entry points: a long-running script (`main.py`) and a serverless handler
(`lambda_function.py`). A separate tool (`tools/list_devices.py`) lists the
account's devices. All three sign their SwitchBot requests the same way: an
HMAC-SHA256 over `token ++ t ++ nonce`, keyed by the secret and Base64-encoded.

This project models the decisions the code makes once the network is treated
as an input:

- which bytes are signed and with which key;
- which URL and headers are sent;
- how a SwitchBot response becomes a reading or `None`;
- which ThingSpeak parameters are sent;
- which status code and message the handler returns;
- in which order the script's cycle fetches, forwards and cleans up.

Modules, one per source file plus shared ones:

- `Encoding`: the decimal rendering of the timestamp (`str(int(...))`) and
  UTF-8 (RFC 3629, section 3). Each has a left inverse and a round-trip
  proof. The UTF-8 inverse is not a validating decoder: it also accepts
  overlong forms.
- `Json`, `Http`: JSON values with dictionaries as maps, so a key bound to
  null is not the same as an absent key; the outcome of an HTTP call
  (`Raised`, or a status and a body that may not parse); the request sent.
- `Crypto`: HMAC-SHA256 (RFC 2104 over FIPS 180-4) and Base64 (section 4 of
  RFC 4648) as function-valued parameters. Every result holds whatever those
  routines compute.
- `SwitchBotSensor` (switchbot_sensor.py): an immutable record, the signer,
  the status request and the response interpretation.
- `LambdaFunction` (lambda_function.py): the forwarder and the handler as
  functions. The environment is a map, and each invocation gives the
  requests it sent and the result it returned.
- `Monitor` (main.py): the cycle and the start-up as methods. They append to
  the event trace of an `Effects` object and are proved equal to a trace
  function. Lemmas about that function state cleanup-exactly-once and
  forward-iff-truthy.
- `ListDevices` (tools/list_devices.py) and `Agreement`: the tool's own
  signer, and proofs that the duplicated code agrees.

Points where the code's behaviour is easy to misread; the model follows the
code:

- Statuses 300 to 399, and 600 and up, are not errors: `raise_for_status()`
  raises only for 400 to 599.
- Every failure in `get_data` returns `None`. No error kind is kept.
- `body.get(...)` turns an absent `temperature` or `humidity` into `None`,
  the same as an explicit null. Only the CO2 lookup tells presence from null.
- This code does not remove `None` readings from the parameter map. The
  `requests` library then leaves `None`-valued parameters out of the query
  string, which is not modelled.
- In `main.py` a failing `load_config()` (or an incomplete `sensor.switchbot`
  section) lies outside the cycle's `try`, so the exception escapes
  `monitor_and_send`.

## Model

| member | source | states |
|---|---|---|
| `Encoding.DecimalString` | switchbot_sensor.py:32 | the rendering of the timestamp is a non-empty string of decimal digits with no leading zero |
| `Encoding.DecimalRoundTrip` | switchbot_sensor.py:32 | reading the decimal rendering back gives the timestamp, so `t` carries exactly the clock value |
| `Encoding.DecimalStringInjective` | tools/list_devices.py:17 | distinct timestamps give distinct `t` strings |
| `Encoding.Utf8` | switchbot_sensor.py:35-36 | `bytes(s, 'utf-8')` is empty exactly for the empty string and has between one and four bytes per character |
| `Encoding.Utf8Char` | switchbot_sensor.py:35-36 | one character encodes to its shortest form: 1, 2, 3 or 4 bytes for code points below 0x80, 0x800, 0x10000 and above; the lead byte gives the length and the rest are continuation bytes |
| `Encoding.Utf8Append` | switchbot_sensor.py:33-35 | encoding `token ++ t ++ nonce` is encoding each part and concatenating the bytes |
| `Encoding.Utf8RoundTrip` | switchbot_sensor.py:35-36 | decoding the UTF-8 bytes gives back the string, so the MAC input determines the string to sign |
| `Encoding.Utf8Injective` | tools/list_devices.py:20-21 | different strings give different UTF-8 bytes |
| `Json.Get` | switchbot_sensor.py:77-78 | `d.get(key)` is null exactly when the key is absent or bound to null, so the two cannot be told apart; any other result is the bound value |
| `Json.GetOr` | switchbot_sensor.py:79 | `d.get(key, default)` returns the default exactly when the key is absent or bound to the default itself; any other result is the bound value; a key bound to null gives null, not the default |
| `SwitchBotSensor.NewSensor` | switchbot_sensor.py:24-27 | token, secret and device id are stored unchanged and the base URL is the fixed v1.1 endpoint |
| `SwitchBotSensor.GenerateSign` | switchbot_sensor.py:29-42 | returns `(sign, t, nonce)` in that order; `t` is the decimal ms timestamp; the nonce is the one signed; `sign` is Base64 of the HMAC keyed by the secret over the bytes of token, t and nonce with no separator |
| `SwitchBotSensor.StatusUrl` | switchbot_sensor.py:51 | the URL is the base URL, then `/devices/`, then the device id, then `/status`; each part sits at a fixed offset, so the device id can be read back from the URL |
| `SwitchBotSensor.Headers` | switchbot_sensor.py:54-61 | exactly the six header names; `Authorization` is `Bearer ` and the token; content type `application/json` and charset `utf8`; `t`, `sign` and `nonce` come from the given signature |
| `SwitchBotSensor.ResolveCo2` | switchbot_sensor.py:79 | CO2 is looked up by presence in the order `CO2`, `co2`, `carbonDioxide`; a present key wins even when null; null when none is present |
| `SwitchBotSensor.ToReading` | switchbot_sensor.py:76-80 | temperature and humidity are the body's values when present and null when absent; CO2 is the first present of `CO2`, `co2`, `carbonDioxide`, or null |
| `SwitchBotSensor.AsDict` | switchbot_sensor.py:76-80 | the dictionary returned on success has exactly the keys temperature, humidity and co2, holding the reading's three values |
| `SwitchBotSensor.Interpret` | switchbot_sensor.py:63-84 | the result is a reading iff the call completed below status 400 (or from 600 up), the body parsed, `statusCode` is 100 and `body` is an object; the reading is then built from that body |
| `SwitchBotSensor.GetData` | switchbot_sensor.py:44-84 | the reading returned is the interpretation of the response |
| `SwitchBotSensor.StatusRequestShape` | switchbot_sensor.py:51-61 | the URL is `base_url/devices/{id}/status`; the six headers carry `Bearer token` and the fixed content type and charset; `t`, `sign` and `nonce` come from one signing, so the signature can be recomputed from the headers |
| `SwitchBotSensor.RequestIndependentOfResponse` | switchbot_sensor.py:51-64 | the request is fixed before the call and does not depend on the answer |
| `SwitchBotSensor.SignedMessageDeterminesTimestampAndNonce` | switchbot_sensor.py:31-36 | with the token fixed and nonces of equal length, equal MAC inputs imply equal timestamps and equal nonces |
| `SwitchBotSensor.FailuresGiveNone` | switchbot_sensor.py:63-84 | a raised call, an error status, a non-JSON body, a missing `statusCode` or a missing `body` each give `None`, and nothing is raised |
| `SwitchBotSensor.ApiErrorGivesNone` | switchbot_sensor.py:68-70 | a `statusCode` other than 100 gives `None` whatever the body holds |
| `SwitchBotSensor.TruthyIffSome` | switchbot_sensor.py:44-84 | what `get_data` returns is falsy exactly when it is `None` |
| `LambdaFunction.Payload` | lambda_function.py:14-19 | the parameters are exactly `api_key` (the key as a string) and field1 to field3 holding temperature, humidity and CO2 |
| `LambdaFunction.SendDataToThingSpeak` | lambda_function.py:11-31 | returns True exactly when the call completed without a 400–599 status; a raised call gives False; the request goes to the update endpoint with no headers and the payload as parameters |
| `LambdaFunction.PayloadFields` | lambda_function.py:14-19 | the parameters are `api_key` and temperature, humidity and co2 as field1, field2 and field3, and nothing else |
| `LambdaFunction.KeyErrorText` | lambda_function.py:87 | for the four variable names the handler reads, `str(KeyError(name))` is the name between two single quotes, two characters longer than the name |
| `LambdaFunction.FirstMissing` | lambda_function.py:37-46 | yields nothing iff every variable is set; otherwise it yields the first unset variable in reading order |
| `LambdaFunction.AllSetIffNoneMissing` | lambda_function.py:37-46 | all four variables are set exactly when no lookup raises |
| `LambdaFunction.LambdaHandler` | lambda_function.py:33-89 | the status code is always 200 or 500 |
| `LambdaFunction.SuccessIffBothSucceed` | lambda_function.py:56-80 | 200 is returned iff every variable is set, the reading was obtained and forwarding succeeded; it then comes with message `Success` and the reading as `data`, after exactly two requests, the second the ThingSpeak request with the key and the reading |
| `LambdaFunction.MissingVariable` | lambda_function.py:82-89 | an unset variable gives 500 with `Error: '<NAME>'` for the first unset name, and no request is sent |
| `LambdaFunction.FetchFailureSkipsForwarder` | lambda_function.py:56-63 | without a reading the answer is 500 `Failed to get sensor data`, and the status request is the only request sent |
| `LambdaFunction.ForwardFailure` | lambda_function.py:66-80 | a failed forward gives 500 `Failed to send data to ThingSpeak` after the ThingSpeak request with the reading |
| `LambdaFunction.EndToEndScenario` | lambda_function.py:49-73 | a status-100 answer with temperature, humidity and `CO2`, then a 200 from ThingSpeak, give 200 `Success` with the readings sent as field1 to field3 |
| `Monitor.Payload` | main.py:25-29 | the parameters are exactly field1 to field3 holding temperature, humidity and CO2 |
| `Monitor.ThingSpeakRequest` | main.py:24-29 | the URL is the fixed update prefix followed by the write key; `api_key` is not a parameter and no headers are sent |
| `Monitor.ForwardEvents` | main.py:31-37 | one GET to ThingSpeak, followed by a logged failure exactly when the call raised or returned a 400–599 status |
| `Monitor.CycleEvents` | main.py:48-60 | nothing happens when the sensor cannot be built; otherwise the cycle starts with the status request, ends with the cleanup and has three or four events |
| `Monitor.SendDataToThingSpeak` | main.py:17-37 | one GET to ThingSpeak, then an error event when it fails; nothing is raised |
| `Monitor.MonitorAndSend` | main.py:39-60 | the trace grows by exactly the cycle's events; an exception escapes only when the sensor cannot be built |
| `Monitor.StartUp` | main.py:62-71 | one full cycle runs before the periodic job is registered; a configuration failure stops start-up |
| `Monitor.CleanupExactlyOnce` | main.py:48-60 | once the sensor is built, cleanup happens exactly once and last, whatever the fetch did |
| `Monitor.ForwardIffTruthy` | main.py:49-56 | the forwarder is called iff the reading is truthy and the ThingSpeak key can be read; it is called with that key and that reading |
| `Monitor.FetchFailureLogged` | main.py:55-56 | a failed fetch gives the status request, the logged failure and the cleanup, and no forward |
| `Monitor.KeyInQueryString` | main.py:24-29 | the write key is in the URL and not a parameter; the parameters are exactly field1 to field3 holding the reading |
| `ListDevices.GenerateSign` | tools/list_devices.py:15-27 | returns `(sign, t, nonce)`; `t` is the decimal ms timestamp; `sign` is Base64 of the HMAC keyed by the secret over token, t and nonce with no separator |
| `ListDevices.DeviceListRequest` | tools/list_devices.py:29-48 | the GET to `/v1.1/devices` carries the six headers, with `t`, `sign` and `nonce` from one signing call |
| `Agreement.SignersAgree` | tools/list_devices.py:15-27 | for equal inputs the tool's signer and the sensor's signer return the same triple |
| `Agreement.HeadersAgree` | tools/list_devices.py:36-43 | the tool and the sensor send identical header maps; only the URL path differs |
| `Agreement.ForwardersAgree` | main.py:24-29 | the script's parameters are the handler's parameters without `api_key`, which the script moves into the URL |

## Left out

- The HTTP transfers (`requests.get`) are inputs. The model covers the status,
  whether the body parsed as JSON, and whether the call raised. Redirects,
  timeouts and the response text are not modelled.
- `raise_for_status()` follows the `requests` library: statuses 400–599 raise.
- How `requests` encodes query parameters is not modelled, in particular
  that it leaves out `None` values. Parameters are given as the map handed
  over.
- HMAC-SHA256 and Base64 are parameters, not implementations. Base64's
  `.decode('utf-8')` is folded into the Base64 function, whose output is ASCII.
- Clock and randomness: the timestamp is a natural number of milliseconds.
  The float arithmetic `round(time.time() * 1000)` behind it is not modelled.
  The nonce is any string; the UUID version 4 format is not modelled.
- UTF-8 failure on lone surrogates is not modelled. Dafny characters are
  Unicode scalar values, so `bytes(s, 'utf-8')` cannot fail here.
- Configuration loading: the YAML file and `os.environ` are only "present" or
  "missing". `main.py` reads the file at start-up and again in every cycle.
  `Monitor.StartUp` uses one configuration value for both reads. YAML values
  that are not strings are not modelled.
- Scheduler: `schedule.every(...)`, the `while True` loop, `time.sleep(1)` and
  `KeyboardInterrupt` are not modelled. Only the start-up before the loop is.
- Logging: log texts are not modelled. The only events kept are the cycle's
  error events that stand in for behaviour: failed fetch, caught exception
  and failed forward. The logs inside `get_data` are not modelled.
- `LambdaFunction.LambdaHandler`: the `body` is the decoded structure, not
  the string `json.dumps` produces. The only exceptions the handler can
  catch in this code are the environment lookups. Every other step returns
  normally.
- JSON numbers are reals, so `NaN` and `Infinity` are not representable.
- The tool's config file reading and its printing of the response
  (tools/list_devices.py:30-32, 45-50) are not modelled.
- deploy.py is not part of this model. It only packages files.
