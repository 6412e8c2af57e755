/** The device-listing tool: its own copy of the signer and the headers of
    the signed GET of the device list. The configuration file is not read
    here; the token and the secret are inputs. */
module ListDevices {
  import opened Encoding
  import opened Http
  import opened Crypto

  const DevicesUrl: string := "https://api.switch-bot.com/v1.1/devices"

  /** `generate_sign(token, secret)` with the millisecond clock reading and
      the nonce given: key the secret, message the token, the decimal
      timestamp and the nonce with no separator. */
  function GenerateSign(p: Primitives, token: string, secret: string, millis: nat, nonce: string): (r: Signature)
    ensures IsDecimal(r.t) && DecimalValue(r.t) == millis && (r.t[0] == '0' ==> r.t == "0")
    ensures r.nonce == nonce
    ensures r.sign == Sign(p, secret, Utf8(token) + Utf8(r.t) + Utf8(nonce))
  {
    var t := DecimalString(millis);
    var stringToSign := token + t + nonce;
    var sign := p.base64(p.hmacSha256(Utf8(secret), Utf8(stringToSign)));
    DecimalRoundTrip(millis);
    Utf8Append(token + t, nonce);
    Utf8Append(token, t);
    Signature(sign, t, nonce)
  }

  /** `get_device_list`: the request it sends, with `t`, `sign` and `nonce`
      from one signing call. */
  function DeviceListRequest(p: Primitives, token: string, secret: string, millis: nat, nonce: string): (rq: Request)
    ensures rq.url == DevicesUrl && rq.params == map[]
    ensures rq.headers.Keys == {"Authorization", "Content-Type", "charset", "t", "sign", "nonce"}
    ensures rq.headers["Authorization"] == "Bearer " + token
    ensures IsDecimal(rq.headers["t"]) && DecimalValue(rq.headers["t"]) == millis
    ensures rq.headers["t"][0] == '0' ==> rq.headers["t"] == "0"
    ensures rq.headers["nonce"] == nonce
    ensures rq.headers["sign"] == Sign(p, secret, Utf8(token) + Utf8(rq.headers["t"]) + Utf8(rq.headers["nonce"]))
  {
    var sig := GenerateSign(p, token, secret, millis, nonce);
    var headers := map["Authorization" := "Bearer " + token,
                       "Content-Type" := "application/json",
                       "charset" := "utf8",
                       "t" := sig.t,
                       "sign" := sig.sign,
                       "nonce" := sig.nonce];
    Request(DevicesUrl, headers, map[])
  }
}
