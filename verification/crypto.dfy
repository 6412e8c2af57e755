/** The two library routines the signer calls, kept abstract: HMAC-SHA256
    (RFC 2104 over FIPS 180-4 SHA-256) and Base64 with the standard alphabet
    (section 4 of RFC 4648). They are passed in as functions, so every result
    below holds whatever those routines compute. */
module Crypto {
  import opened Encoding

  datatype Primitives = Primitives(
    hmacSha256: (seq<byte>, seq<byte>) -> seq<byte>,  // (key, message) to digest
    base64: seq<byte> -> string                       // b64encode(...).decode('utf-8')
  )

  /** The triple `(sign, t, nonce)` both signers return, in that order. */
  datatype Signature = Signature(sign: string, t: string, nonce: string)

  /** The signature over a message with a key, as the API expects it: the
      Base64 text of the HMAC-SHA256 digest keyed by the UTF-8 bytes of the
      key. */
  function Sign(p: Primitives, key: string, message: seq<byte>): string
  {
    p.base64(p.hmacSha256(Utf8(key), message))
  }
}
