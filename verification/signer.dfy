/**
 * `generateSignature`: HMAC-SHA256 over the API path followed by the
 * canonical string, rendered as 64 upper-case hex digits.
 */
module Signer {
  import opened Wrappers
  import opened Record
  import opened Hex
  import opened Canonical

  /** A SHA-256 digest: 32 bytes. */
  type Digest = d: seq<Byte> | |d| == 32 witness seq(32, _ => 0)

  /** HMAC-SHA256 (RFC 2104 with the SHA-256 of FIPS 180-4) keyed with the
      app secret, over the UTF-8 encoding of the message. The hash is not
      modelled: every signing operation takes it as a parameter. */
  type Mac = (string, string) -> Digest

  /** The text that is signed: `apiPath + concatenatedString`. Business
      calls sign with the empty path, the token calls with their API path. */
  function StringToSign(apiPath: string, ps: ParamSet): string
  {
    apiPath + Canonicalize(ps)
  }

  /** `createHmac('sha256', secret).update(stringToSign).digest('hex').toUpperCase()`. */
  function Sign(mac: Mac, secret: string, apiPath: string, ps: ParamSet): (sig: string)
    ensures |sig| == 64 && IsUpperHex(sig)
    ensures ParseUpperHex(sig) == Some(mac(secret, StringToSign(apiPath, ps)))
  {
    var d := mac(secret, StringToSign(apiPath, ps));
    UpperHexShape(d);
    UpperHexRoundTrip(d);
    UpperHex(d)
  }

  /** The signature depends only on the key/value pairs, not on the order in
      which they were inserted. */
  lemma SignIgnoresOrder(mac: Mac, secret: string, apiPath: string, p: ParamSet, q: ParamSet)
    requires DistinctKeys(p) && DistinctKeys(q)
    requires forall e :: e in p <==> e in q
    ensures Sign(mac, secret, apiPath, p) == Sign(mac, secret, apiPath, q)
  {
    CanonicalIgnoresOrder(p, q);
  }
}
