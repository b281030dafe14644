/** The cryptographic collaborators. SHA-256 and SHA-512 (FIPS 180-4), HMAC-SHA256 (RFC 2104),
    base64 (RFC 4648, section 4) and `JSON.stringify` are not defined here: an adapter receives
    them as a `Toolkit` of functions and the model proves only what holds for every choice of
    them. Lower-case hexadecimal, Node's `digest('hex')`, is defined, so the alphabet of a hex
    digest is a theorem rather than an assumption. */
module Digest {
  import opened Utf8
  import Types

  datatype Toolkit = Toolkit(
    sha256: seq<byte> -> seq<byte>,
    sha512: seq<byte> -> seq<byte>,
    hmacSha256: (seq<byte>, seq<byte>) -> seq<byte>,   // (key, message)
    base64: seq<byte> -> string,
    stringify: Types.Json -> string)

  function HexDigit(d: nat): (c: char)
    requires d < 16
  {
    "0123456789abcdef"[d]
  }

  /** `digest('hex')`: two lower-case hexadecimal digits per byte. */
  function Hex(bs: seq<byte>): (r: string)
    ensures |r| == 2 * |bs|
  {
    if bs == [] then "" else [HexDigit(bs[0] as int / 16), HexDigit(bs[0] as int % 16)] + Hex(bs[1..])
  }

  predicate IsLowerHexDigit(c: char) {
    ('0' <= c <= '9') || ('a' <= c <= 'f')
  }

  /** A hex digest uses only `[0-9a-f]`. */
  lemma {:induction false} HexAlphabet(bs: seq<byte>)
    ensures forall i :: 0 <= i < |Hex(bs)| ==> IsLowerHexDigit(Hex(bs)[i])
  {
    if bs != [] {
      HexAlphabet(bs[1..]);
    }
  }

  lemma HexHasNo(bs: seq<byte>, c: char)
    requires !IsLowerHexDigit(c)
    ensures c !in Hex(bs)
  {
    HexAlphabet(bs);
  }

  /** `createHash('sha256').update(s).digest('hex')` */
  function Sha256Hex(t: Toolkit, s: string): string {
    Hex(t.sha256(Utf8.Encode(s)))
  }

  /** `createHash('sha512').update(s).digest('hex')` */
  function Sha512Hex(t: Toolkit, s: string): string {
    Hex(t.sha512(Utf8.Encode(s)))
  }

  /** `createHmac('sha256', key).update(s).digest('hex')` */
  function HmacSha256Hex(t: Toolkit, key: string, s: string): string {
    Hex(t.hmacSha256(Utf8.Encode(key), Utf8.Encode(s)))
  }

  /** `createHmac('sha256', key).update(s).digest('base64')` */
  function HmacSha256Base64(t: Toolkit, key: string, s: string): string {
    t.base64(t.hmacSha256(Utf8.Encode(key), Utf8.Encode(s)))
  }

  /** `Buffer.from(s).toString('base64')` */
  function Base64Of(t: Toolkit, s: string): string {
    t.base64(Utf8.Encode(s))
  }
}
