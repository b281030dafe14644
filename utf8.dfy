/** UTF-8 (RFC 3629): how every string of the model becomes the bytes that are hashed, signed or
    percent-encoded. Node's `hash.update(string)`, `Buffer.from(string)` and the URL Standard's
    serializer all encode a string as UTF-8 first. */
module Utf8 {
  import opened Wrappers

  newtype byte = b: int | 0 <= b < 256

  /** The bytes of one Unicode scalar value. */
  function EncodeChar(c: char): (r: seq<byte>)
    ensures 1 <= |r| <= 4
    ensures (c as int < 0x80) <==> |r| == 1
  {
    var n := c as int;
    if n < 0x80 then [n as byte]
    else if n < 0x800 then [(0xC0 + n / 64) as byte, (0x80 + n % 64) as byte]
    else if n < 0x10000 then
      [(0xE0 + n / 4096) as byte, (0x80 + (n / 64) % 64) as byte, (0x80 + n % 64) as byte]
    else
      [(0xF0 + n / 262144) as byte, (0x80 + (n / 4096) % 64) as byte,
       (0x80 + (n / 64) % 64) as byte, (0x80 + n % 64) as byte]
  }

  function Encode(s: string): (r: seq<byte>)
    ensures |r| >= |s|
  {
    if s == [] then [] else EncodeChar(s[0]) + Encode(s[1..])
  }

  predicate IsCont(b: byte) {
    0x80 <= b < 0xC0
  }

  /** Length of the sequence a lead byte announces; 0 for a byte that cannot lead one. */
  function SeqLength(b: byte): nat {
    if b < 0x80 then 1
    else if 0xC2 <= b < 0xE0 then 2
    else if 0xE0 <= b < 0xF0 then 3
    else if 0xF0 <= b < 0xF5 then 4
    else 0
  }

  predicate IsScalar(n: int) {
    (0 <= n < 0xD800) || (0xE000 <= n < 0x110000)
  }

  /** Decodes the sequence at the front of `bs`, rejecting overlong forms and surrogates. */
  function DecodeFirst(bs: seq<byte>): (r: Option<(char, nat)>)
    requires |bs| >= 1
    ensures r.Some? ==> 1 <= r.value.1 <= |bs|
  {
    var k := SeqLength(bs[0]);
    if k == 0 || |bs| < k then None
    else if k == 1 then Some((bs[0] as int as char, 1))
    else if !(forall j :: 1 <= j < k ==> IsCont(bs[j])) then None
    else
      var n :=
        if k == 2 then (bs[0] as int - 0xC0) * 64 + (bs[1] as int - 0x80)
        else if k == 3 then
          (bs[0] as int - 0xE0) * 4096 + (bs[1] as int - 0x80) * 64 + (bs[2] as int - 0x80)
        else
          (bs[0] as int - 0xF0) * 262144 + (bs[1] as int - 0x80) * 4096
          + (bs[2] as int - 0x80) * 64 + (bs[3] as int - 0x80);
      var lo := if k == 2 then 0x80 else if k == 3 then 0x800 else 0x10000;
      if lo <= n && IsScalar(n) then Some((n as char, k)) else None
  }

  /** Strict UTF-8 decoding: `None` for any ill-formed input. */
  function Decode(bs: seq<byte>): (r: Option<string>)
    decreases |bs|
  {
    if bs == [] then Some([])
    else
      match DecodeFirst(bs)
      case None => None
      case Some((c, k)) =>
        match Decode(bs[k..])
        case None => None
        case Some(rest) => Some([c] + rest)
  }

  lemma DecodeFirstTwo(n: int, bs: seq<byte>)
    requires 0x80 <= n < 0x800 && |bs| >= 2
    requires bs[0] as int == 0xC0 + n / 64 && bs[1] as int == 0x80 + n % 64
    ensures SeqLength(bs[0]) == 2 && IsCont(bs[1])
    ensures (bs[0] as int - 0xC0) * 64 + (bs[1] as int - 0x80) == n
  {
  }

  lemma DecodeFirstThree(n: int, bs: seq<byte>)
    requires 0x800 <= n < 0x10000 && |bs| >= 3
    requires bs[0] as int == 0xE0 + n / 4096 && bs[1] as int == 0x80 + (n / 64) % 64
    requires bs[2] as int == 0x80 + n % 64
    ensures SeqLength(bs[0]) == 3 && IsCont(bs[1]) && IsCont(bs[2])
    ensures (bs[0] as int - 0xE0) * 4096 + (bs[1] as int - 0x80) * 64 + (bs[2] as int - 0x80) == n
  {
    var q := n / 64;
    assert n == q * 64 + n % 64;
    assert q == (q / 64) * 64 + q % 64;
    assert q / 64 == n / 4096;
  }

  lemma DecodeFirstFour(n: int, bs: seq<byte>)
    requires 0x10000 <= n < 0x110000 && |bs| >= 4
    requires bs[0] as int == 0xF0 + n / 262144 && bs[1] as int == 0x80 + (n / 4096) % 64
    requires bs[2] as int == 0x80 + (n / 64) % 64 && bs[3] as int == 0x80 + n % 64
    ensures SeqLength(bs[0]) == 4 && IsCont(bs[1]) && IsCont(bs[2]) && IsCont(bs[3])
    ensures (bs[0] as int - 0xF0) * 262144 + (bs[1] as int - 0x80) * 4096
            + (bs[2] as int - 0x80) * 64 + (bs[3] as int - 0x80) == n
  {
    var q := n / 64;
    var p := q / 64;
    assert n == q * 64 + n % 64;
    assert q == p * 64 + q % 64;
    assert p == (p / 64) * 64 + p % 64;
    assert p == n / 4096;
    assert p / 64 == n / 262144;
  }

  lemma DecodeFirstEncodeChar(c: char, tail: seq<byte>)
    ensures DecodeFirst(EncodeChar(c) + tail) == Some((c, |EncodeChar(c)|))
  {
    var bs := EncodeChar(c) + tail;
    var n := c as int;
    if n < 0x80 {
    } else if n < 0x800 {
      DecodeFirstTwo(n, bs);
      assert forall j :: 1 <= j < 2 ==> IsCont(bs[j]);
    } else if n < 0x10000 {
      DecodeFirstThree(n, bs);
      assert forall j :: 1 <= j < 3 ==> IsCont(bs[j]);
    } else {
      DecodeFirstFour(n, bs);
      assert forall j :: 1 <= j < 4 ==> IsCont(bs[j]);
    }
  }

  /** Decoding undoes encoding: UTF-8 loses nothing, so equal bytes mean equal strings. */
  lemma {:induction false} DecodeEncode(s: string)
    ensures Decode(Encode(s)) == Some(s)
  {
    if s != [] {
      var e := EncodeChar(s[0]);
      var bs := e + Encode(s[1..]);
      assert Encode(s) == bs;
      DecodeFirstEncodeChar(s[0], Encode(s[1..]));
      assert bs[|e|..] == Encode(s[1..]);
      DecodeEncode(s[1..]);
      assert Decode(bs) == Some([s[0]] + s[1..]);
      assert [s[0]] + s[1..] == s;
    }
  }

  lemma EncodeInjective(s: string, t: string)
    requires Encode(s) == Encode(t)
    ensures s == t
  {
    DecodeEncode(s);
    DecodeEncode(t);
  }

  lemma {:induction false} EncodeAppend(s: string, t: string)
    ensures Encode(s + t) == Encode(s) + Encode(t)
  {
    if s != [] {
      assert (s + t)[0] == s[0] && (s + t)[1..] == s[1..] + t;
      EncodeAppend(s[1..], t);
    } else {
      assert s + t == t;
    }
  }

  predicate IsAscii(s: string) {
    forall i :: 0 <= i < |s| ==> s[i] as int < 0x80
  }

  /** An ASCII string encodes to one byte per character, each equal to its code point. */
  lemma {:induction false} EncodeAscii(s: string)
    requires IsAscii(s)
    ensures |Encode(s)| == |s|
    ensures forall i :: 0 <= i < |s| ==> Encode(s)[i] as int == s[i] as int
  {
    if s != [] {
      EncodeAscii(s[1..]);
    }
  }
}
