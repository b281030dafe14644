/** The application/x-www-form-urlencoded format of the WHATWG URL Standard, section 5: the
    serializer (section 5.2) that `URLSearchParams.prototype.toString` runs, and the parser
    (section 5.1) that reads such a string back, here with strict UTF-8 decoding. */
module FormUrlencoded {
  import opened Wrappers
  import opened Utf8
  import Text

  /** Bytes outside the application/x-www-form-urlencoded percent-encode set: ASCII alphanumerics
      and `*`, `-`, `.`, `_`. */
  predicate IsKept(b: byte) {
    (0x30 <= b <= 0x39) || (0x41 <= b <= 0x5A) || (0x61 <= b <= 0x7A)
    || b == 0x2A || b == 0x2D || b == 0x2E || b == 0x5F
  }

  function HexDigitUpper(d: nat): (c: char)
    requires d < 16
    ensures c as int < 0x80
  {
    "0123456789ABCDEF"[d]
  }

  /** What the serializer writes for one byte: `+` for a space, the byte itself when it is kept,
      otherwise `%` and two upper-case hexadecimal digits. */
  function EncodeByte(b: byte): (r: string)
    ensures IsAscii(r) && 1 <= |r| <= 3
  {
    if b == 0x20 then "+"
    else if IsKept(b) then [b as int as char]
    else ['%', HexDigitUpper(b as int / 16), HexDigitUpper(b as int % 16)]
  }

  function EncodeBytes(bs: seq<byte>): (r: string)
    ensures IsAscii(r)
  {
    if bs == [] then [] else EncodeByte(bs[0]) + EncodeBytes(bs[1..])
  }

  /** Percent-encode after encoding with UTF-8, space as plus. */
  function Encode(s: string): string {
    EncodeBytes(Utf8.Encode(s))
  }

  /** Every character the encoder writes is kept, `+`, `%` or a hexadecimal digit: never `&` or
      `=`, the two characters that delimit a serialized list. */
  predicate IsEncodedChar(c: char) {
    (c as int < 0x80 && IsKept(c as int as byte)) || c == '+' || c == '%'
  }

  lemma {:induction false} EncodeBytesAlphabet(bs: seq<byte>)
    ensures forall i :: 0 <= i < |EncodeBytes(bs)| ==> IsEncodedChar(EncodeBytes(bs)[i])
  {
    if bs != [] {
      EncodeBytesAlphabet(bs[1..]);
      var e := EncodeByte(bs[0]);
      assert forall i :: 0 <= i < |e| ==> IsEncodedChar(e[i]);
    }
  }

  lemma EncodeAlphabet(s: string)
    ensures '&' !in Encode(s) && '=' !in Encode(s)
  {
    var e := Encode(s);
    EncodeBytesAlphabet(Utf8.Encode(s));
    assert forall i :: 0 <= i < |e| ==> e[i] != '&' && e[i] != '=';
  }

  /** The three cases the UPI link relies on: a space becomes `+`, `@` becomes `%40`, and ASCII
      alphanumerics and `*-._` pass through unchanged. */
  lemma EncodeExamples()
    ensures Encode(" ") == "+"
    ensures Encode("@") == "%40"
    ensures forall c: char :: c as int < 0x80 && IsKept(c as int as byte) ==> Encode([c]) == [c]
  {
    assert Utf8.Encode(" ") == [0x20];
    assert Utf8.Encode("@") == [0x40];
    forall c: char | c as int < 0x80 && IsKept(c as int as byte)
      ensures Encode([c]) == [c]
    {
      var b := c as int as byte;
      assert Utf8.Encode([c]) == [b];
      assert EncodeBytes([b]) == EncodeByte(b) + EncodeBytes([]);
      assert EncodeByte(b) == [c];
    }
  }

  /** One `name=value` entry of the serialized list. */
  function EncodePair(p: (string, string)): (r: string)
    ensures '=' in r && '&' !in r
  {
    EncodeAlphabet(p.0);
    EncodeAlphabet(p.1);
    assert (Encode(p.0) + "=" + Encode(p.1))[|Encode(p.0)|] == '=';
    Encode(p.0) + "=" + Encode(p.1)
  }

  function Entries(pairs: seq<(string, string)>): (r: seq<string>)
    ensures |r| == |pairs|
    ensures forall i :: 0 <= i < |r| ==> r[i] == EncodePair(pairs[i])
  {
    if pairs == [] then [] else [EncodePair(pairs[0])] + Entries(pairs[1..])
  }

  /** The application/x-www-form-urlencoded serializer: the entries joined with `&`. */
  function Serialize(pairs: seq<(string, string)>): string {
    Text.Join(Entries(pairs), '&')
  }

  /** Serializing one more pair appends `&` and its entry (or just the entry to an empty list):
      the step of the serializer's loop. */
  lemma SerializeSnoc(pairs: seq<(string, string)>, p: (string, string))
    ensures Serialize(pairs + [p])
         == if pairs == [] then EncodePair(p) else Serialize(pairs) + "&" + EncodePair(p)
  {
    assert Entries(pairs + [p]) == Entries(pairs) + [EncodePair(p)];
    JoinSnoc(Entries(pairs), EncodePair(p), '&');
  }

  lemma {:induction false} JoinSnoc(xs: seq<string>, x: string, sep: char)
    ensures Text.Join(xs + [x], sep) == if xs == [] then x else Text.Join(xs, sep) + [sep] + x
    decreases |xs|
  {
    if |xs| == 1 {
      assert xs + [x] == [xs[0], x];
    } else if |xs| > 1 {
      assert (xs + [x])[1..] == xs[1..] + [x];
      JoinSnoc(xs[1..], x, sep);
    } else {
      assert xs + [x] == [x];
    }
  }

  // ---- The parser, as the partner of the serializer ----

  function PlusToSpace(bs: seq<byte>): (r: seq<byte>)
    ensures |r| == |bs|
  {
    seq(|bs|, i requires 0 <= i < |bs| => if bs[i] == 0x2B then 0x20 else bs[i])
  }

  predicate IsHexByte(b: byte) {
    (0x30 <= b <= 0x39) || (0x41 <= b <= 0x46) || (0x61 <= b <= 0x66)
  }

  function HexValue(b: byte): (v: nat)
    requires IsHexByte(b)
    ensures v < 16
  {
    if b <= 0x39 then b as int - 0x30 else if b <= 0x46 then b as int - 0x41 + 10 else b as int - 0x61 + 10
  }

  /** Percent-decoding (URL Standard, section 1.3): `%` followed by two hexadecimal digits
      stands for one byte; every other byte stands for itself. */
  function PercentDecode(bs: seq<byte>): seq<byte>
    decreases |bs|
  {
    if bs == [] then []
    else if bs[0] == 0x25 && |bs| >= 3 && IsHexByte(bs[1]) && IsHexByte(bs[2]) then
      [(HexValue(bs[1]) * 16 + HexValue(bs[2])) as byte] + PercentDecode(bs[3..])
    else [bs[0]] + PercentDecode(bs[1..])
  }

  /** Reads one name or value back: plus to space, percent-decode, UTF-8 decode. */
  function DecodeComponent(s: string): Option<string> {
    Utf8.Decode(PercentDecode(PlusToSpace(Utf8.Encode(s))))
  }

  function ParseEntry(e: string): Option<(string, string)> {
    var (name, value) :=
      if '=' in e then (e[..Text.IndexOf(e, '=')], e[Text.IndexOf(e, '=') + 1..]) else (e, "");
    match (DecodeComponent(name), DecodeComponent(value))
    case (Some(n), Some(v)) => Some((n, v))
    case _ => None
  }

  function ParseEntries(es: seq<string>): Option<seq<(string, string)>> {
    if es == [] then Some([])
    else
      match ParseEntries(es[1..])
      case None => None
      case Some(rest) =>
        if es[0] == "" then Some(rest)
        else
          match ParseEntry(es[0])
          case None => None
          case Some(p) => Some([p] + rest)
  }

  /** The application/x-www-form-urlencoded parser: split on `&`, skip empty pieces, split each
      at its first `=`, decode both halves. */
  function Parse(s: string): Option<seq<(string, string)>> {
    ParseEntries(Text.Split(s, '&'))
  }

  // ---- Round trip ----

  lemma EncodeByteBytes(b: byte)
    ensures Utf8.Encode(EncodeByte(b))
         == if b == 0x20 then [0x2B]
            else if IsKept(b) then [b]
            else [0x25, HexDigitUpper(b as int / 16) as int as byte, HexDigitUpper(b as int % 16) as int as byte]
  {
    EncodeAscii(EncodeByte(b));
  }

  lemma HexRoundTrip(d: nat)
    requires d < 16
    ensures IsHexByte(HexDigitUpper(d) as int as byte)
    ensures HexValue(HexDigitUpper(d) as int as byte) == d
  {
  }

  lemma PlusToSpaceAppend(a: seq<byte>, b: seq<byte>)
    ensures PlusToSpace(a + b) == PlusToSpace(a) + PlusToSpace(b)
  {
  }

  /** One encoded byte, plus-to-space and percent-decoded, gives the byte back, whatever
      follows it. */
  lemma DecodeEncodedByte(b: byte, rest: seq<byte>)
    ensures PercentDecode(PlusToSpace(Utf8.Encode(EncodeByte(b))) + rest) == [b] + PercentDecode(rest)
  {
    var head := Utf8.Encode(EncodeByte(b));
    EncodeByteBytes(b);
    var x := PlusToSpace(head) + rest;
    if b == 0x20 {
      assert PlusToSpace(head) == [0x20];
      assert x[1..] == rest;
    } else if IsKept(b) {
      assert PlusToSpace(head) == [b];
      assert x[1..] == rest;
    } else {
      HexRoundTrip(b as int / 16);
      HexRoundTrip(b as int % 16);
      assert PlusToSpace(head) == head;
      assert x[3..] == rest;
      assert x[0] == 0x25 && IsHexByte(x[1]) && IsHexByte(x[2]);
    }
  }

  lemma {:induction false} DecodeEncodeBytes(bs: seq<byte>)
    ensures PercentDecode(PlusToSpace(Utf8.Encode(EncodeBytes(bs)))) == bs
  {
    if bs != [] {
      var head := Utf8.Encode(EncodeByte(bs[0]));
      var tail := Utf8.Encode(EncodeBytes(bs[1..]));
      Utf8.EncodeAppend(EncodeByte(bs[0]), EncodeBytes(bs[1..]));
      PlusToSpaceAppend(head, tail);
      DecodeEncodedByte(bs[0], PlusToSpace(tail));
      DecodeEncodeBytes(bs[1..]);
    }
  }

  /** Every name or value the serializer writes decodes back to itself. */
  lemma DecodeEncode(s: string)
    ensures DecodeComponent(Encode(s)) == Some(s)
  {
    DecodeEncodeBytes(Utf8.Encode(s));
    Utf8.DecodeEncode(s);
  }

  lemma ParseEntrySplit(name: string, value: string)
    requires '=' !in name
    ensures ParseEntry(name + "=" + value)
         == match (DecodeComponent(name), DecodeComponent(value))
            case (Some(n), Some(v)) => Some((n, v))
            case _ => None
  {
    var e := name + "=" + value;
    Text.IndexOfPrefix(name, "=" + value, '=');
    assert name + ("=" + value) == e;
    assert e[..|name|] == name;
    assert e[|name| + 1..] == value;
  }

  lemma ParseEncodePair(p: (string, string))
    ensures ParseEntry(EncodePair(p)) == Some(p)
  {
    EncodeAlphabet(p.0);
    ParseEntrySplit(Encode(p.0), Encode(p.1));
    DecodeEncode(p.0);
    DecodeEncode(p.1);
  }

  lemma {:induction false} ParseEntriesOf(pairs: seq<(string, string)>)
    ensures ParseEntries(Entries(pairs)) == Some(pairs)
  {
    if pairs != [] {
      var es := Entries(pairs);
      assert es[1..] == Entries(pairs[1..]);
      ParseEntriesOf(pairs[1..]);
      ParseEncodePair(pairs[0]);
      assert es[0] == EncodePair(pairs[0]) && es[0] != "";
      assert ParseEntries(es) == Some([pairs[0]] + pairs[1..]);
      assert [pairs[0]] + pairs[1..] == pairs;
    }
  }

  /** Parsing undoes serializing: the names, the values and their order are all recoverable from
      the serialized string. */
  lemma ParseSerialize(pairs: seq<(string, string)>)
    ensures Parse(Serialize(pairs)) == Some(pairs)
  {
    if pairs == [] {
      assert Text.Split("", '&') == [""];
    } else {
      Text.SplitJoin(Entries(pairs), '&');
      ParseEntriesOf(pairs);
    }
  }
}
