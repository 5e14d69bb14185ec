/** Percent-encoding as the `urlencoding::encode` function performs it: the
    text is taken as its UTF-8 bytes, the unreserved characters of section 2.3
    of RFC 3986 (ASCII letters, digits, `-`, `_`, `.`, `~`) stay as they are, and
    every other byte becomes `%` followed by two upper-case hexadecimal digits
    (section 2.1 of RFC 3986).
 */
module Percent {
  import opened Wrappers

  type Byte = b: int | 0 <= b < 256

  /** The UTF-8 encoding of one Unicode scalar value. */
  function Utf8(c: char): (r: seq<Byte>)
    ensures 1 <= |r| <= 4
    ensures (c as int) < 0x80 <==> |r| == 1
    ensures |r| == 1 ==> r[0] == c as int
    ensures |r| > 1 ==> r[0] >= 0xC0 && forall i :: 1 <= i < |r| ==> 0x80 <= r[i] < 0xC0
  {
    var n := c as int;
    if n < 0x80 then [n]
    else if n < 0x800 then [0xC0 + n / 64, 0x80 + n % 64]
    else if n < 0x10000 then [0xE0 + n / 4096, 0x80 + (n / 64) % 64, 0x80 + n % 64]
    else [0xF0 + n / 262144, 0x80 + (n / 4096) % 64, 0x80 + (n / 64) % 64, 0x80 + n % 64]
  }

  function Utf8Text(s: string): (r: seq<Byte>)
    ensures |r| >= |s|
  {
    if |s| == 0 then [] else Utf8(s[0]) + Utf8Text(s[1..])
  }

  predicate Unreserved(b: Byte) {
    ('A' as int <= b <= 'Z' as int) || ('a' as int <= b <= 'z' as int) ||
    ('0' as int <= b <= '9' as int) ||
    b == '-' as int || b == '_' as int || b == '.' as int || b == '~' as int
  }

  predicate UnreservedChar(c: char) {
    (c as int) < 0x80 && Unreserved(c as int)
  }

  function HexDigit(d: nat): (r: char)
    requires d < 16
  {
    "0123456789ABCDEF"[d]
  }

  function HexValue(c: char): Option<nat> {
    if '0' <= c <= '9' then Some(c as int - '0' as int)
    else if 'A' <= c <= 'F' then Some(c as int - 'A' as int + 10)
    else None
  }

  function EncodeByte(b: Byte): (r: string)
    ensures Unreserved(b) ==> r == [b as char]
    ensures !Unreserved(b) ==> |r| == 3 && r[0] == '%'
  {
    if Unreserved(b) then [b as char] else ['%', HexDigit(b / 16), HexDigit(b % 16)]
  }

  function EncodeBytes(bs: seq<Byte>): string {
    if |bs| == 0 then "" else EncodeByte(bs[0]) + EncodeBytes(bs[1..])
  }

  /** `urlencoding::encode(s)`. */
  function Encode(s: string): string {
    EncodeBytes(Utf8Text(s))
  }

  /** The characters an encoded text can contain. */
  predicate EncodedChar(c: char) {
    UnreservedChar(c) || c == '%' || HexValue(c).Some?
  }

  /** Percent-decoding of text in the shape `EncodeBytes` produces. */
  function DecodeBytes(s: string): Option<seq<Byte>>
    decreases |s|
  {
    if |s| == 0 then Some([])
    else if s[0] == '%' then
      if |s| < 3 then None
      else match (HexValue(s[1]), HexValue(s[2]))
        case (Some(hi), Some(lo)) =>
          (match DecodeBytes(s[3..])
           case None => None
           case Some(rest) => Some([hi * 16 + lo] + rest))
        case _ => None
    else if UnreservedChar(s[0]) then
      match DecodeBytes(s[1..])
      case None => None
      case Some(rest) => Some([s[0] as int] + rest)
    else None
  }

  lemma HexRoundTrip(d: nat)
    requires d < 16
    ensures HexValue(HexDigit(d)) == Some(d)
  {
  }

  /** Decoding undoes encoding, byte for byte. */
  lemma {:induction false} DecodeEncode(bs: seq<Byte>)
    ensures DecodeBytes(EncodeBytes(bs)) == Some(bs)
  {
    if |bs| > 0 {
      var b := bs[0];
      DecodeEncode(bs[1..]);
      var e := EncodeBytes(bs);
      assert e == EncodeByte(b) + EncodeBytes(bs[1..]);
      if Unreserved(b) {
        assert e[0] == b as char && e[1..] == EncodeBytes(bs[1..]);
      } else {
        HexRoundTrip(b / 16);
        HexRoundTrip(b % 16);
        assert e[0] == '%' && e[3..] == EncodeBytes(bs[1..]);
      }
      assert bs == [b] + bs[1..];
    }
  }

  /** Encoding is injective on byte strings: distinct inputs never collide. */
  lemma EncodeInjective(a: seq<Byte>, b: seq<Byte>)
    requires EncodeBytes(a) == EncodeBytes(b)
    ensures a == b
  {
    DecodeEncode(a);
    DecodeEncode(b);
  }

  /** Every character of an encoding is unreserved, `%` or a hexadecimal digit. */
  lemma {:induction false} EncodedAlphabet(bs: seq<Byte>)
    ensures forall i :: 0 <= i < |EncodeBytes(bs)| ==> EncodedChar(EncodeBytes(bs)[i])
  {
    if |bs| > 0 {
      EncodedAlphabet(bs[1..]);
      var head := EncodeByte(bs[0]);
      if !Unreserved(bs[0]) {
        HexRoundTrip(bs[0] / 16);
        HexRoundTrip(bs[0] % 16);
      }
      assert forall i :: 0 <= i < |head| ==> EncodedChar(head[i]);
    }
  }

  /** A text made of unreserved characters is its own encoding. */
  lemma {:induction false} EncodeUnreservedIdentity(s: string)
    requires forall i :: 0 <= i < |s| ==> UnreservedChar(s[i])
    ensures Encode(s) == s
  {
    if |s| > 0 {
      EncodeUnreservedIdentity(s[1..]);
      assert Utf8Text(s) == [s[0] as int] + Utf8Text(s[1..]);
      assert EncodeBytes(Utf8Text(s)) == [s[0]] + EncodeBytes(Utf8Text(s[1..]));
      assert s == [s[0]] + s[1..];
    }
  }

  /** An encoded text holds no character that is reserved in a URL path or template. */
  lemma EncodedHasNoDelimiters(s: string)
    ensures '/' !in Encode(s) && '{' !in Encode(s) && '}' !in Encode(s)
    ensures ' ' !in Encode(s) && '?' !in Encode(s) && '&' !in Encode(s) && '=' !in Encode(s)
  {
    EncodedAlphabet(Utf8Text(s));
    var e := Encode(s);
    assert forall i :: 0 <= i < |e| ==> e[i] !in "/{} ?&=";
  }

  lemma {:induction false} Utf8TextConcat(a: string, b: string)
    ensures Utf8Text(a + b) == Utf8Text(a) + Utf8Text(b)
  {
    if |a| > 0 {
      assert (a + b)[1..] == a[1..] + b;
      Utf8TextConcat(a[1..], b);
    } else {
      assert a + b == b;
    }
  }

  lemma {:induction false} EncodeBytesConcat(a: seq<Byte>, b: seq<Byte>)
    ensures EncodeBytes(a + b) == EncodeBytes(a) + EncodeBytes(b)
  {
    if |a| > 0 {
      assert (a + b)[1..] == a[1..] + b;
      EncodeBytesConcat(a[1..], b);
    } else {
      assert a + b == b;
    }
  }

  /** Encoding works piecewise: the encoding of a concatenation is the concatenation of the encodings. */
  lemma EncodeConcat(a: string, b: string)
    ensures Encode(a + b) == Encode(a) + Encode(b)
  {
    Utf8TextConcat(a, b);
    EncodeBytesConcat(Utf8Text(a), Utf8Text(b));
  }
}
