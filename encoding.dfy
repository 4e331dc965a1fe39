/**
  The two text encodings of random bytes that the site relies on:

  - base64 with the standard alphabet of section 4 of RFC 4648, which is
    what `btoa(String.fromCharCode(...bytes))` yields in the browser;
  - lower-case hexadecimal, which is what PHP's `bin2hex` yields.

  Each encoder is paired with a decoder and a round-trip lemma, so that
  distinct random byte strings are known to give distinct tokens.
*/
module Encoding {
  import opened Common

  // ---------------------------------------------------------------------
  // Base64, section 4 of RFC 4648
  // ---------------------------------------------------------------------

  /** Table 1 of RFC 4648: 0..25 -> 'A'..'Z', 26..51 -> 'a'..'z', 52..61 -> '0'..'9', 62 -> '+', 63 -> '/'. */
  function Base64Digit(i: int): (c: char)
    requires 0 <= i < 64
  {
    if i < 26 then ('A' as int + i) as char
    else if i < 52 then ('a' as int + (i - 26)) as char
    else if i < 62 then ('0' as int + (i - 52)) as char
    else if i == 62 then '+'
    else '/'
  }

  /** The 64 characters of the base64 alphabet (the pad character '=' is not one of them). */
  predicate IsBase64Digit(c: char) {
    ('A' <= c <= 'Z') || ('a' <= c <= 'z') || ('0' <= c <= '9') || c == '+' || c == '/'
  }

  /** The value of a base64 character: the inverse of Base64Digit. */
  function Base64Value(c: char): (i: int)
    requires IsBase64Digit(c)
    ensures 0 <= i < 64 && Base64Digit(i) == c
  {
    if 'A' <= c <= 'Z' then c as int - 'A' as int
    else if 'a' <= c <= 'z' then c as int - 'a' as int + 26
    else if '0' <= c <= '9' then c as int - '0' as int + 52
    else if c == '+' then 62
    else 63
  }

  lemma Base64DigitValue(i: int)
    requires 0 <= i < 64
    ensures IsBase64Digit(Base64Digit(i)) && Base64Value(Base64Digit(i)) == i
  {
  }

  /** Three bytes (24 bits) become four 6-bit digits, most significant first. */
  function EncodeGroup(b0: uint8, b1: uint8, b2: uint8): (s: string)
  {
    [Base64Digit(b0 / 4), Base64Digit((b0 % 4) * 16 + b1 / 16),
     Base64Digit((b1 % 16) * 4 + b2 / 64), Base64Digit(b2 % 64)]
  }

  /**
    Base64 with padding: full groups of three bytes, then a final group of
    one byte (two digits and "==") or two bytes (three digits and "=").
  */
  function Base64Encode(b: seq<uint8>): (s: string)
    ensures |s| == 4 * ((|b| + 2) / 3)
    decreases |b|
  {
    if |b| == 0 then []
    else if |b| == 1 then [Base64Digit(b[0] / 4), Base64Digit((b[0] % 4) * 16)] + "=="
    else if |b| == 2 then
      [Base64Digit(b[0] / 4), Base64Digit((b[0] % 4) * 16 + b[1] / 16), Base64Digit((b[1] % 16) * 4)] + "="
    else EncodeGroup(b[0], b[1], b[2]) + Base64Encode(b[3..])
  }

  /** Four digits back to three bytes. */
  function DecodeGroup(c0: char, c1: char, c2: char, c3: char): (r: seq<uint8>)
    requires IsBase64Digit(c0) && IsBase64Digit(c1) && IsBase64Digit(c2) && IsBase64Digit(c3)
    ensures |r| == 3
  {
    var v0, v1, v2, v3 := Base64Value(c0), Base64Value(c1), Base64Value(c2), Base64Value(c3);
    [v0 * 4 + v1 / 16, (v1 % 16) * 16 + v2 / 4, (v2 % 4) * 64 + v3]
  }

  /** A decoder for padded base64; `None` for text that is not of that form. */
  function Base64Decode(s: string): (r: Option<seq<uint8>>)
    decreases |s|
  {
    if |s| == 0 then Some([])
    else if |s| < 4 || !IsBase64Digit(s[0]) || !IsBase64Digit(s[1]) then None
    else if |s| == 4 && s[2] == '=' && s[3] == '=' then
      Some([Base64Value(s[0]) * 4 + Base64Value(s[1]) / 16])
    else if |s| == 4 && IsBase64Digit(s[2]) && s[3] == '=' then
      var v0, v1, v2 := Base64Value(s[0]), Base64Value(s[1]), Base64Value(s[2]);
      Some([v0 * 4 + v1 / 16, (v1 % 16) * 16 + v2 / 4])
    else if IsBase64Digit(s[2]) && IsBase64Digit(s[3]) then
      match Base64Decode(s[4..])
      case None => None
      case Some(rest) => Some(DecodeGroup(s[0], s[1], s[2], s[3]) + rest)
    else None
  }

  /** Splitting a value into a quotient and a remainder by 16 or by 4, and joining them again. */
  lemma SplitJoin(hi: int, lo: int)
    requires 0 <= hi && 0 <= lo
    ensures lo < 16 ==> (hi * 16 + lo) / 16 == hi && (hi * 16 + lo) % 16 == lo
    ensures lo < 4 ==> (hi * 4 + lo) / 4 == hi && (hi * 4 + lo) % 4 == lo
  {
  }

  /** The arithmetic of one group: the four 6-bit digits join back into the three bytes. */
  lemma GroupArith(b0: uint8, b1: uint8, b2: uint8)
    ensures (b0 / 4) * 4 + ((b0 % 4) * 16 + b1 / 16) / 16 == b0
    ensures (((b0 % 4) * 16 + b1 / 16) % 16) * 16 + ((b1 % 16) * 4 + b2 / 64) / 4 == b1
    ensures (((b1 % 16) * 4 + b2 / 64) % 4) * 64 + b2 % 64 == b2
  {
    SplitJoin(b0 % 4, b1 / 16);
    SplitJoin(b1 % 16, b2 / 64);
  }

  /** Decoding four digits of given values. */
  lemma DecodeDigits(i0: int, i1: int, i2: int, i3: int)
    requires 0 <= i0 < 64 && 0 <= i1 < 64 && 0 <= i2 < 64 && 0 <= i3 < 64
    requires 0 <= i0 * 4 + i1 / 16 < 256 && 0 <= (i1 % 16) * 16 + i2 / 4 < 256 && 0 <= (i2 % 4) * 64 + i3 < 256
    ensures IsBase64Digit(Base64Digit(i0)) && IsBase64Digit(Base64Digit(i1))
    ensures IsBase64Digit(Base64Digit(i2)) && IsBase64Digit(Base64Digit(i3))
    ensures DecodeGroup(Base64Digit(i0), Base64Digit(i1), Base64Digit(i2), Base64Digit(i3))
      == [i0 * 4 + i1 / 16, (i1 % 16) * 16 + i2 / 4, (i2 % 4) * 64 + i3]
  {
    Base64DigitValue(i0);
    Base64DigitValue(i1);
    Base64DigitValue(i2);
    Base64DigitValue(i3);
  }

  lemma GroupRoundTrip(b0: uint8, b1: uint8, b2: uint8)
    ensures var g := EncodeGroup(b0, b1, b2);
      IsBase64Digit(g[0]) && IsBase64Digit(g[1]) && IsBase64Digit(g[2]) && IsBase64Digit(g[3]) &&
      DecodeGroup(g[0], g[1], g[2], g[3]) == [b0, b1, b2]
  {
    var i0, i1, i2, i3 := b0 / 4, (b0 % 4) * 16 + b1 / 16, (b1 % 16) * 4 + b2 / 64, b2 % 64;
    GroupArith(b0, b1, b2);
    assert i0 * 4 + i1 / 16 == b0 && (i1 % 16) * 16 + i2 / 4 == b1 && (i2 % 4) * 64 + i3 == b2;
    DecodeDigits(i0, i1, i2, i3);
    assert EncodeGroup(b0, b1, b2) == [Base64Digit(i0), Base64Digit(i1), Base64Digit(i2), Base64Digit(i3)];
  }

  lemma OneByteArith(x: uint8)
    ensures (x / 4) * 4 + ((x % 4) * 16) / 16 == x
  {
    SplitJoin(x % 4, 0);
  }

  /** The final group of a one-byte tail: two digits and "==". */
  lemma OneByteRoundTrip(x: uint8)
    ensures Base64Decode(Base64Encode([x])) == Some([x])
  {
    var i0, i1 := x / 4, (x % 4) * 16;
    Base64DigitValue(i0);
    Base64DigitValue(i1);
    OneByteArith(x);
    var s := Base64Encode([x]);
    assert s == [Base64Digit(i0), Base64Digit(i1), '=', '='];
  }

  lemma TwoByteArith(x: uint8, y: uint8)
    ensures (x / 4) * 4 + ((x % 4) * 16 + y / 16) / 16 == x
    ensures (((x % 4) * 16 + y / 16) % 16) * 16 + ((y % 16) * 4) / 4 == y
  {
    SplitJoin(x % 4, y / 16);
    SplitJoin(y % 16, 0);
  }

  /** The final group of a two-byte tail: three digits and "=". */
  lemma TwoByteRoundTrip(x: uint8, y: uint8)
    ensures Base64Decode(Base64Encode([x, y])) == Some([x, y])
  {
    var i0, i1, i2 := x / 4, (x % 4) * 16 + y / 16, (y % 16) * 4;
    Base64DigitValue(i0);
    Base64DigitValue(i1);
    Base64DigitValue(i2);
    TwoByteArith(x, y);
    var s := Base64Encode([x, y]);
    assert s == [Base64Digit(i0), Base64Digit(i1), Base64Digit(i2), '='];
  }

  /** A leading group of four alphabet digits is decoded on its own, and the rest after it. */
  lemma DecodeLeadingGroup(b: seq<uint8>, g: string, t: string)
    requires |b| >= 3 && |g| == 4
    requires IsBase64Digit(g[0]) && IsBase64Digit(g[1]) && IsBase64Digit(g[2]) && IsBase64Digit(g[3])
    requires DecodeGroup(g[0], g[1], g[2], g[3]) == [b[0], b[1], b[2]]
    requires Base64Decode(t) == Some(b[3..])
    ensures Base64Decode(g + t) == Some(b)
  {
    var s := g + t;
    assert s[0] == g[0] && s[1] == g[1] && s[2] == g[2] && s[3] == g[3];
    assert s[4..] == t;
    assert [b[0], b[1], b[2]] + b[3..] == b;
  }

  lemma EncodeSplit(b: seq<uint8>)
    requires |b| >= 3
    ensures Base64Encode(b) == EncodeGroup(b[0], b[1], b[2]) + Base64Encode(b[3..])
  {
  }

  /** One step of the round trip: a leading group of three bytes, given the round trip of the rest. */
  lemma GroupStep(b: seq<uint8>)
    requires |b| >= 3 && Base64Decode(Base64Encode(b[3..])) == Some(b[3..])
    ensures Base64Decode(Base64Encode(b)) == Some(b)
  {
    EncodeSplit(b);
    GroupRoundTrip(b[0], b[1], b[2]);
    DecodeLeadingGroup(b, EncodeGroup(b[0], b[1], b[2]), Base64Encode(b[3..]));
  }

  /** Decoding undoes encoding, for every byte string. */
  lemma {:induction false} Base64RoundTrip(b: seq<uint8>)
    ensures Base64Decode(Base64Encode(b)) == Some(b)
    decreases |b|
  {
    if |b| == 1 {
      OneByteRoundTrip(b[0]);
      assert [b[0]] == b;
    } else if |b| == 2 {
      TwoByteRoundTrip(b[0], b[1]);
      assert [b[0], b[1]] == b;
    } else if |b| >= 3 {
      Base64RoundTrip(b[3..]);
      GroupStep(b);
    }
  }

  /** Distinct byte strings have distinct encodings. */
  lemma Base64Injective(a: seq<uint8>, b: seq<uint8>)
    requires Base64Encode(a) == Base64Encode(b)
    ensures a == b
  {
    Base64RoundTrip(a);
    Base64RoundTrip(b);
  }

  /** A whole number of three-byte groups is encoded with alphabet digits only: no padding. */
  lemma {:induction false} Base64Unpadded(b: seq<uint8>)
    requires |b| % 3 == 0
    ensures forall k :: 0 <= k < |Base64Encode(b)| ==> IsBase64Digit(Base64Encode(b)[k])
    decreases |b|
  {
    if |b| > 0 {
      GroupRoundTrip(b[0], b[1], b[2]);
      Base64Unpadded(b[3..]);
    }
  }

  // ---------------------------------------------------------------------
  // Hexadecimal, PHP's bin2hex
  // ---------------------------------------------------------------------

  /** 0..9 -> '0'..'9', 10..15 -> 'a'..'f'. */
  function HexDigit(i: int): (c: char)
    requires 0 <= i < 16
  {
    if i < 10 then ('0' as int + i) as char else ('a' as int + (i - 10)) as char
  }

  predicate IsLowerHexDigit(c: char) {
    ('0' <= c <= '9') || ('a' <= c <= 'f')
  }

  function HexValue(c: char): (i: int)
    requires IsLowerHexDigit(c)
    ensures 0 <= i < 16 && HexDigit(i) == c
  {
    if '0' <= c <= '9' then c as int - '0' as int else c as int - 'a' as int + 10
  }

  /** `bin2hex`: every byte becomes two lower-case hex digits, high nibble first. */
  function Bin2Hex(b: seq<uint8>): (s: string)
    ensures |s| == 2 * |b|
    ensures forall k :: 0 <= k < |s| ==> IsLowerHexDigit(s[k])
  {
    if |b| == 0 then [] else [HexDigit(b[0] / 16), HexDigit(b[0] % 16)] + Bin2Hex(b[1..])
  }

  /** A decoder for lower-case hex text; `None` for odd length or a foreign character. */
  function HexDecode(s: string): (r: Option<seq<uint8>>)
    decreases |s|
  {
    if |s| == 0 then Some([])
    else if |s| == 1 || !IsLowerHexDigit(s[0]) || !IsLowerHexDigit(s[1]) then None
    else
      match HexDecode(s[2..])
      case None => None
      case Some(rest) => Some([HexValue(s[0]) * 16 + HexValue(s[1])] + rest)
  }

  lemma {:induction false} HexRoundTrip(b: seq<uint8>)
    ensures HexDecode(Bin2Hex(b)) == Some(b)
  {
    if |b| > 0 {
      var s := Bin2Hex(b);
      HexRoundTrip(b[1..]);
      assert s[2..] == Bin2Hex(b[1..]);
      assert HexValue(s[0]) == b[0] / 16 && HexValue(s[1]) == b[0] % 16;
      assert [b[0]] + b[1..] == b;
    }
  }

  /** Distinct byte strings have distinct hex encodings. */
  lemma Bin2HexInjective(a: seq<uint8>, b: seq<uint8>)
    requires Bin2Hex(a) == Bin2Hex(b)
    ensures a == b
  {
    HexRoundTrip(a);
    HexRoundTrip(b);
  }
}
