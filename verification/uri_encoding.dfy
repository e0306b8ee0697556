/**
 * `encodeURIComponent` (ECMA-262, section 19.2.6.5 "encodeURIComponent ( uriComponent )"),
 * the escape of the "LastFm" and "RYM search" links.
 *
 * Characters of the unreserved set are copied; every other character is
 * written as the UTF-8 encoding of its code point, each byte as `%XX` with
 * upper-case hexadecimal digits.
 */
module UriEncoding {

  type Byte = b: int | 0 <= b < 0x100

  /** uriAlpha, DecimalDigit and uriMark: the characters encodeURIComponent leaves alone. */
  predicate IsUnreserved(c: char) {
    ('A' <= c <= 'Z') || ('a' <= c <= 'z') || ('0' <= c <= '9')
    || c == '-' || c == '_' || c == '.' || c == '!' || c == '~' || c == '*' || c == '\'' || c == '(' || c == ')'
  }

  /** The UTF-8 encoding of one Unicode scalar value. */
  function Utf8(c: char): (bs: seq<Byte>)
    ensures 1 <= |bs| <= 4
  {
    var v := c as int;
    if v < 0x80 then [v]
    else if v < 0x800 then [0xC0 + v / 0x40, 0x80 + v % 0x40]
    else if v < 0x1_0000 then [0xE0 + v / 0x1000, 0x80 + (v / 0x40) % 0x40, 0x80 + v % 0x40]
    else [0xF0 + v / 0x4_0000, 0x80 + (v / 0x1000) % 0x40, 0x80 + (v / 0x40) % 0x40, 0x80 + v % 0x40]
  }

  /** The code point a well-formed UTF-8 sequence of one to four bytes stands for. */
  function Utf8Decode(bs: seq<Byte>): int
    requires 1 <= |bs| <= 4
  {
    var b: seq<int> := bs;
    if |b| == 1 then b[0]
    else if |b| == 2 then (b[0] - 0xC0) * 0x40 + (b[1] - 0x80)
    else if |b| == 3 then ((b[0] - 0xE0) * 0x40 + (b[1] - 0x80)) * 0x40 + (b[2] - 0x80)
    else (((b[0] - 0xF0) * 0x40 + (b[1] - 0x80)) * 0x40 + (b[2] - 0x80)) * 0x40 + (b[3] - 0x80)
  }

  /** Splitting a number below `0x40 * m` into its high part and its low six bits. */
  lemma SixBits(v: int)
    requires 0 <= v
    ensures v == v / 0x40 * 0x40 + v % 0x40 && v % 0x40 < 0x40
  {
  }

  /** Decoding the UTF-8 encoding of a character gives back its code point, and only ASCII takes one byte. */
  lemma Utf8RoundTrip(c: char)
    ensures Utf8Decode(Utf8(c)) == c as int
    ensures (|Utf8(c)| == 1) == (c as int < 0x80)
  {
    var v := c as int;
    SixBits(v);
    SixBits(v / 0x40);
    SixBits(v / 0x1000);
    assert v / 0x40 / 0x40 == v / 0x1000;
    assert v / 0x1000 / 0x40 == v / 0x4_0000;
  }

  predicate IsHexDigit(c: char) {
    ('0' <= c <= '9') || ('A' <= c <= 'F')
  }

  /** The upper-case hexadecimal digit of a number below 16. */
  function HexDigit(n: nat): (c: char)
    requires n < 16
    ensures IsHexDigit(c)
  {
    if n < 10 then (n + '0' as int) as char else (n - 10 + 'A' as int) as char
  }

  /** The number a hexadecimal digit stands for; the inverse of `HexDigit`. */
  function HexValue(c: char): (v: nat)
    requires IsHexDigit(c)
    ensures v < 16 && HexDigit(v) == c
  {
    if '0' <= c <= '9' then c as int - '0' as int else c as int - 'A' as int + 10
  }

  /** A byte as two upper-case hexadecimal digits. */
  function Hex(b: Byte): string {
    [HexDigit(b / 16), HexDigit(b % 16)]
  }

  /** Each byte as `%XX`. */
  function PercentEncode(bs: seq<Byte>): (r: string)
    ensures |r| == 3 * |bs|
    ensures forall i :: 0 <= i < |r| ==> r[i] == '%' || IsHexDigit(r[i])
  {
    if bs == [] then [] else "%" + Hex(bs[0]) + PercentEncode(bs[1..])
  }

  /** What encodeURIComponent writes for one character. */
  function EncodeChar(c: char): string {
    if IsUnreserved(c) then [c] else PercentEncode(Utf8(c))
  }

  /** encodeURIComponent: the result is made only of unreserved characters and `%`. */
  function EncodeURIComponent(s: string): (r: string)
    ensures forall i :: 0 <= i < |r| ==> IsUnreserved(r[i]) || r[i] == '%'
    ensures |r| >= |s|
    decreases |s|
  {
    if s == [] then []
    else
      var e := EncodeChar(s[0]);
      assert forall i :: 0 <= i < |e| ==> IsUnreserved(e[i]) || e[i] == '%';
      e + EncodeURIComponent(s[1..])
  }

  /** The UTF-8 encoding of a whole string. */
  function Utf8String(s: string): seq<Byte> {
    if s == [] then [] else Utf8(s[0]) + Utf8String(s[1..])
  }

  /**
   * Percent-decoding to bytes: `%XX` stands for the byte XX, any other
   * character for its own code point.
   */
  function Unescape(s: string): seq<int>
    decreases |s|
  {
    if s == [] then []
    else if |s| >= 3 && s[0] == '%' && IsHexDigit(s[1]) && IsHexDigit(s[2]) then
      [HexValue(s[1]) * 16 + HexValue(s[2])] + Unescape(s[3..])
    else
      [s[0] as int] + Unescape(s[1..])
  }

  /** `%XX` decodes to the byte XX. */
  lemma UnescapeByte(b: Byte, rest: string)
    ensures Unescape("%" + Hex(b) + rest) == [b] + Unescape(rest)
  {
    var t := "%" + Hex(b) + rest;
    assert t[1] == HexDigit(b / 16) && t[2] == HexDigit(b % 16);
    assert HexValue(t[1]) == b / 16 && HexValue(t[2]) == b % 16;
    assert t[3..] == rest;
  }

  lemma {:induction false} UnescapePercentEncode(bs: seq<Byte>, rest: string)
    ensures Unescape(PercentEncode(bs) + rest) == bs + Unescape(rest)
    decreases |bs|
  {
    if bs != [] {
      var tail := PercentEncode(bs[1..]);
      assert PercentEncode(bs) + rest == "%" + Hex(bs[0]) + (tail + rest);
      UnescapeByte(bs[0], tail + rest);
      UnescapePercentEncode(bs[1..], rest);
      assert bs == [bs[0]] + bs[1..];
    } else {
      assert PercentEncode(bs) + rest == rest;
    }
  }

  /** Percent-decoding what encodeURIComponent produced gives back the UTF-8 bytes of the input. */
  lemma {:induction false} UnescapeEncode(s: string)
    ensures Unescape(EncodeURIComponent(s)) == Utf8String(s)
    decreases |s|
  {
    if s != [] {
      var c := s[0];
      var rest := EncodeURIComponent(s[1..]);
      assert EncodeURIComponent(s) == EncodeChar(c) + rest;
      if IsUnreserved(c) {
        assert (EncodeChar(c) + rest)[1..] == rest;
      } else {
        UnescapePercentEncode(Utf8(c), rest);
      }
      UnescapeEncode(s[1..]);
    }
  }

  /** encodeURIComponent leaves a string unchanged exactly when all its characters are unreserved. */
  lemma {:induction false} EncodeFixedPoint(s: string)
    ensures EncodeURIComponent(s) == s <==> forall i :: 0 <= i < |s| ==> IsUnreserved(s[i])
    decreases |s|
  {
    if s != [] {
      EncodeFixedPoint(s[1..]);
      var e := EncodeChar(s[0]);
      var rest := EncodeURIComponent(s[1..]);
      if IsUnreserved(s[0]) {
        assert EncodeURIComponent(s) == [s[0]] + rest;
        assert s == [s[0]] + s[1..];
        assert (forall i :: 0 <= i < |s| ==> IsUnreserved(s[i])) <==> (forall i :: 0 <= i < |s[1..]| ==> IsUnreserved(s[1..][i]));
      } else {
        assert |e| >= 3;
        assert |EncodeURIComponent(s)| > |s|;
      }
    }
  }

  /** Encoding distributes over concatenation: each character is escaped on its own. */
  lemma {:induction false} EncodeConcat(a: string, b: string)
    ensures EncodeURIComponent(a + b) == EncodeURIComponent(a) + EncodeURIComponent(b)
    decreases |a|
  {
    if a == [] {
      assert a + b == b;
    } else {
      assert (a + b)[1..] == a[1..] + b;
      EncodeConcat(a[1..], b);
    }
  }

  /** A reserved ASCII character is written as `%` and the two hexadecimal digits of its code. */
  lemma EncodeReservedAscii(c: char)
    requires c as int < 0x80 && !IsUnreserved(c)
    ensures EncodeURIComponent([c]) == "%" + Hex(c as int)
  {
    assert Utf8(c) == [c as int];
    assert [c][1..] == [];
  }

  /** The braces around a token are written `%7B` and `%7D`. */
  lemma EncodeBraces()
    ensures EncodeURIComponent("{") == "%7B"
    ensures EncodeURIComponent("}") == "%7D"
  {
    EncodeReservedAscii('{');
    EncodeReservedAscii('}');
    assert Hex('{' as int) == [HexDigit(7), HexDigit(11)];
    assert Hex('}' as int) == [HexDigit(7), HexDigit(13)];
  }
}
