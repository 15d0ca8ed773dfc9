/** src/internal/encoding.ts: the Payfast value encoder and the form-component
    decoder.

    `encodePayfastValue` is `encodeURIComponent` (section 19.2.6.5 of ECMA-262,
    which percent-encodes the UTF-8 bytes of every character outside the
    uriUnreserved set, section 2.1 of RFC 3986) followed by two regular-expression
    rewrites: escapes are uppercased and `%20` becomes `+`. `decodeFormComponent`
    turns `+` into a space and then applies `decodeURIComponent`. */
module Encoding {
  import opened Errors
  import opened Text

  type Byte = b: int | 0 <= b < 256

  /** The characters encodeURIComponent leaves unescaped. */
  predicate IsUnreserved(c: char) {
    || ('A' <= c <= 'Z') || ('a' <= c <= 'z') || IsDigit(c)
    || c == '-' || c == '_' || c == '.' || c == '!' || c == '~' || c == '*'
    || c == '\'' || c == '(' || c == ')'
  }

  /** The uppercase hex digit of a value below 16. */
  function HexDigit(d: nat): (c: char)
    requires d < 16
    ensures IsUpperHexDigit(c) && IsHexDigit(c)
  {
    if d < 10 then ('0' as int + d) as char else ('A' as int + d - 10) as char
  }

  function HexValue(c: char): (v: nat)
    requires IsHexDigit(c)
    ensures v < 16
  {
    if IsDigit(c) then c as int - '0' as int
    else if 'a' <= c <= 'f' then c as int - 'a' as int + 10
    else c as int - 'A' as int + 10
  }

  lemma HexValueOfDigit(d: nat)
    requires d < 16
    ensures HexValue(HexDigit(d)) == d
  {
  }

  /** The byte that the escape `%hi lo` stands for. */
  function EscapeByte(hi: char, lo: char): Byte
    requires IsHexDigit(hi) && IsHexDigit(lo)
  {
    HexValue(hi) * 16 + HexValue(lo)
  }

  /** The escape of one byte, as encodeURIComponent writes it (uppercase hex). */
  function PercentByte(b: Byte): string {
    ['%', HexDigit(b / 16), HexDigit(b % 16)]
  }

  function PercentBytes(bs: seq<Byte>): (s: string)
    ensures |s| == 3 * |bs|
    decreases |bs|
  {
    if |bs| == 0 then "" else PercentByte(bs[0]) + PercentBytes(bs[1..])
  }

  lemma PercentByteValue(b: Byte)
    ensures EscapeByte(PercentByte(b)[1], PercentByte(b)[2]) == b
  {
    HexValueOfDigit(b / 16);
    HexValueOfDigit(b % 16);
  }

  /** The UTF-8 encoding of one Unicode scalar value. */
  function Utf8(c: char): (bs: seq<Byte>)
    ensures 1 <= |bs| <= 4
  {
    var n := c as int;
    if n < 0x80 then [n]
    else if n < 0x800 then [0xC0 + n / 64, 0x80 + n % 64]
    else if n < 0x10000 then
      var q := n / 64;
      [0xE0 + q / 64, 0x80 + q % 64, 0x80 + n % 64]
    else
      var q := n / 64;
      var q2 := q / 64;
      [0xF0 + q2 / 64, 0x80 + q2 % 64, 0x80 + q % 64, 0x80 + n % 64]
  }

  // ---------------------------------------------------------------------------
  // Encoding

  /** What encodeURIComponent does to one character. */
  function EncodeUriChar(c: char): string {
    if IsUnreserved(c) then [c] else PercentBytes(Utf8(c))
  }

  /** `encodeURIComponent(s)`. A Dafny string holds Unicode scalar values only, so the
      URIError JavaScript throws on a lone surrogate is not modelled. */
  function EncodeUriComponent(s: string): string
    decreases |s|
  {
    if |s| == 0 then "" else EncodeUriChar(s[0]) + EncodeUriComponent(s[1..])
  }

  /** `.replace(/%[0-9a-f]{2}/gi, (match) => match.toUpperCase())`. */
  function UppercaseEscapes(s: string): string
    decreases |s|
  {
    if |s| >= 3 && s[0] == '%' && IsHexDigit(s[1]) && IsHexDigit(s[2]) then
      ['%', ToUpperChar(s[1]), ToUpperChar(s[2])] + UppercaseEscapes(s[3..])
    else if |s| == 0 then ""
    else [s[0]] + UppercaseEscapes(s[1..])
  }

  /** `.replace(/%20/g, "+")`. */
  function ReplacePercent20(s: string): string
    decreases |s|
  {
    if |s| >= 3 && s[0] == '%' && s[1] == '2' && s[2] == '0' then "+" + ReplacePercent20(s[3..])
    else if |s| == 0 then ""
    else [s[0]] + ReplacePercent20(s[1..])
  }

  /** encodePayfastValue (src/internal/encoding.ts:1-7). */
  function EncodePayfastValue(value: string): string {
    ReplacePercent20(UppercaseEscapes(EncodeUriComponent(value)))
  }

  /** What encodePayfastValue does to one character. */
  function EncodeUnit(c: char): string {
    if c == ' ' then "+" else EncodeUriChar(c)
  }

  function EncodeUnits(s: string): string
    decreases |s|
  {
    if |s| == 0 then "" else EncodeUnit(s[0]) + EncodeUnits(s[1..])
  }

  lemma {:induction false} UppercaseEscapesOfPercentBytes(bs: seq<Byte>, t: string)
    ensures UppercaseEscapes(PercentBytes(bs) + t) == PercentBytes(bs) + UppercaseEscapes(t)
    decreases |bs|
  {
    if |bs| > 0 {
      var p := PercentByte(bs[0]);
      var s := PercentBytes(bs) + t;
      var rest := PercentBytes(bs[1..]) + t;
      assert s == p + rest;
      assert s[0] == '%' && s[1] == p[1] && s[2] == p[2];
      assert ToUpperChar(p[1]) == p[1] && ToUpperChar(p[2]) == p[2];
      assert s[3..] == rest;
      UppercaseEscapesOfPercentBytes(bs[1..], t);
      calc {
        UppercaseEscapes(s);
        ['%', p[1], p[2]] + UppercaseEscapes(rest);
        p + (PercentBytes(bs[1..]) + UppercaseEscapes(t));
        PercentBytes(bs) + UppercaseEscapes(t);
      }
    } else {
      assert PercentBytes(bs) + t == t;
    }
  }

  lemma {:induction false} UppercaseEscapesUnchanged(s: string)
    ensures UppercaseEscapes(EncodeUriComponent(s)) == EncodeUriComponent(s)
    decreases |s|
  {
    if |s| > 0 {
      var rest := EncodeUriComponent(s[1..]);
      UppercaseEscapesUnchanged(s[1..]);
      if IsUnreserved(s[0]) {
        assert ([s[0]] + rest)[1..] == rest;
      } else {
        UppercaseEscapesOfPercentBytes(Utf8(s[0]), rest);
      }
    }
  }

  lemma PercentByteIs20(b: Byte)
    ensures (PercentByte(b)[1] == '2' && PercentByte(b)[2] == '0') <==> b == 32
  {
  }

  lemma ReplacePercent20Cons(x: char, r: string)
    requires x != '%'
    ensures ReplacePercent20([x] + r) == [x] + ReplacePercent20(r)
  {
    assert ([x] + r)[1..] == r;
  }

  lemma ReplacePercent20OtherEscape(b: Byte, r: string)
    requires b != 32
    ensures ReplacePercent20(PercentByte(b) + r) == PercentByte(b) + ReplacePercent20(r)
  {
    var p := PercentByte(b);
    PercentByteIs20(b);
    var s := p + r;
    assert s[0] == '%' && s[1] == p[1] && s[2] == p[2];
    assert s[1..] == [p[1]] + ([p[2]] + r);
    ReplacePercent20Cons(p[1], [p[2]] + r);
    ReplacePercent20Cons(p[2], r);
    assert p == [p[0]] + [p[1]] + [p[2]];
  }

  lemma {:induction false} ReplacePercent20OfPercentBytes(bs: seq<Byte>, t: string)
    requires forall i | 0 <= i < |bs| :: bs[i] != 32
    ensures ReplacePercent20(PercentBytes(bs) + t) == PercentBytes(bs) + ReplacePercent20(t)
    decreases |bs|
  {
    if |bs| > 0 {
      var rest := PercentBytes(bs[1..]) + t;
      assert PercentBytes(bs) + t == PercentByte(bs[0]) + rest;
      ReplacePercent20OtherEscape(bs[0], rest);
      ReplacePercent20OfPercentBytes(bs[1..], t);
    } else {
      assert PercentBytes(bs) + t == t;
    }
  }

  lemma Utf8OfSpace()
    ensures Utf8(' ') == [32] && PercentBytes(Utf8(' ')) == "%20"
  {
    assert PercentBytes([32]) == PercentByte(32) + PercentBytes([]);
  }

  lemma Utf8NotSpace(c: char)
    requires c != ' '
    ensures forall i | 0 <= i < |Utf8(c)| :: Utf8(c)[i] != 32
  {
  }

  lemma {:induction false} ReplacePercent20Units(s: string)
    ensures ReplacePercent20(EncodeUriComponent(s)) == EncodeUnits(s)
    decreases |s|
  {
    if |s| > 0 {
      var rest := EncodeUriComponent(s[1..]);
      ReplacePercent20Units(s[1..]);
      if IsUnreserved(s[0]) {
        assert ([s[0]] + rest)[1..] == rest;
      } else if s[0] == ' ' {
        Utf8OfSpace();
        assert ("%20" + rest)[0] == '%' && ("%20" + rest)[1] == '2' && ("%20" + rest)[2] == '0';
        assert ("%20" + rest)[3..] == rest;
      } else {
        Utf8NotSpace(s[0]);
        ReplacePercent20OfPercentBytes(Utf8(s[0]), rest);
      }
    }
  }

  /** The two rewrites act character by character: the value is the
      concatenation of the encodings of its characters. */
  lemma EncodePayfastValueByUnits(s: string)
    ensures EncodePayfastValue(s) == EncodeUnits(s)
  {
    UppercaseEscapesUnchanged(s);
    ReplacePercent20Units(s);
  }

  lemma {:induction false} EncodeUnitsConcat(a: string, b: string)
    ensures EncodeUnits(a + b) == EncodeUnits(a) + EncodeUnits(b)
    decreases |a|
  {
    if |a| > 0 {
      assert (a + b)[0] == a[0];
      assert (a + b)[1..] == a[1..] + b;
      EncodeUnitsConcat(a[1..], b);
    } else {
      assert a + b == b;
    }
  }

  // ---------------------------------------------------------------------------
  // Properties of the encoder

  lemma {:induction false} EncodeUnitsUnreserved(s: string)
    requires forall i | 0 <= i < |s| :: IsUnreserved(s[i])
    ensures EncodeUnits(s) == s
    decreases |s|
  {
    if |s| > 0 {
      EncodeUnitsUnreserved(s[1..]);
      assert [s[0]] + s[1..] == s;
    }
  }

  /** Unreserved characters pass through unchanged. */
  lemma EncodeKeepsUnreserved(s: string)
    requires forall i | 0 <= i < |s| :: IsUnreserved(s[i])
    ensures EncodePayfastValue(s) == s
  {
    EncodePayfastValueByUnits(s);
    EncodeUnitsUnreserved(s);
  }

  /** A space encodes to `+` and a literal `+` to `%2B`. */
  lemma EncodeSpaceAndPlus()
    ensures EncodePayfastValue(" ") == "+"
    ensures EncodePayfastValue("+") == "%2B"
  {
    EncodePayfastValueByUnits(" ");
    EncodePayfastValueByUnits("+");
    assert Utf8('+') == [43];
    assert PercentBytes([43]) == PercentByte(43) + PercentBytes([]);
  }

  lemma EncodeUnitsOne(c: char)
    ensures EncodeUnits([c]) == EncodeUnit(c)
  {
    assert [c][1..] == "";
  }

  lemma EscapedUnit(c: char, b: Byte)
    requires !IsUnreserved(c) && c != ' ' && c as int == b && b < 0x80
    ensures EncodeUnits([c]) == PercentByte(b)
  {
    EncodeUnitsOne(c);
    assert PercentBytes([b]) == PercentByte(b) + PercentBytes([]);
  }

  lemma ExamplePath()
    ensures EncodeUnits("/a b") == "%2Fa+b"
  {
    EscapedUnit('/', 47);
    EncodeUnitsOne(' ');
    EncodeUnitsUnreserved("a");
    EncodeUnitsUnreserved("b");
    assert PercentByte(47) == "%2F";
    assert "/a b" == "/" + "a" + " " + "b";
    EncodeUnitsConcat("/", "a");
    EncodeUnitsConcat("/a", " ");
    EncodeUnitsConcat("/a ", "b");
  }

  lemma ExampleSlash(r: string)
    ensures EncodeUnits("/" + r) == "%2F" + EncodeUnits(r)
  {
    EscapedUnit('/', 47);
    assert PercentByte(47) == "%2F";
    EncodeUnitsConcat("/", r);
  }

  lemma ExampleColon(r: string)
    ensures EncodeUnits(":" + r) == "%3A" + EncodeUnits(r)
  {
    EscapedUnit(':', 58);
    assert PercentByte(58) == "%3A";
    EncodeUnitsConcat(":", r);
  }

  lemma UnreservedThenPath(host: string)
    requires forall i | 0 <= i < |host| :: IsUnreserved(host[i])
    ensures EncodeUnits(host + "/a b") == host + "%2Fa+b"
  {
    ExamplePath();
    EncodeUnitsUnreserved(host);
    EncodeUnitsConcat(host, "/a b");
  }

  lemma ExampleHostUnreserved(host: string)
    requires host == "example.com"
    ensures forall i | 0 <= i < |host| :: IsUnreserved(host[i])
  {
  }

  lemma ExampleHost(host: string, t: string)
    requires host == "example.com" && t == host + "/a b"
    ensures EncodeUnits(t) == "example.com%2Fa+b"
  {
    ExampleHostUnreserved(host);
    UnreservedThenPath(host);
  }

  lemma ExampleOutput()
    ensures "http" + ("%3A" + ("%2F" + ("%2F" + "example.com%2Fa+b"))) == "http%3A%2F%2Fexample.com%2Fa+b"
  {
  }

  lemma ExampleAfterScheme(url: string)
    requires url == "http://example.com/a b"
    ensures EncodeUnits(url[4..]) == "%3A" + ("%2F" + ("%2F" + "example.com%2Fa+b"))
  {
    var t := "example.com" + "/a b";
    ExampleHost("example.com", t);
    ExampleSlash(t);
    ExampleSlash("/" + t);
    ExampleColon("/" + ("/" + t));
    ExampleUrlParts(url);
  }

  lemma ExampleUrlParts(url: string)
    requires url == "http://example.com/a b"
    ensures url[4..] == ":" + ("/" + ("/" + ("example.com" + "/a b")))
  {
  }

  /** The encoding from test/payfast.test.ts:8-14. */
  lemma EncodeUrlExample(url: string)
    requires url == "http://example.com/a b"
    ensures EncodePayfastValue(url) == "http%3A%2F%2Fexample.com%2Fa+b"
  {
    ExampleAfterScheme(url);
    assert url[..4] == "http";
    EncodeUnitsUnreserved("http");
    assert url == url[..4] + url[4..];
    EncodeUnitsConcat(url[..4], url[4..]);
    ExampleOutput();
    EncodePayfastValueByUnits(url);
  }

  /** Every `%` of the text starts an escape with two uppercase hex digits. */
  predicate UppercaseEscapesOnly(t: string) {
    forall i | 0 <= i < |t| && t[i] == '%' ::
      i + 2 < |t| && IsUpperHexDigit(t[i + 1]) && IsUpperHexDigit(t[i + 2])
  }

  /** Characters an encoded value can contain: unreserved ones, `+` and `%`. */
  predicate IsEncodedChar(c: char) {
    IsUnreserved(c) || c == '+' || c == '%'
  }

  lemma EncodedCharsConcat(a: string, b: string)
    requires forall i | 0 <= i < |a| :: IsEncodedChar(a[i])
    requires forall i | 0 <= i < |b| :: IsEncodedChar(b[i])
    ensures forall i | 0 <= i < |a + b| :: IsEncodedChar((a + b)[i])
  {
    forall i | 0 <= i < |a + b|
      ensures IsEncodedChar((a + b)[i])
    {
      if i < |a| {
        assert (a + b)[i] == a[i];
      } else {
        assert (a + b)[i] == b[i - |a|];
      }
    }
  }

  lemma UppercaseEscapesOnlyConcat(a: string, b: string)
    requires UppercaseEscapesOnly(a) && UppercaseEscapesOnly(b)
    ensures UppercaseEscapesOnly(a + b)
  {
    var t := a + b;
    forall i | 0 <= i < |t| && t[i] == '%'
      ensures i + 2 < |t| && IsUpperHexDigit(t[i + 1]) && IsUpperHexDigit(t[i + 2])
    {
      if i < |a| {
        assert a[i] == '%';
      } else {
        assert b[i - |a|] == '%';
      }
    }
  }

  lemma {:induction false} PercentBytesShape(bs: seq<Byte>)
    ensures UppercaseEscapesOnly(PercentBytes(bs))
    ensures forall i | 0 <= i < |PercentBytes(bs)| :: IsEncodedChar(PercentBytes(bs)[i])
    ensures '+' !in PercentBytes(bs)
    decreases |bs|
  {
    if |bs| > 0 {
      PercentBytesShape(bs[1..]);
      UppercaseEscapesOnlyConcat(PercentByte(bs[0]), PercentBytes(bs[1..]));
    }
  }

  lemma UnitShape(c: char)
    ensures UppercaseEscapesOnly(EncodeUnit(c))
    ensures forall i | 0 <= i < |EncodeUnit(c)| :: IsEncodedChar(EncodeUnit(c)[i])
    ensures multiset(EncodeUnit(c))['+'] == if c == ' ' then 1 else 0
  {
    if !IsUnreserved(c) && c != ' ' {
      PercentBytesShape(Utf8(c));
    }
  }

  lemma {:induction false} EncodeUnitsEscapes(s: string)
    ensures UppercaseEscapesOnly(EncodeUnits(s))
    decreases |s|
  {
    if |s| > 0 {
      EncodeUnitsEscapes(s[1..]);
      UnitShape(s[0]);
      UppercaseEscapesOnlyConcat(EncodeUnit(s[0]), EncodeUnits(s[1..]));
    }
  }

  lemma {:induction false} EncodeUnitsChars(s: string)
    ensures forall i | 0 <= i < |EncodeUnits(s)| :: IsEncodedChar(EncodeUnits(s)[i])
    decreases |s|
  {
    if |s| > 0 {
      EncodeUnitsChars(s[1..]);
      UnitShape(s[0]);
      var u := EncodeUnit(s[0]);
      var r := EncodeUnits(s[1..]);
      assert forall i | 0 <= i < |u + r| :: (u + r)[i] == if i < |u| then u[i] else r[i - |u|];
    }
  }

  lemma UnitPlusCount(c: char)
    ensures multiset(EncodeUnit(c))['+'] == multiset([c])[' ']
  {
    if !IsUnreserved(c) && c != ' ' {
      PercentBytesShape(Utf8(c));
    }
  }

  lemma {:induction false} EncodeUnitsPlusCount(s: string)
    ensures multiset(EncodeUnits(s))['+'] == multiset(s)[' ']
    decreases |s|
  {
    if |s| > 0 {
      var c, tail := s[0], s[1..];
      EncodeUnitsPlusCount(tail);
      UnitPlusCount(c);
      assert EncodeUnits(s) == EncodeUnit(c) + EncodeUnits(tail);
      assert s == [c] + tail;
      assert multiset(s) == multiset([c]) + multiset(tail);
    }
  }

  /** The shape of every encoded value: only unreserved characters, `+` and
      escapes `%XY` with uppercase hex digits; and there are exactly as many `+`
      in the output as spaces in the input, so a `+` always stands for a space. */
  lemma EncodedShape(s: string)
    ensures UppercaseEscapesOnly(EncodePayfastValue(s))
    ensures forall i | 0 <= i < |EncodePayfastValue(s)| :: IsEncodedChar(EncodePayfastValue(s)[i])
    ensures multiset(EncodePayfastValue(s))['+'] == multiset(s)[' ']
  {
    EncodePayfastValueByUnits(s);
    EncodeUnitsEscapes(s);
    EncodeUnitsChars(s);
    EncodeUnitsPlusCount(s);
  }

  /** In particular an encoded value never contains the form separators. */
  lemma EncodedHasNoSeparators(s: string)
    ensures '&' !in EncodePayfastValue(s) && '=' !in EncodePayfastValue(s)
  {
    EncodedShape(s);
  }

  // ---------------------------------------------------------------------------
  // Decoding

  /** `.replace(/\+/g, " ")`. */
  function ReplacePlus(s: string): string {
    seq(|s|, i requires 0 <= i < |s| => if s[i] == '+' then ' ' else s[i])
  }

  /** The number of bytes of a UTF-8 sequence that starts with `lead`; 0 when
      `lead` cannot start a multi-byte sequence (ECMA-262 requires 2 to 4). */
  function Utf8SequenceLength(lead: Byte): nat {
    if 0xC0 <= lead < 0xE0 then 2
    else if 0xE0 <= lead < 0xF0 then 3
    else if 0xF0 <= lead < 0xF8 then 4
    else 0
  }

  predicate IsContinuation(b: Byte) { 0x80 <= b < 0xC0 }

  /** The bytes of `count` escapes at the start of `s` that are all continuation
      bytes, or None. */
  function ContinuationBytes(s: string, count: nat): (r: Option<seq<Byte>>)
    ensures r.Some? ==> |r.value| == count && |s| >= 3 * count
    ensures r.Some? ==> forall i | 0 <= i < count :: IsContinuation(r.value[i])
    decreases count
  {
    if count == 0 then Some([])
    else if |s| >= 3 && s[0] == '%' && IsHexDigit(s[1]) && IsHexDigit(s[2])
         && IsContinuation(EscapeByte(s[1], s[2])) then
      match ContinuationBytes(s[3..], count - 1)
      case None => None
      case Some(rest) => Some([EscapeByte(s[1], s[2])] + rest)
    else None
  }

  /** The scalar value a lead byte and its continuation bytes encode, when they are
      a well-formed UTF-8 sequence (not overlong, not a surrogate, at most U+10FFFF). */
  function Utf8Decode(lead: Byte, cont: seq<Byte>): Option<char>
    requires Utf8SequenceLength(lead) >= 2 && |cont| == Utf8SequenceLength(lead) - 1
    requires forall i | 0 <= i < |cont| :: IsContinuation(cont[i])
  {
    if |cont| == 1 then
      var n := (lead as int - 0xC0) * 64 + (cont[0] as int - 0x80);
      if n >= 0x80 then Some(n as char) else None
    else if |cont| == 2 then
      var n := (lead as int - 0xE0) * 4096 + (cont[0] as int - 0x80) * 64 + (cont[1] as int - 0x80);
      if n >= 0x800 && !(0xD800 <= n < 0xE000) then Some(n as char) else None
    else
      var n := (lead as int - 0xF0) * 262144 + (cont[0] as int - 0x80) * 4096
        + (cont[1] as int - 0x80) * 64 + (cont[2] as int - 0x80);
      if 0x10000 <= n <= 0x10FFFF then Some(n as char) else None
  }

  /** `decodeURIComponent(s)` (section 19.2.6.3 of ECMA-262): every escape is decoded,
      a malformed escape or byte sequence throws URIError. */
  function DecodeUriComponent(s: string): Result<string>
    decreases |s|
  {
    if |s| == 0 then Ok("")
    else if s[0] != '%' then
      var rest :- DecodeUriComponent(s[1..]);
      Ok([s[0]] + rest)
    else if |s| < 3 || !IsHexDigit(s[1]) || !IsHexDigit(s[2]) then Err(UriMalformed)
    else
      var b := EscapeByte(s[1], s[2]);
      if b < 0x80 then
        var rest :- DecodeUriComponent(s[3..]);
        Ok([b as char] + rest)
      else
        var n := Utf8SequenceLength(b);
        if n == 0 then Err(UriMalformed)
        else match ContinuationBytes(s[3..], n - 1)
          case None => Err(UriMalformed)
          case Some(cont) =>
            match Utf8Decode(b, cont)
            case None => Err(UriMalformed)
            case Some(c) =>
              var rest :- DecodeUriComponent(s[3 * n..]);
              Ok([c] + rest)
  }

  /** decodeFormComponent (src/internal/encoding.ts:9-12). */
  function DecodeFormComponent(value: string): Result<string> {
    DecodeUriComponent(ReplacePlus(value))
  }

  // ---------------------------------------------------------------------------
  // Round trip

  lemma Utf8RoundTrip(c: char)
    ensures |Utf8(c)| == 1 ==> Utf8(c)[0] == c as int && c as int < 0x80
    ensures |Utf8(c)| > 1 ==>
      && Utf8(c)[0] >= 0x80
      && Utf8SequenceLength(Utf8(c)[0]) == |Utf8(c)|
      && (forall i | 1 <= i < |Utf8(c)| :: IsContinuation(Utf8(c)[i]))
      && Utf8Decode(Utf8(c)[0], Utf8(c)[1..]) == Some(c)
  {
    var n := c as int;
    if n < 0x80 {
    } else if n < 0x800 {
      assert n == (n / 64) * 64 + n % 64;
    } else if n < 0x10000 {
      var q := n / 64;
      assert n == q * 64 + n % 64;
      assert q == (q / 64) * 64 + q % 64;
      assert n == (q / 64) * 4096 + (q % 64) * 64 + n % 64;
    } else {
      var q := n / 64;
      var q2 := q / 64;
      assert n == q * 64 + n % 64;
      assert q == q2 * 64 + q % 64;
      assert q2 == (q2 / 64) * 64 + q2 % 64;
      assert n == (q2 / 64) * 262144 + (q2 % 64) * 4096 + (q % 64) * 64 + n % 64;
    }
  }

  lemma {:induction false} ContinuationOfPercentBytes(bs: seq<Byte>, t: string)
    requires forall i | 0 <= i < |bs| :: IsContinuation(bs[i])
    ensures ContinuationBytes(PercentBytes(bs) + t, |bs|) == Some(bs)
    decreases |bs|
  {
    if |bs| > 0 {
      var s := PercentBytes(bs) + t;
      assert s == PercentByte(bs[0]) + (PercentBytes(bs[1..]) + t);
      assert s[3..] == PercentBytes(bs[1..]) + t;
      PercentByteValue(bs[0]);
      ContinuationOfPercentBytes(bs[1..], t);
      assert [bs[0]] + bs[1..] == bs;
    }
  }

  /** decodeURIComponent reads back the escapes encodeURIComponent writes for one character. */
  lemma DecodeEscapedChar(c: char, t: string)
    requires !IsUnreserved(c)
    ensures DecodeUriComponent(PercentBytes(Utf8(c)) + t) ==
      (match DecodeUriComponent(t) case Ok(rest) => Ok([c] + rest) case Err(e) => Err(e))
  {
    var bs := Utf8(c);
    var s := PercentBytes(bs) + t;
    assert s == PercentByte(bs[0]) + (PercentBytes(bs[1..]) + t);
    PercentByteValue(bs[0]);
    Utf8RoundTrip(c);
    assert EscapeByte(s[1], s[2]) == bs[0];
    if |bs| == 1 {
      assert s[3..] == t;
    } else {
      assert s[3..] == PercentBytes(bs[1..]) + t;
      ContinuationOfPercentBytes(bs[1..], t);
      assert s[3 * |bs|..] == t;
    }
  }

  lemma ReplacePlusConcat(a: string, b: string)
    ensures ReplacePlus(a + b) == ReplacePlus(a) + ReplacePlus(b)
  {
    assert forall i | 0 <= i < |a + b| :: ReplacePlus(a + b)[i] == (ReplacePlus(a) + ReplacePlus(b))[i];
  }

  lemma ReplacePlusOfUnit(c: char)
    ensures ReplacePlus(EncodeUnit(c)) == if c == ' ' then " " else EncodeUriChar(c)
  {
    if c != ' ' && !IsUnreserved(c) {
      PercentBytesShape(Utf8(c));
      var u := EncodeUnit(c);
      assert forall i | 0 <= i < |u| :: u[i] != '+';
      assert forall i | 0 <= i < |u| :: ReplacePlus(u)[i] == u[i];
    }
  }

  lemma {:induction false} DecodeUnits(s: string)
    ensures DecodeUriComponent(ReplacePlus(EncodeUnits(s))) == Ok(s)
    decreases |s|
  {
    if |s| > 0 {
      var c := s[0];
      var rest := ReplacePlus(EncodeUnits(s[1..]));
      ReplacePlusConcat(EncodeUnit(c), EncodeUnits(s[1..]));
      ReplacePlusOfUnit(c);
      DecodeUnits(s[1..]);
      if c == ' ' || IsUnreserved(c) {
        assert ReplacePlus(EncodeUnits(s)) == [c] + rest;
        assert ([c] + rest)[1..] == rest;
      } else {
        DecodeEscapedChar(c, rest);
      }
      assert [c] + s[1..] == s;
    }
  }

  /** Round trip: decodeFormComponent undoes encodePayfastValue on every string. */
  lemma DecodeEncode(s: string)
    ensures DecodeFormComponent(EncodePayfastValue(s)) == Ok(s)
  {
    EncodePayfastValueByUnits(s);
    DecodeUnits(s);
  }

  // ---------------------------------------------------------------------------
  // Decoding partners

  /** Every `%` of the text starts an escape with two hex digits. */
  predicate WellFormedEscapes(s: string) {
    forall i | 0 <= i < |s| && s[i] == '%' ::
      i + 2 < |s| && IsHexDigit(s[i + 1]) && IsHexDigit(s[i + 2])
  }

  lemma {:induction false} ContinuationShape(s: string, count: nat)
    requires ContinuationBytes(s, count).Some?
    ensures forall i | 0 <= i < 3 * count && s[i] == '%' ::
      i + 2 < |s| && IsHexDigit(s[i + 1]) && IsHexDigit(s[i + 2])
    decreases count
  {
    if count > 0 {
      ContinuationShape(s[3..], count - 1);
      forall i | 0 <= i < 3 * count && s[i] == '%'
        ensures i + 2 < |s| && IsHexDigit(s[i + 1]) && IsHexDigit(s[i + 2])
      {
        if i >= 3 {
          assert s[3..][i - 3] == '%';
        }
      }
    }
  }

  lemma {:induction false} DecodeOkMeansWellFormed(s: string)
    requires DecodeUriComponent(s).Ok?
    ensures WellFormedEscapes(s)
    decreases |s|
  {
    if |s| > 0 {
      if s[0] != '%' {
        DecodeOkMeansWellFormed(s[1..]);
        forall i | 0 <= i < |s| && s[i] == '%'
          ensures i + 2 < |s| && IsHexDigit(s[i + 1]) && IsHexDigit(s[i + 2])
        {
          assert s[1..][i - 1] == '%';
        }
      } else {
        var b := EscapeByte(s[1], s[2]);
        var used := if b < 0x80 then 3 else 3 * Utf8SequenceLength(b);
        if b >= 0x80 {
          ContinuationShape(s[3..], Utf8SequenceLength(b) - 1);
        }
        DecodeOkMeansWellFormed(s[used..]);
        forall i | 0 <= i < |s| && s[i] == '%'
          ensures i + 2 < |s| && IsHexDigit(s[i + 1]) && IsHexDigit(s[i + 2])
        {
          if i >= used {
            assert s[used..][i - used] == '%';
          } else if i >= 3 {
            assert s[3..][i - 3] == '%';
          }
        }
      }
    }
  }

  lemma ReplacePlusKeepsEscapes(s: string)
    ensures WellFormedEscapes(ReplacePlus(s)) <==> WellFormedEscapes(s)
  {
    var r := ReplacePlus(s);
    assert forall i | 0 <= i < |s| :: (r[i] == '%' <==> s[i] == '%') && (IsHexDigit(r[i]) <==> IsHexDigit(s[i]));
  }

  /** decodeFormComponent throws on a `%` that is not followed by two hex digits. */
  lemma DecodeRejectsMalformedEscape(s: string)
    requires !WellFormedEscapes(s)
    ensures DecodeFormComponent(s) == Err(UriMalformed)
  {
    ReplacePlusKeepsEscapes(s);
    if DecodeFormComponent(s).Ok? {
      DecodeOkMeansWellFormed(ReplacePlus(s));
    }
    DecodeOnlyFailsMalformed(ReplacePlus(s));
  }

  lemma {:induction false} DecodeOnlyFailsMalformed(s: string)
    ensures DecodeUriComponent(s).Err? ==> DecodeUriComponent(s).error == UriMalformed
    decreases |s|
  {
    if |s| > 0 {
      if s[0] != '%' {
        DecodeOnlyFailsMalformed(s[1..]);
      } else if |s| >= 3 && IsHexDigit(s[1]) && IsHexDigit(s[2]) {
        var b := EscapeByte(s[1], s[2]);
        if b < 0x80 {
          DecodeOnlyFailsMalformed(s[3..]);
        } else if Utf8SequenceLength(b) > 0 && ContinuationBytes(s[3..], Utf8SequenceLength(b) - 1).Some? {
          DecodeOnlyFailsMalformed(s[3 * Utf8SequenceLength(b)..]);
        }
      }
    }
  }

  /** `+` is turned into a space before percent-decoding, so only `%2B` gives a `+`. */
  lemma DecodePlusExamples()
    ensures DecodeFormComponent("a+b") == Ok("a b")
    ensures DecodeFormComponent("%2B") == Ok("+")
    ensures DecodeFormComponent("%2") == Err(UriMalformed)
  {
    assert ReplacePlus("a+b") == "a b";
    assert "b"[1..] == "" && ['b'] + "" == "b";
    assert DecodeUriComponent("b") == Ok("b");
    assert " b"[1..] == "b" && [' '] + "b" == " b";
    assert DecodeUriComponent(" b") == Ok(" b");
    assert "a b"[1..] == " b" && ['a'] + " b" == "a b";
    assert ReplacePlus("%2B") == "%2B";
    assert EscapeByte('2', 'B') == 43;
    assert "%2B"[3..] == "" && [43 as char] + "" == "+";
    assert ReplacePlus("%2") == "%2";
  }
}
