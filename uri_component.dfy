/**
 * `encodeURIComponent` and `decodeURIComponent`: percent-encoding of the
 * UTF-8 bytes of every character outside the unreserved set (section 2.1
 * of RFC 3986, with the marks ECMAScript leaves unescaped), and the
 * ECMAScript `Decode` algorithm with an empty reserved set, which throws
 * (here: `None`) on a malformed escape or an invalid UTF-8 sequence.
 */
module UriComponent {
  import opened Wrappers

  type Byte = b: int | 0 <= b < 256

  /** The characters `encodeURIComponent` leaves alone: ASCII letters and digits and `- _ . ! ~ * ' ( )`. */
  predicate IsUnreserved(c: char) {
    ('A' <= c <= 'Z') || ('a' <= c <= 'z') || ('0' <= c <= '9')
    || c == '-' || c == '_' || c == '.' || c == '!' || c == '~'
    || c == '*' || c == '\'' || c == '(' || c == ')'
  }

  /** The value of a hexadecimal digit of either case. */
  function HexValue(c: char): (r: Option<nat>)
    ensures r.Some? ==> r.value < 16
  {
    if '0' <= c <= '9' then Some(c as int - '0' as int)
    else if 'A' <= c <= 'F' then Some(c as int - 'A' as int + 10)
    else if 'a' <= c <= 'f' then Some(c as int - 'a' as int + 10)
    else None
  }

  /** The upper-case hexadecimal digit `encodeURIComponent` writes. */
  function HexDigit(v: nat): (c: char)
    requires v < 16
    ensures HexValue(c) == Some(v)
    ensures IsUnreserved(c)
  {
    if v < 10 then ('0' as int + v) as char else ('A' as int + v - 10) as char
  }

  /** The UTF-8 encoding of one character (RFC 3629). */
  function Utf8(c: char): (bs: seq<Byte>)
    ensures 1 <= |bs| <= 4
  {
    var cp := c as int;
    var q1 := cp / 64;
    var q2 := q1 / 64;
    var q3 := q2 / 64;
    if cp < 0x80 then [cp]
    else if cp < 0x800 then [0xC0 + q1, 0x80 + cp % 64]
    else if cp < 0x10000 then [0xE0 + q2, 0x80 + q1 % 64, 0x80 + cp % 64]
    else [0xF0 + q3, 0x80 + q2 % 64, 0x80 + q1 % 64, 0x80 + cp % 64]
  }

  /** `%XY` for one byte. */
  function EscapeByte(b: Byte): (r: string)
    ensures |r| == 3 && r[0] == '%'
    ensures forall i :: 0 <= i < |r| ==> IsUnreserved(r[i]) || r[i] == '%'
  {
    ['%', HexDigit(b / 16), HexDigit(b % 16)]
  }

  function EscapeBytes(bs: seq<Byte>): (r: string)
    ensures |r| == 3 * |bs|
    ensures forall i :: 0 <= i < |r| ==> IsUnreserved(r[i]) || r[i] == '%'
    decreases |bs|
  {
    if bs == [] then [] else EscapeByte(bs[0]) + EscapeBytes(bs[1..])
  }

  function EncodeChar(c: char): (r: string)
    ensures r != []
    ensures forall i :: 0 <= i < |r| ==> IsUnreserved(r[i]) || r[i] == '%'
  {
    if IsUnreserved(c) then [c] else EscapeBytes(Utf8(c))
  }

  /** `encodeURIComponent(s)`: the output holds only unreserved characters and `%`, so never a `/`. */
  function Encode(s: string): (r: string)
    ensures forall i :: 0 <= i < |r| ==> IsUnreserved(r[i]) || r[i] == '%'
    ensures '/' !in r
    decreases |s|
  {
    if s == [] then [] else EncodeChar(s[0]) + Encode(s[1..])
  }

  /** The byte written as `%XY` at index `i` of `s`, if there is one. */
  function ByteAt(s: string, i: nat): (r: Option<Byte>)
    ensures r.Some? ==> i + 3 <= |s|
  {
    if i + 3 <= |s| && s[i] == '%' then
      match (HexValue(s[i + 1]), HexValue(s[i + 2]))
      case (Some(h), Some(l)) => Some(16 * h + l)
      case _ => None
    else None
  }

  /** The six payload bits of a `10xxxxxx` continuation byte written at index `i`. */
  function ContinuationAt(s: string, i: nat): (r: Option<nat>)
    ensures r.Some? ==> i + 3 <= |s| && r.value < 64
  {
    match ByteAt(s, i)
    case Some(b) => if 0x80 <= b < 0xC0 then Some(b - 0x80) else None
    case None => None
  }

  /**
   * The character encoded by the escape sequences at the start of `s` and
   * how many characters they take; `None` for a malformed escape, a bad
   * lead or continuation byte, an over-long form, a surrogate or a code
   * point above U+10FFFF.
   */
  function DecodeEscape(s: string): (r: Option<(char, nat)>)
    ensures r.Some? ==> 3 <= r.value.1 <= |s|
  {
    match ByteAt(s, 0)
    case None => None
    case Some(b0) =>
      if b0 < 0x80 then Some((b0 as char, 3))
      else if b0 < 0xC0 || 0xF8 <= b0 then None
      else if b0 < 0xE0 then
        match ContinuationAt(s, 3)
        case None => None
        case Some(c1) =>
          var cp := (b0 - 0xC0) * 64 + c1;
          if cp < 0x80 then None else Some((cp as char, 6))
      else if b0 < 0xF0 then
        match (ContinuationAt(s, 3), ContinuationAt(s, 6))
        case (Some(c1), Some(c2)) =>
          var cp := (b0 - 0xE0) * 4096 + c1 * 64 + c2;
          if cp < 0x800 || (0xD800 <= cp < 0xE000) then None else Some((cp as char, 9))
        case _ => None
      else
        match (ContinuationAt(s, 3), ContinuationAt(s, 6), ContinuationAt(s, 9))
        case (Some(c1), Some(c2), Some(c3)) =>
          var cp := (b0 - 0xF0) * 262144 + c1 * 4096 + c2 * 64 + c3;
          if cp < 0x10000 || cp > 0x10FFFF then None else Some((cp as char, 12))
        case _ => None
  }

  function Prepend(c: char, r: Option<string>): Option<string> {
    match r
    case None => None
    case Some(t) => Some([c] + t)
  }

  /** `decodeURIComponent(s)`; `None` stands for the `URIError` it throws. */
  function Decode(s: string): Option<string>
    decreases |s|
  {
    if s == [] then Some([])
    else if s[0] != '%' then Prepend(s[0], Decode(s[1..]))
    else
      match DecodeEscape(s)
      case None => None
      case Some((c, k)) => Prepend(c, Decode(s[k..]))
  }

  lemma ByteAtShift(x: string, y: string, i: nat)
    ensures ByteAt(x + y, |x| + i) == ByteAt(y, i)
  {
    if i + 3 <= |y| {
      assert (x + y)[|x| + i] == y[i];
      assert (x + y)[|x| + i + 1] == y[i + 1];
      assert (x + y)[|x| + i + 2] == y[i + 2];
    }
  }

  /** The `j`-th escape of an escaped byte sequence reads back as the `j`-th byte. */
  lemma {:induction false} ByteAtEscaped(bs: seq<Byte>, t: string, j: nat)
    requires j < |bs|
    ensures ByteAt(EscapeBytes(bs) + t, 3 * j) == Some(bs[j])
    decreases j
  {
    var head := EscapeByte(bs[0]);
    var rest := EscapeBytes(bs[1..]) + t;
    assert EscapeBytes(bs) + t == head + rest;
    if j == 0 {
      var b := bs[0];
      assert (head + rest)[1] == HexDigit(b / 16);
      assert (head + rest)[2] == HexDigit(b % 16);
    } else {
      ByteAtEscaped(bs[1..], t, j - 1);
      ByteAtShift(head, rest, 3 * (j - 1));
    }
  }

  lemma DecodeEscapeOneByte(c: char, t: string)
    requires c as int < 0x80
    ensures DecodeEscape(EscapeBytes(Utf8(c)) + t) == Some((c, 3))
  {
    var bs := Utf8(c);
    assert bs == [c as int];
    ByteAtEscaped(bs, t, 0);
  }

  /** A continuation byte of an escaped byte sequence reads back as its six payload bits. */
  lemma ContinuationEscaped(bs: seq<Byte>, t: string, j: nat)
    requires j < |bs| && 0x80 <= bs[j] < 0xC0
    ensures ContinuationAt(EscapeBytes(bs) + t, 3 * j) == Some(bs[j] - 0x80)
  {
    ByteAtEscaped(bs, t, j);
  }

  lemma DecodeTwoFrom(s: string, b0: Byte, c1: nat)
    requires ByteAt(s, 0) == Some(b0) && 0xC0 <= b0 < 0xE0 && ContinuationAt(s, 3) == Some(c1)
    requires 0x80 <= (b0 - 0xC0) * 64 + c1
    ensures DecodeEscape(s) == Some((((b0 - 0xC0) * 64 + c1) as char, 6))
  {
  }

  lemma DecodeThreeFrom(s: string, b0: Byte, c1: nat, c2: nat)
    requires ByteAt(s, 0) == Some(b0) && 0xE0 <= b0 < 0xF0
    requires ContinuationAt(s, 3) == Some(c1) && ContinuationAt(s, 6) == Some(c2)
    requires var cp := (b0 - 0xE0) * 4096 + c1 * 64 + c2; 0x800 <= cp && !(0xD800 <= cp < 0xE000)
    ensures DecodeEscape(s) == Some((((b0 - 0xE0) * 4096 + c1 * 64 + c2) as char, 9))
  {
  }

  lemma DecodeFourFrom(s: string, b0: Byte, c1: nat, c2: nat, c3: nat)
    requires ByteAt(s, 0) == Some(b0) && 0xF0 <= b0 < 0xF8
    requires ContinuationAt(s, 3) == Some(c1) && ContinuationAt(s, 6) == Some(c2) && ContinuationAt(s, 9) == Some(c3)
    requires var cp := (b0 - 0xF0) * 262144 + c1 * 4096 + c2 * 64 + c3; 0x10000 <= cp <= 0x10FFFF
    ensures DecodeEscape(s) == Some((((b0 - 0xF0) * 262144 + c1 * 4096 + c2 * 64 + c3) as char, 12))
  {
  }

  lemma DecodeTwoEscaped(bs: seq<Byte>, t: string)
    requires |bs| == 2 && 0xC0 <= bs[0] < 0xE0 && 0x80 <= bs[1] < 0xC0
    requires 0x80 <= (bs[0] as int - 0xC0) * 64 + (bs[1] as int - 0x80)
    ensures DecodeEscape(EscapeBytes(bs) + t) == Some((((bs[0] as int - 0xC0) * 64 + (bs[1] as int - 0x80)) as char, 6))
  {
    var s := EscapeBytes(bs) + t;
    ContinuationsEscaped(bs, t);
    DecodeTwoFrom(s, bs[0], bs[1] - 0x80);
  }

  lemma DecodeThreeEscaped(bs: seq<Byte>, t: string)
    requires |bs| == 3 && 0xE0 <= bs[0] < 0xF0 && 0x80 <= bs[1] < 0xC0 && 0x80 <= bs[2] < 0xC0
    requires var cp := (bs[0] as int - 0xE0) * 4096 + (bs[1] as int - 0x80) * 64 + (bs[2] as int - 0x80); 0x800 <= cp && !(0xD800 <= cp < 0xE000)
    ensures DecodeEscape(EscapeBytes(bs) + t)
      == Some((((bs[0] as int - 0xE0) * 4096 + (bs[1] as int - 0x80) * 64 + (bs[2] as int - 0x80)) as char, 9))
  {
    var s := EscapeBytes(bs) + t;
    ContinuationsEscaped(bs, t);
    DecodeThreeFrom(s, bs[0], bs[1] - 0x80, bs[2] - 0x80);
  }

  lemma DecodeFourEscaped(bs: seq<Byte>, t: string)
    requires |bs| == 4 && 0xF0 <= bs[0] < 0xF8 && 0x80 <= bs[1] < 0xC0 && 0x80 <= bs[2] < 0xC0 && 0x80 <= bs[3] < 0xC0
    requires var cp := (bs[0] as int - 0xF0) * 262144 + (bs[1] as int - 0x80) * 4096 + (bs[2] as int - 0x80) * 64 + (bs[3] as int - 0x80);
      0x10000 <= cp <= 0x10FFFF
    ensures DecodeEscape(EscapeBytes(bs) + t)
      == Some((((bs[0] as int - 0xF0) * 262144 + (bs[1] as int - 0x80) * 4096 + (bs[2] as int - 0x80) * 64 + (bs[3] as int - 0x80)) as char, 12))
  {
    var s := EscapeBytes(bs) + t;
    ContinuationsEscaped(bs, t);
    DecodeFourFrom(s, bs[0], bs[1] - 0x80, bs[2] - 0x80, bs[3] - 0x80);
  }

  /** Every byte after the first of an escaped byte sequence reads back as a continuation. */
  lemma ContinuationsEscaped(bs: seq<Byte>, t: string)
    requires 1 <= |bs| && forall j :: 1 <= j < |bs| ==> 0x80 <= bs[j] < 0xC0
    ensures ByteAt(EscapeBytes(bs) + t, 0) == Some(bs[0])
    ensures forall j :: 1 <= j < |bs| ==> ContinuationAt(EscapeBytes(bs) + t, 3 * j) == Some(bs[j] - 0x80)
  {
    ByteAtEscaped(bs, t, 0);
    forall j | 1 <= j < |bs|
      ensures ContinuationAt(EscapeBytes(bs) + t, 3 * j) == Some(bs[j] - 0x80)
    {
      ContinuationEscaped(bs, t, j);
    }
  }

  lemma DecodeEscapeTwoBytes(c: char, t: string)
    requires 0x80 <= c as int < 0x800
    ensures DecodeEscape(EscapeBytes(Utf8(c)) + t) == Some((c, 6))
  {
    var bs := Utf8(c);
    Utf8TwoBytes(c);
    DecodeTwoEscaped(bs, t);
  }

  lemma DecodeEscapeThreeBytes(c: char, t: string)
    requires 0x800 <= c as int < 0x10000
    ensures DecodeEscape(EscapeBytes(Utf8(c)) + t) == Some((c, 9))
  {
    var bs := Utf8(c);
    Utf8ThreeBytes(c);
    DecodeThreeEscaped(bs, t);
  }

  lemma DecodeEscapeFourBytes(c: char, t: string)
    requires 0x10000 <= c as int
    ensures DecodeEscape(EscapeBytes(Utf8(c)) + t) == Some((c, 12))
  {
    var bs := Utf8(c);
    Utf8FourBytes(c);
    DecodeFourEscaped(bs, t);
  }

  /** The two bytes of a character in U+0080..U+07FF: lead and continuation recompose the code point. */
  lemma Utf8TwoBytes(c: char)
    requires 0x80 <= c as int < 0x800
    ensures var bs := Utf8(c);
      |bs| == 2 && 0xC0 <= bs[0] < 0xE0 && 0x80 <= bs[1] < 0xC0
      && (bs[0] as int - 0xC0) * 64 + (bs[1] as int - 0x80) == c as int
  {
    var cp := c as int;
    TwoByteDigits(cp);
    assert Utf8(c) == [0xC0 + cp / 64, 0x80 + cp % 64];
  }

  /** The three bytes of a character in U+0800..U+FFFF. */
  lemma Utf8ThreeBytes(c: char)
    requires 0x800 <= c as int < 0x10000
    ensures var bs := Utf8(c);
      |bs| == 3 && 0xE0 <= bs[0] < 0xF0 && 0x80 <= bs[1] < 0xC0 && 0x80 <= bs[2] < 0xC0
      && (bs[0] as int - 0xE0) * 4096 + (bs[1] as int - 0x80) * 64 + (bs[2] as int - 0x80) == c as int
  {
    var cp := c as int;
    ThreeByteDigits(cp);
    assert Utf8(c) == [0xE0 + cp / 64 / 64, 0x80 + cp / 64 % 64, 0x80 + cp % 64];
  }

  /** The four bytes of a supplementary character. */
  lemma Utf8FourBytes(c: char)
    requires 0x10000 <= c as int
    ensures var bs := Utf8(c);
      |bs| == 4 && 0xF0 <= bs[0] < 0xF8 && 0x80 <= bs[1] < 0xC0 && 0x80 <= bs[2] < 0xC0 && 0x80 <= bs[3] < 0xC0
      && (bs[0] as int - 0xF0) * 262144 + (bs[1] as int - 0x80) * 4096 + (bs[2] as int - 0x80) * 64 + (bs[3] as int - 0x80) == c as int
  {
    var cp := c as int;
    FourByteDigits(cp);
    assert Utf8(c) == [0xF0 + cp / 64 / 64 / 64, 0x80 + cp / 64 / 64 % 64, 0x80 + cp / 64 % 64, 0x80 + cp % 64];
  }

  /** Base-64 digits of a two-byte code point. */
  lemma TwoByteDigits(cp: int)
    requires 0x80 <= cp < 0x800
    ensures 2 <= cp / 64 < 32
    ensures (cp / 64) * 64 + cp % 64 == cp
  {
  }

  /** Base-64 digits of a three-byte code point. */
  lemma ThreeByteDigits(cp: int)
    requires 0x800 <= cp < 0x10000
    ensures 0 <= cp / 64 / 64 < 16
    ensures (cp / 64 / 64) * 4096 + (cp / 64 % 64) * 64 + cp % 64 == cp
  {
    var q1 := cp / 64;
    var q2 := q1 / 64;
    assert cp == q1 * 64 + cp % 64;
    assert q1 == q2 * 64 + q1 % 64;
  }

  /** Base-64 digits of a supplementary code point: three divisions by 64 recompose it. */
  lemma FourByteDigits(cp: int)
    requires 0x10000 <= cp < 0x110000
    ensures cp / 64 / 64 / 64 < 5
    ensures (cp / 64 / 64 / 64) * 262144 + (cp / 64 / 64 % 64) * 4096 + (cp / 64 % 64) * 64 + cp % 64 == cp
  {
    var q1 := cp / 64;
    var q2 := q1 / 64;
    var q3 := q2 / 64;
    assert cp == q1 * 64 + cp % 64;
    assert q1 == q2 * 64 + q1 % 64;
    assert q2 == q3 * 64 + q2 % 64;
    assert 1024 <= q1 < 17408;
    assert 16 <= q2 < 272;
  }

  lemma DecodeEscapeOfChar(c: char, t: string)
    ensures DecodeEscape(EscapeBytes(Utf8(c)) + t) == Some((c, |EscapeBytes(Utf8(c))|))
  {
    var cp := c as int;
    if cp < 0x80 { DecodeEscapeOneByte(c, t); }
    else if cp < 0x800 { DecodeEscapeTwoBytes(c, t); }
    else if cp < 0x10000 { DecodeEscapeThreeBytes(c, t); }
    else { DecodeEscapeFourBytes(c, t); }
  }

  lemma DecodeEncodeChar(c: char, t: string)
    ensures Decode(EncodeChar(c) + t) == Prepend(c, Decode(t))
  {
    var u := EncodeChar(c);
    if IsUnreserved(c) {
      assert (u + t)[1..] == t;
    } else {
      DecodeEscapeOfChar(c, t);
      assert (u + t)[0] == '%';
      assert (u + t)[|u|..] == t;
    }
  }

  /** `decodeURIComponent(encodeURIComponent(s)) == s`: decoding undoes encoding and never throws on it. */
  lemma {:induction false} DecodeEncode(s: string)
    ensures Decode(Encode(s)) == Some(s)
    decreases |s|
  {
    if s != [] {
      DecodeEncode(s[1..]);
      DecodeEncodeChar(s[0], Encode(s[1..]));
      assert s == [s[0]] + s[1..];
    }
  }

  /** A character that is neither unreserved nor `%` never appears in an encoded string. */
  lemma EncodeAvoids(s: string, c: char)
    requires !IsUnreserved(c) && c != '%'
    ensures c !in Encode(s)
  {
  }
}
