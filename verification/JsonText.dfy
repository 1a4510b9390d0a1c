/**
 The strings of encoding/json: Marshal's escaping (section 7 of RFC 8259, with the HTML
 and line-separator escapes that Marshal adds) and the decoder, over UTF-8 bytes.
 */
module JsonText {
  import opened Common

  const QUOTE: byte := 34
  const BACKSLASH: byte := 92
  const LETTER_U: byte := 117

  /** U+FFFD, which both directions put in place of a byte that is not UTF-8. */
  const REPLACEMENT: Bytes := [0xEF, 0xBF, 0xBD]

  // ---------------------------------------------------------------- UTF-8

  predicate Continues(s: Bytes, i: nat, low: int, high: int) { i < |s| && low <= s[i] <= high }

  /** utf8.DecodeRune: the length of the encoded rune at the front, or 0 if there is none. */
  function RuneLen(s: Bytes): (n: nat)
    ensures n <= 4 && n <= |s|
  {
    if s == [] then 0
    else if s[0] < 0x80 then 1
    else if 0xC2 <= s[0] <= 0xDF then if Continues(s, 1, 0x80, 0xBF) then 2 else 0
    else if 0xE0 <= s[0] <= 0xEF then
      var low, high := if s[0] == 0xE0 then 0xA0 else 0x80, if s[0] == 0xED then 0x9F else 0xBF;
      if Continues(s, 1, low, high) && Continues(s, 2, 0x80, 0xBF) then 3 else 0
    else if 0xF0 <= s[0] <= 0xF4 then
      var low, high := if s[0] == 0xF0 then 0x90 else 0x80, if s[0] == 0xF4 then 0x8F else 0xBF;
      if Continues(s, 1, low, high) && Continues(s, 2, 0x80, 0xBF) && Continues(s, 3, 0x80, 0xBF) then 4 else 0
    else 0
  }

  /** A rune is recognised from its own bytes. */
  lemma RuneLenIsLocal(s: Bytes, t: Bytes)
    requires RuneLen(s) > 0
    ensures RuneLen(s[..RuneLen(s)] + t) == RuneLen(s)
  {
    var n := RuneLen(s);
    var u := s[..n] + t;
    assert forall i :: 0 <= i < n ==> u[i] == s[i];
  }

  predicate ValidUtf8(s: Bytes) {
    s == [] || (RuneLen(s) > 0 && ValidUtf8(s[RuneLen(s)..]))
  }

  /** The string with every stray byte replaced. */
  function Sanitize(s: Bytes): (r: Bytes)
    ensures |r| >= |s|
  {
    if s == [] then []
    else if RuneLen(s) == 0 then REPLACEMENT + Sanitize(s[1..])
    else s[..RuneLen(s)] + Sanitize(s[RuneLen(s)..])
  }

  lemma {:induction false} SanitizeFixesExactlyValid(s: Bytes)
    ensures Sanitize(s) == s <==> ValidUtf8(s)
    decreases |s|
  {
    if s != [] {
      var n := RuneLen(s);
      if n == 0 {
        assert |Sanitize(s)| > |s|;
      } else {
        SanitizeFixesExactlyValid(s[n..]);
        assert s == s[..n] + s[n..];
        assert Sanitize(s)[n..] == Sanitize(s[n..]);
      }
    }
  }

  // ---------------------------------------------------------------- Marshal

  function HexDigit(v: nat): byte
    requires v < 16
  {
    if v < 10 then 48 + v else 97 + (v - 10)
  }

  /** Escapes of the ASCII range; 0 stands for none. */
  function ShortEscape(c: byte): byte {
    if c == 34 then 34 else if c == 92 then 92 else if c == 8 then 98 else if c == 12 then 102
    else if c == 10 then 110 else if c == 13 then 114 else if c == 9 then 116 else 0
  }

  predicate NeedsUnicodeEscape(c: byte) { c < 32 || c == 60 || c == 62 || c == 38 }

  function PrintAscii(c: byte): (t: Bytes)
    requires c < 128
    ensures 1 <= |t| <= 6
  {
    if ShortEscape(c) != 0 then [BACKSLASH, ShortEscape(c)]
    else if NeedsUnicodeEscape(c) then [BACKSLASH, LETTER_U, 48, 48, HexDigit(c / 16), HexDigit(c % 16)]
    else [c]
  }

  /** U+2028 and U+2029. */
  predicate IsLineSeparator(s: Bytes) { |s| >= 3 && s[0] == 0xE2 && s[1] == 0x80 && (s[2] == 0xA8 || s[2] == 0xA9) }

  const ESCAPED_REPLACEMENT: Bytes := [92, 117, 102, 102, 102, 100]

  function PrintLineSeparator(s: Bytes): Bytes
    requires IsLineSeparator(s)
  {
    [92, 117, 50, 48, 50, if s[2] == 0xA8 then 56 else 57]
  }

  /** How one unit at the front of a string is written, and how many bytes it takes up. */
  function PrintUnit(s: Bytes): (r: (Bytes, nat))
    requires s != []
    ensures 1 <= r.1 <= |s| && |r.0| <= 6 * r.1
  {
    if s[0] < 128 then (PrintAscii(s[0]), 1)
    else if RuneLen(s) == 0 then (ESCAPED_REPLACEMENT, 1)
    else if IsLineSeparator(s) then (PrintLineSeparator(s), 3)
    else (s[..RuneLen(s)], RuneLen(s))
  }

  function PrintBody(s: Bytes): (t: Bytes)
    ensures |t| <= 6 * |s|
  {
    if s == [] then [] else PrintUnit(s).0 + PrintBody(s[PrintUnit(s).1..])
  }

  /** A quoted string: at most six bytes for each byte of the input, and the quotes. */
  function PrintString(s: Bytes): (t: Bytes)
    ensures |t| <= 6 * |s| + 2
  {
    [QUOTE] + PrintBody(s) + [QUOTE]
  }

  // ---------------------------------------------------------------- Unmarshal

  function HexValue(b: byte): (r: Option<nat>)
    ensures r.Some? ==> r.value < 16
  {
    if 48 <= b <= 57 then Some(b - 48) else if 97 <= b <= 102 then Some(b - 97 + 10)
    else if 65 <= b <= 70 then Some(b - 65 + 10) else None
  }

  /** The code unit of a \uXXXX escape at the front. */
  function CodeUnit(s: Bytes): (r: Option<nat>)
    ensures r.Some? ==> |s| >= 6 && r.value < 0x10000
  {
    if |s| < 6 || s[0] != BACKSLASH || s[1] != LETTER_U then None
    else
      var a, b, c, d := HexValue(s[2]), HexValue(s[3]), HexValue(s[4]), HexValue(s[5]);
      if a.None? || b.None? || c.None? || d.None? then None
      else Some(((a.value * 16 + b.value) * 16 + c.value) * 16 + d.value)
  }

  function Utf8Of(code: nat): (t: Bytes)
    requires code < 0x110000
  {
    if code < 0x80 then [code]
    else if code < 0x800 then [0xC0 + code / 0x40, 0x80 + code % 0x40]
    else if code < 0x10000 then [0xE0 + code / 0x1000, 0x80 + code / 0x40 % 0x40, 0x80 + code % 0x40]
    else [0xF0 + code / 0x40000, 0x80 + code / 0x1000 % 0x40, 0x80 + code / 0x40 % 0x40, 0x80 + code % 0x40]
  }

  predicate IsSurrogate(code: nat) { 0xD800 <= code < 0xE000 }

  /** A unicode escape: surrogate pairs combine, a lone surrogate is replaced. */
  function ParseUnicode(s: Bytes): (r: Option<(Bytes, nat)>)
    ensures r.Some? ==> 1 <= r.value.1 <= |s|
  {
    var hi := CodeUnit(s);
    if hi.None? then None
    else if !IsSurrogate(hi.value) then Some((Utf8Of(hi.value), 6))
    else
      var lo := CodeUnit(s[6..]);
      if hi.value < 0xDC00 && lo.Some? && 0xDC00 <= lo.value < 0xE000 then
        Some((Utf8Of(0x10000 + (hi.value - 0xD800) * 0x400 + (lo.value - 0xDC00)), 12))
      else Some((REPLACEMENT, 6))
  }

  function Unescape(e: byte): Option<byte> {
    if e == 34 || e == 92 || e == 47 then Some(e) else if e == 98 then Some(8) else if e == 102 then Some(12)
    else if e == 110 then Some(10) else if e == 114 then Some(13) else if e == 116 then Some(9) else None
  }

  /** One unit of a string body: its meaning and the bytes it takes up. */
  function ParseUnit(s: Bytes): (r: Option<(Bytes, nat)>)
    requires s != []
    ensures r.Some? ==> 1 <= r.value.1 <= |s|
  {
    if s[0] == BACKSLASH then
      if |s| < 2 then None
      else if s[1] == LETTER_U then ParseUnicode(s)
      else if Unescape(s[1]).None? then None
      else Some(([Unescape(s[1]).value], 2))
    else if s[0] < 32 then None
    else if s[0] < 128 then Some(([s[0]], 1))
    else if RuneLen(s) == 0 then Some((REPLACEMENT, 1))
    else Some((s[..RuneLen(s)], RuneLen(s)))
  }

  /** A string body up to its closing quote, and what follows. */
  function ParseBody(s: Bytes): (r: Option<(Bytes, Bytes)>)
    ensures r.Some? ==> |r.value.1| < |s|
    decreases |s|
  {
    if s == [] then None
    else if s[0] == QUOTE then Some(([], s[1..]))
    else
      var u := ParseUnit(s);
      if u.None? then None
      else
        var rest := ParseBody(s[u.value.1..]);
        if rest.None? then None else Some((u.value.0 + rest.value.0, rest.value.1))
  }

  function ParseString(s: Bytes): (r: Option<(Bytes, Bytes)>) {
    if s == [] || s[0] != QUOTE then None else ParseBody(s[1..])
  }

  // ---------------------------------------------------------------- round trip

  lemma AsciiRoundTrip(c: byte, t: Bytes)
    requires c < 128
    ensures var p := PrintAscii(c); (p + t)[0] != QUOTE && ParseUnit(p + t) == Some(([c], |p|))
  {
    if ShortEscape(c) == 0 && NeedsUnicodeEscape(c) {
      var s := PrintAscii(c) + t;
      assert HexValue(HexDigit(c / 16)) == Some(c / 16) && HexValue(HexDigit(c % 16)) == Some(c % 16);
      assert CodeUnit(s) == Some(c);
    }
  }

  lemma ReplacementRoundTrip(t: Bytes)
    ensures ParseUnit(ESCAPED_REPLACEMENT + t) == Some((REPLACEMENT, 6))
  {
    assert CodeUnit(ESCAPED_REPLACEMENT + t) == Some(0xFFFD);
  }

  lemma SeparatorRoundTrip(s: Bytes, t: Bytes)
    requires IsLineSeparator(s)
    ensures ParseUnit(PrintLineSeparator(s) + t) == Some((s[..3], 6))
  {
    var code := if s[2] == 0xA8 then 0x2028 else 0x2029;
    assert CodeUnit(PrintLineSeparator(s) + t) == Some(code);
    assert Utf8Of(code) == [0xE2, 0x80, s[2]];
    assert s[..3] == [s[0], s[1], s[2]];
  }

  /** Reading back one printed unit gives that unit, sanitized. */
  lemma UnitRoundTrip(s: Bytes, t: Bytes)
    requires s != []
    ensures var (p, n) := PrintUnit(s);
            && p != [] && (p + t)[0] != QUOTE
            && ParseUnit(p + t) == Some((if RuneLen(s) == 0 then REPLACEMENT else s[..n], |p|))
            && (n == RuneLen(s) || (RuneLen(s) == 0 && n == 1))
  {
    if s[0] < 128 {
      AsciiRoundTrip(s[0], t);
      assert s[..1] == [s[0]];
    } else if RuneLen(s) == 0 {
      ReplacementRoundTrip(t);
    } else if IsLineSeparator(s) {
      SeparatorRoundTrip(s, t);
    } else {
      RuneLenIsLocal(s, t);
      var u := s[..RuneLen(s)] + t;
      assert u[0] == s[0] && u[..RuneLen(s)] == s[..RuneLen(s)];
    }
  }

  /** Reading back a printed string gives the sanitized string and what followed it. */
  lemma {:induction false} BodyRoundTrip(s: Bytes, rest: Bytes)
    ensures ParseBody(PrintBody(s) + [QUOTE] + rest) == Some((Sanitize(s), rest))
    decreases |s|
  {
    if s == [] {
      assert PrintBody(s) + [QUOTE] + rest == [QUOTE] + rest;
    } else {
      hide PrintUnit, ParseUnit, RuneLen;
      var (p, n) := PrintUnit(s);
      var tail := PrintBody(s[n..]) + [QUOTE] + rest;
      UnitRoundTrip(s, tail);
      BodyRoundTrip(s[n..], rest);
      assert PrintBody(s) + [QUOTE] + rest == p + tail;
      assert (p + tail)[|p|..] == tail;
    }
  }

  lemma StringRoundTrip(s: Bytes, rest: Bytes)
    ensures ParseString(PrintString(s) + rest) == Some((Sanitize(s), rest))
  {
    hide ParseBody, PrintBody, Sanitize;
    BodyRoundTrip(s, rest);
    var t := PrintString(s) + rest;
    assert t[1..] == PrintBody(s) + [QUOTE] + rest;
  }

  // ---------------------------------------------------------------- the forms of plain text

  /** The bytes of an ASCII text. */
  function Text(s: string): (b: Bytes)
    ensures |b| == |s| && forall i :: 0 <= i < |s| && s[i] as int < 128 ==> b[i] == s[i] as int
  {
    seq(|s|, i requires 0 <= i < |s| => if s[i] as int < 128 then s[i] as int else 63)
  }

  predicate PlainChar(c: byte) {
    && 32 <= c < 128 && c as char != '"' && c as char != '\\'
    && c as char != '<' && c as char != '>' && c as char != '&'
  }

  /** Printable ASCII, without the characters that json.Marshal escapes. */
  predicate Plain(s: Bytes) {
    forall i :: 0 <= i < |s| ==> PlainChar(s[i])
  }

  /** What json.Marshal makes of an ASCII character. */
  lemma AsciiForms(c: byte)
    requires c < 128
    ensures match c as char
            case '"' => PrintAscii(c) == Text("\\\"")
            case '\\' => PrintAscii(c) == Text("\\\\")
            case '\n' => PrintAscii(c) == Text("\\n")
            case '\r' => PrintAscii(c) == Text("\\r")
            case '\t' => PrintAscii(c) == Text("\\t")
            case '<' => PrintAscii(c) == Text("\\u003c")
            case '>' => PrintAscii(c) == Text("\\u003e")
            case '&' => PrintAscii(c) == Text("\\u0026")
            case _ =>
              if c == 8 then PrintAscii(c) == Text("\\b")
              else if c == 12 then PrintAscii(c) == Text("\\f")
              else if c >= 32 then PrintAscii(c) == [c]
              else PrintAscii(c) == Text("\\u00") + [HexDigit(c / 16), HexDigit(c % 16)]
  {
  }

  lemma {:induction false} PlainPrints(s: Bytes)
    requires Plain(s)
    ensures PrintBody(s) == s
  {
    if s != [] {
      AsciiForms(s[0]);
      PlainPrints(s[1..]);
    }
  }


  /** A plain text in quotes. */
  function Quoted(s: Bytes): Bytes { Text("\"") + s + Text("\"") }

  lemma PlainIsQuoted(s: Bytes)
    requires Plain(s)
    ensures PrintString(s) == Quoted(s)
  {
    PlainPrints(s);
  }
}
