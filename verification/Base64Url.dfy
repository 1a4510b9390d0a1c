/** base64.RawURLEncoding (section 5 of RFC 4648, no padding) and its strict decoder. */
module Base64Url {
  import opened Common

  type sextet = x: int | 0 <= x < 64

  function Symbol(v: sextet): byte {
    if v < 26 then 65 + v else if v < 52 then 97 + (v - 26) else if v < 62 then 48 + (v - 52)
    else if v == 62 then 45 else 95
  }

  function Sextet(b: byte): Option<sextet> {
    if 65 <= b <= 90 then Some(b - 65)
    else if 97 <= b <= 122 then Some(b - 97 + 26)
    else if 48 <= b <= 57 then Some(b - 48 + 52)
    else if b == 45 then Some(62)
    else if b == 95 then Some(63)
    else None
  }

  function Encode(b: Bytes): (t: Bytes)
    ensures |t| == (4 * |b| + 2) / 3
  {
    if b == [] then []
    else if |b| == 1 then [Symbol(b[0] / 4), Symbol(b[0] % 4 * 16)]
    else if |b| == 2 then [Symbol(b[0] / 4), Symbol(b[0] % 4 * 16 + b[1] / 16), Symbol(b[1] % 16 * 4)]
    else Quantum(b[0], b[1], b[2]) + Encode(b[3..])
  }

  function Quantum(x: byte, y: byte, z: byte): (t: Bytes)
    ensures |t| == 4
  {
    [Symbol(x / 4), Symbol(x % 4 * 16 + y / 16), Symbol(y % 16 * 4 + z / 64), Symbol(z % 64)]
  }

  /** The decoder ignores carriage returns and line feeds wherever they stand. */
  function Strip(t: Bytes): (r: Bytes)
    ensures |r| <= |t|
  {
    if t == [] then [] else if t[0] == 10 || t[0] == 13 then Strip(t[1..]) else [t[0]] + Strip(t[1..])
  }

  function Decode(token: Bytes): Option<Bytes> { DecodeStripped(Strip(token)) }

  function Quantum4(t: Bytes): Option<Bytes>
    requires |t| == 4
  {
    var a, b, c, d := Sextet(t[0]), Sextet(t[1]), Sextet(t[2]), Sextet(t[3]);
    if a.None? || b.None? || c.None? || d.None? then None
    else Some([a.value * 4 + b.value / 16, b.value % 16 * 16 + c.value / 4, c.value % 4 * 64 + d.value])
  }

  /** Strict: the unused bits of a last short group must be zero (section 3.5 of RFC 4648). */
  function DecodeStripped(t: Bytes): Option<Bytes> {
    if t == [] then Some([])
    else if |t| == 1 then None
    else if |t| < 4 then
      var a, b := Sextet(t[0]), Sextet(t[1]);
      if a.None? || b.None? then None
      else if |t| == 2 then if b.value % 16 != 0 then None else Some([a.value * 4 + b.value / 16])
      else
        var c := Sextet(t[2]);
        if c.None? || c.value % 4 != 0 then None
        else Some([a.value * 4 + b.value / 16, b.value % 16 * 16 + c.value / 4])
    else
      var q, rest := Quantum4(t[..4]), DecodeStripped(t[4..]);
      if q.None? || rest.None? then None else Some(q.value + rest.value)
  }

  lemma SymbolRoundTrip(v: sextet)
    ensures Sextet(Symbol(v)) == Some(v) && Symbol(v) != 10 && Symbol(v) != 13
  {
  }

  lemma SextetRoundTrip(b: byte)
    ensures Sextet(b).Some? ==> Symbol(Sextet(b).value) == b
  {
  }

  /** Cutting three bytes into sextets loses nothing. */
  lemma CutAndJoin(x: byte, y: byte, z: byte)
    ensures var a, b, c, d := x / 4, x % 4 * 16 + y / 16, y % 16 * 4 + z / 64, z % 64;
            && 0 <= a < 64 && 0 <= b < 64 && 0 <= c < 64 && 0 <= d < 64
            && a * 4 + b / 16 == x && b % 16 * 16 + c / 4 == y && c % 4 * 64 + d == z
  {
  }

  /** Joining four sextets into bytes loses nothing. */
  lemma JoinAndCut(a: sextet, b: sextet, c: sextet, d: sextet)
    ensures var x, y, z := a * 4 + b / 16, b % 16 * 16 + c / 4, c % 4 * 64 + d;
            && 0 <= x < 256 && 0 <= y < 256 && 0 <= z < 256
            && x / 4 == a && x % 4 * 16 + y / 16 == b && y % 16 * 4 + z / 64 == c && z % 64 == d
  {
  }

  lemma QuantumRoundTrip(x: byte, y: byte, z: byte)
    ensures Quantum4(Quantum(x, y, z)) == Some([x, y, z])
  {
    hide Symbol, Sextet;
    CutAndJoin(x, y, z);
    SymbolRoundTrip(x / 4);
    SymbolRoundTrip(x % 4 * 16 + y / 16);
    SymbolRoundTrip(y % 16 * 4 + z / 64);
    SymbolRoundTrip(z % 64);
  }

  lemma QuantumIsCanonical(t: Bytes)
    requires |t| == 4 && Quantum4(t).Some?
    ensures |Quantum4(t).value| == 3 && Quantum(Quantum4(t).value[0], Quantum4(t).value[1], Quantum4(t).value[2]) == t
  {
    hide Symbol, Sextet;
    SextetRoundTrip(t[0]);
    SextetRoundTrip(t[1]);
    SextetRoundTrip(t[2]);
    SextetRoundTrip(t[3]);
    JoinAndCut(Sextet(t[0]).value, Sextet(t[1]).value, Sextet(t[2]).value, Sextet(t[3]).value);
  }

  /** A last group of one or two bytes leaves zero bits. */
  lemma CutShort(x: byte, y: byte)
    ensures x / 4 * 4 + x % 4 * 16 / 16 == x && x % 4 * 16 % 16 == 0 && 0 <= x % 4 * 16 < 64 && 0 <= x / 4 < 64
    ensures var b, c := x % 4 * 16 + y / 16, y % 16 * 4;
            0 <= b < 64 && 0 <= c < 64 && x / 4 * 4 + b / 16 == x && b % 16 * 16 + c / 4 == y && c % 4 == 0
  {
    CutAndJoin(x, y, 0);
  }

  lemma OneByteRoundTrip(x: byte)
    ensures DecodeStripped(Encode([x])) == Some([x])
  {
    hide Symbol, Sextet;
    CutShort(x, 0);
    var a, b := x / 4, x % 4 * 16;
    SymbolRoundTrip(a);
    SymbolRoundTrip(b);
    assert Encode([x]) == [Symbol(a), Symbol(b)];
  }

  lemma TwoByteRoundTrip(x: byte, y: byte)
    ensures DecodeStripped(Encode([x, y])) == Some([x, y])
  {
    hide Symbol, Sextet;
    CutShort(x, y);
    var a, b, c := x / 4, x % 4 * 16 + y / 16, y % 16 * 4;
    SymbolRoundTrip(a);
    SymbolRoundTrip(b);
    SymbolRoundTrip(c);
    assert Encode([x, y]) == [Symbol(a), Symbol(b), Symbol(c)];
  }

  lemma ShortIsCanonical(t: Bytes)
    requires |t| < 4 && DecodeStripped(t).Some?
    ensures Encode(DecodeStripped(t).value) == t
  {
    hide Symbol, Sextet;
    if |t| >= 2 {
      SextetRoundTrip(t[0]);
      SextetRoundTrip(t[1]);
      if |t| == 2 {
        JoinAndCut(Sextet(t[0]).value, Sextet(t[1]).value, 0, 0);
      } else {
        SextetRoundTrip(t[2]);
        JoinAndCut(Sextet(t[0]).value, Sextet(t[1]).value, Sextet(t[2]).value, 0);
      }
    }
  }

  lemma {:induction false} DecodesWhatItEncodes(b: Bytes)
    ensures DecodeStripped(Encode(b)) == Some(b)
    decreases |b|
  {
    if |b| == 1 {
      OneByteRoundTrip(b[0]);
      assert b == [b[0]];
    } else if |b| == 2 {
      TwoByteRoundTrip(b[0], b[1]);
      assert b == [b[0], b[1]];
    } else if |b| >= 3 {
      hide Quantum, Quantum4;
      QuantumRoundTrip(b[0], b[1], b[2]);
      DecodesWhatItEncodes(b[3..]);
      var q, t := Quantum(b[0], b[1], b[2]), Encode(b);
      assert t[..4] == q && t[4..] == Encode(b[3..]);
      assert b == [b[0], b[1], b[2]] + b[3..];
    }
  }

  /** No second token decodes to the same payload, breaks aside. */
  lemma {:induction false} EncodesWhatItDecodes(t: Bytes)
    requires DecodeStripped(t).Some?
    ensures Encode(DecodeStripped(t).value) == t
    decreases |t|
  {
    if |t| < 4 {
      ShortIsCanonical(t);
    } else {
      hide Quantum, Quantum4;
      QuantumIsCanonical(t[..4]);
      EncodesWhatItDecodes(t[4..]);
      var q, rest := Quantum4(t[..4]).value, DecodeStripped(t[4..]).value;
      var b := DecodeStripped(t).value;
      assert b == q + rest && b[0] == q[0] && b[1] == q[1] && b[2] == q[2] && b[3..] == rest;
      assert t == t[..4] + t[4..];
    }
  }

  predicate NoBreaks(t: Bytes) { forall i :: 0 <= i < |t| ==> t[i] != 10 && t[i] != 13 }

  lemma {:induction false} EncodingHasNoBreaks(b: Bytes)
    ensures NoBreaks(Encode(b))
    decreases |b|
  {
    if |b| >= 3 {
      EncodingHasNoBreaks(b[3..]);
    }
  }

  lemma {:induction false} StripKeeps(t: Bytes)
    requires NoBreaks(t)
    ensures Strip(t) == t
    decreases |t|
  {
    if t != [] {
      StripKeeps(t[1..]);
      assert t == [t[0]] + t[1..];
    }
  }

  /** Decoding inverts encoding. */
  lemma RoundTrip(b: Bytes)
    ensures Decode(Encode(b)) == Some(b)
  {
    EncodingHasNoBreaks(b);
    StripKeeps(Encode(b));
    DecodesWhatItEncodes(b);
  }

  /** An accepted token is, breaks removed, the encoding of its payload. */
  lemma AcceptedIsCanonical(token: Bytes)
    requires Decode(token).Some?
    ensures Encode(Decode(token).value) == Strip(token)
  {
    EncodesWhatItDecodes(Strip(token));
  }

  /** The two ceilings agree: 4096 encoded bytes are exactly 3072 payload bytes. */
  lemma CeilingsAgree(b: Bytes)
    ensures |Encode(b)| <= 4096 <==> |b| <= 3072
  {
  }

  // ---------------------------------------------------------------- the alphabet and the bits

  const UPPER: string := "ABCDEFGHIJKLMNOPQRSTUVWXYZ"
  const LOWER: string := "abcdefghijklmnopqrstuvwxyz"
  const DIGITS: string := "0123456789"

  /** Table 2 of section 5 of RFC 4648. */
  const ALPHABET: string := UPPER + LOWER + DIGITS + "-_"

  lemma Upper(v: nat)
    requires v < 26
    ensures |UPPER| == 26 && UPPER[v] as int == 65 + v
  {
    assert v in [0, 1, 2, 3, 4, 5, 6, 7, 8, 9, 10, 11, 12] || v in [13, 14, 15, 16, 17, 18, 19, 20, 21, 22, 23, 24, 25];
  }

  lemma Lower(v: nat)
    requires v < 26
    ensures |LOWER| == 26 && LOWER[v] as int == 97 + v
  {
    assert v in [0, 1, 2, 3, 4, 5, 6, 7, 8, 9, 10, 11, 12] || v in [13, 14, 15, 16, 17, 18, 19, 20, 21, 22, 23, 24, 25];
  }

  lemma Digits(v: nat)
    requires v < 10
    ensures |DIGITS| == 10 && DIGITS[v] as int == 48 + v
  {
    assert v in [0, 1, 2, 3, 4, 5, 6, 7, 8, 9];
  }

  lemma SymbolIsListed(v: sextet)
    ensures |ALPHABET| == 64 && ALPHABET[v] as int == Symbol(v)
  {
    Upper(if v < 26 then v else 0);
    Lower(if 26 <= v < 52 then v - 26 else 0);
    Digits(if 52 <= v < 62 then v - 52 else 0);
    hide UPPER, LOWER, DIGITS;
  }

  function ByteAt(b: Bytes, k: nat): byte { if k < |b| then b[k] else 0 }

  /** Six bits of a byte and the next, from an even bit of the first on. */
  function SixOf(x: byte, y: byte, bit: nat): sextet {
    (x * 256 + y) / (if bit < 2 then 1024 else if bit < 4 then 256 else if bit < 6 then 64 else 16) % 64
  }

  /** The six bits of a byte string that begin at an even bit; past its end the bits are zero. */
  function SixBits(b: Bytes, bit: nat): sextet {
    SixOf(ByteAt(b, bit / 8), ByteAt(b, bit / 8 + 1), bit % 8)
  }

  lemma Quotient(d: int, q: int, r: int)
    requires (d == 16 || d == 64 || d == 256 || d == 1024) && 0 <= r < d
    ensures (d * q + r) / d == q && (d * q + r) % d == r
  {
    if d == 16 {
      assert (16 * q + r) / 16 == q;
    } else if d == 64 {
      assert (64 * q + r) / 64 == q;
    } else if d == 256 {
      assert (256 * q + r) / 256 == q;
    } else {
      assert (1024 * q + r) / 1024 == q;
    }
  }

  lemma SixAtFront(x: byte, y: byte)
    ensures SixOf(x, y, 0) == x / 4
  {
    Quotient(1024, x / 4, x % 4 * 256 + y);
  }

  lemma SixAtTwo(x: byte, y: byte)
    ensures SixOf(x, y, 2) == x % 64
  {
    Quotient(256, x, y);
  }

  lemma SixAtFour(x: byte, y: byte)
    ensures SixOf(x, y, 4) == x % 16 * 4 + y / 64
  {
    Quotient(64, x * 4 + y / 64, y % 64);
    Quotient(64, x / 16, x % 16 * 4 + y / 64);
  }

  lemma SixAtSix(x: byte, y: byte)
    ensures SixOf(x, y, 6) == x % 4 * 16 + y / 16
  {
    Quotient(16, x * 16 + y / 16, y % 16);
    Quotient(64, x / 4, x % 4 * 16 + y / 16);
  }

  /** Symbol i stands in the table at the six bits from bit 6i on. */
  lemma {:induction false} EncodesSixBits(b: Bytes, i: nat)
    requires i < |Encode(b)|
    ensures |ALPHABET| == 64 && Encode(b)[i] == ALPHABET[SixBits(b, 6 * i)] as int
  {
    SymbolIsListed(SixBits(b, 6 * i));
    if |b| >= 3 && i >= 4 {
      EncodesSixBits(b[3..], i - 4);
      SymbolIsListed(SixBits(b[3..], 6 * (i - 4)));
      NextQuantum(b, i);
    } else {
      hide ALPHABET;
      FirstQuantum(b, i);
    }
  }

  lemma NextQuantum(b: Bytes, i: nat)
    requires |b| >= 3 && i >= 4
    ensures SixBits(b, 6 * i) == SixBits(b[3..], 6 * (i - 4))
  {
    assert 6 * i == 6 * (i - 4) + 24;
    hide SixOf;
  }

  lemma FirstQuantum(b: Bytes, i: nat)
    requires i < |Encode(b)| && (|b| < 3 || i < 4)
    ensures Encode(b)[i] == Symbol(SixBits(b, 6 * i))
  {
    var x, y := ByteAt(b, 6 * i / 8), ByteAt(b, 6 * i / 8 + 1);
    SixAtFront(x, y);
    SixAtTwo(x, y);
    SixAtFour(x, y);
    SixAtSix(x, y);
    hide SixOf, Symbol;
    if |b| == 1 {
      assert i == 0 || i == 1;
    } else if |b| == 2 {
      assert i == 0 || i == 1 || i == 2;
    } else {
      assert Encode(b)[i] == Quantum(b[0], b[1], b[2])[i];
      hide Encode;
      assert i == 0 || i == 1 || i == 2 || i == 3;
    }
  }
}
