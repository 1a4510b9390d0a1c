/** Decimal text of integers: strconv.FormatUint, FormatInt and their inverses. */
module Decimal {
  import opened Common

  const ZERO: byte := 48
  const MINUS: byte := 45

  predicate IsDigit(b: byte) { 48 <= b <= 57 }

  predicate AllDigits(s: Bytes) { forall i :: 0 <= i < |s| ==> IsDigit(s[i]) }

  function PrintNat(n: nat): (s: Bytes)
    ensures s != [] && AllDigits(s)
    ensures s[0] == ZERO ==> n == 0 && s == [ZERO]
  {
    if n < 10 then [48 + n] else PrintNat(n / 10) + [48 + n % 10]
  }

  /** The value of a digit string. */
  function Value(s: Bytes): nat
    requires AllDigits(s)
  {
    if s == [] then 0 else Value(s[..|s| - 1]) * 10 + (s[|s| - 1] - 48)
  }

  lemma {:induction false} ValueOfPrint(n: nat)
    ensures Value(PrintNat(n)) == n
  {
    if n >= 10 {
      ValueOfPrint(n / 10);
      var s := PrintNat(n);
      assert s[..|s| - 1] == PrintNat(n / 10);
    } else {
      assert PrintNat(n)[..0] == [];
    }
  }

  /** A digit string without a superfluous zero is the print of its value. */
  lemma {:induction false} PrintOfValue(s: Bytes)
    requires AllDigits(s) && s != [] && (s[0] == ZERO ==> |s| == 1)
    ensures PrintNat(Value(s)) == s
    decreases |s|
  {
    var front, last := s[..|s| - 1], s[|s| - 1] - 48;
    assert Value(s) == Value(front) * 10 + last;
    assert s == front + [48 + last];
    if front == [] {
      assert Value(front) == 0;
    } else {
      PrintOfValue(front);
      assert s[0] == front[0];
      assert Value(front) != 0 by { assert PrintNat(0) == [ZERO]; }
      hide Value, PrintNat, AllDigits;
      PrintStep(Value(front), last);
    }
  }

  lemma PrintStep(v: nat, last: nat)
    requires v > 0 && last < 10
    ensures PrintNat(v * 10 + last) == PrintNat(v) + [48 + last]
  {
    var n := v * 10 + last;
    assert n / 10 == v && n % 10 == last;
  }

  /** parseUint: ParseUint followed by the comparison with the reprinted value. */
  function ParseUint(text: Bytes): (r: Option<nat>)
  {
    if text == [] || !AllDigits(text) || Value(text) > MAX_UINT64 || PrintNat(Value(text)) != text then None
    else Some(Value(text))
  }

  /** It accepts exactly the canonical prints of the unsigned 64-bit values. */
  lemma ParseUintIsExact(text: Bytes, n: nat)
    ensures ParseUint(text) == Some(n) <==> n <= MAX_UINT64 && text == PrintNat(n)
  {
    ValueOfPrint(n);
  }

  /** The texts that are accepted: digits without a superfluous zero whose value fits. */
  lemma ParseUintAccepts(text: Bytes)
    ensures ParseUint(text).Some? <==>
            && text != [] && AllDigits(text) && (text[0] == ZERO ==> |text| == 1)
            && Value(text) <= MAX_UINT64
    ensures ParseUint(text).Some? ==> ParseUint(text).value == Value(text)
  {
    if text != [] && AllDigits(text) {
      if text[0] == ZERO ==> |text| == 1 {
        PrintOfValue(text);
      }
      hide PrintNat, Value;
    }
  }

  function PrintInt(i: int): (s: Bytes)
    ensures s != []
  {
    if i < 0 then [MINUS] + PrintNat(-i) else PrintNat(i)
  }

  predicate IsInt64(i: int) { -(MAX_INT64 as int) - 1 <= i <= MAX_INT64 }

  /** The longest run of digits at the front. */
  function LeadingDigits(s: Bytes): (n: nat)
    ensures n <= |s| && AllDigits(s[..n])
    ensures n < |s| ==> !IsDigit(s[n])
  {
    if s == [] || !IsDigit(s[0]) then 0
    else
      var n := LeadingDigits(s[1..]);
      assert s[..n + 1] == [s[0]] + s[1..][..n];
      n + 1
  }

  lemma {:induction false} LeadingDigitsOfPrint(d: Bytes, rest: Bytes)
    requires AllDigits(d) && (rest == [] || !IsDigit(rest[0]))
    ensures LeadingDigits(d + rest) == |d|
    decreases |d|
  {
    if d == [] {
      assert d + rest == rest;
    } else {
      assert (d + rest)[1..] == d[1..] + rest;
      LeadingDigitsOfPrint(d[1..], rest);
    }
  }

  /** A JSON integer that fits int64, and what follows it. */
  function ParseInt(s: Bytes): (r: Option<(int, Bytes)>)
  {
    var negative := s != [] && s[0] == MINUS;
    var body := if negative then s[1..] else s;
    var n := LeadingDigits(body);
    if n == 0 || (body[0] == ZERO && n > 1) then None
    else
      var v: int := Value(body[..n]);
      var i := if negative then -v else v;
      if IsInt64(i) then Some((i, body[n..])) else None
  }

  /** The digits of a printed number, and what follows them. */
  lemma PrintedDigits(m: nat, rest: Bytes)
    requires rest == [] || !IsDigit(rest[0])
    ensures var n, body := |PrintNat(m)|, PrintNat(m) + rest;
            && LeadingDigits(body) == n > 0 && (body[0] == ZERO ==> n == 1) && body[0] != MINUS
            && Value(body[..n]) == m && body[n..] == rest
  {
    LeadingDigitsOfPrint(PrintNat(m), rest);
    ValueOfPrint(m);
    assert (PrintNat(m) + rest)[..|PrintNat(m)|] == PrintNat(m);
    assert IsDigit(PrintNat(m)[0]);
  }

  lemma ParsePrintedInt(i: int, rest: Bytes)
    requires IsInt64(i) && (rest == [] || !IsDigit(rest[0]))
    ensures ParseInt(PrintInt(i) + rest) == Some((i, rest))
  {
    var m := if i < 0 then -i else i;
    var body := PrintNat(m) + rest;
    PrintedDigits(m, rest);
    PrintedSign(i, rest);
    hide Value, LeadingDigits, PrintNat, PrintInt, AllDigits;
  }

  lemma PrintedSign(i: int, rest: Bytes)
    ensures i >= 0 ==> PrintInt(i) + rest == PrintNat(i) + rest
    ensures i < 0 ==> (PrintInt(i) + rest)[0] == MINUS && (PrintInt(i) + rest)[1..] == PrintNat(-i) + rest
  {
    hide PrintNat;
    if i < 0 {
      assert [MINUS] + PrintNat(-i) + rest == [MINUS] + (PrintNat(-i) + rest);
    }
  }

  /** At most 20 bytes: a sign and 19 digits. */
  lemma {:induction false} PrintNatLength(n: nat, digits: nat, bound: nat)
    requires bound == Power10(digits) && n < bound && digits > 0
    ensures |PrintNat(n)| <= digits
    decreases digits
  {
    if n >= 10 {
      assert digits > 1;
      PrintNatLength(n / 10, digits - 1, Power10(digits - 1));
    }
  }

  function Power10(k: nat): nat { if k == 0 then 1 else 10 * Power10(k - 1) }

  lemma PrintIntLength(i: int)
    requires IsInt64(i)
    ensures |PrintInt(i)| <= 20
  {
    assert Power10(19) == 10_000_000_000_000_000_000 by {
      assert Power10(5) == 100_000;
      assert Power10(10) == 10_000_000_000;
      assert Power10(15) == 1_000_000_000_000_000;
    }
    PrintNatLength(if i < 0 then -i else i, 19, Power10(19));
  }
}
