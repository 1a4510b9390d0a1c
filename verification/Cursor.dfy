/** Continuation cursors: the versioned envelope, its canonical JSON, and the two decoders. */
module Cursor {
  import opened Common
  import opened OrderedTypes
  import opened Decimal
  import opened JsonText
  import Base64Url
  import Paging

  const VERSION: int := 1
  const MAX_ENCODED: nat := 4096
  const MAX_DECODED: nat := 3072

  /** "ranked" and "due". */
  const RANKED_KIND: Bytes := [114, 97, 110, 107, 101, 100]
  const DUE_KIND: Bytes := [100, 117, 101]

  datatype Envelope = Envelope(
    version: int, kind: Bytes, namespace: Bytes, rankingScope: Bytes, dueBound: Option<int>,
    position: int, stableKey: Bytes, orderingScope: Bytes)

  datatype Rule = Malformed | UnknownVersion | WrongKind | QueryMismatch

  datatype Result<T> = Ok(value: T) | Err(rule: Rule)

  // ---------------------------------------------------------------- Marshal

  /** The field labels, from `{"v":` to `,"o":`. */
  const V: Bytes := [123, 34, 118, 34, 58]
  const K: Bytes := [44, 34, 107, 34, 58]
  const N: Bytes := [44, 34, 110, 34, 58]
  const S: Bytes := [44, 34, 115, 34, 58]
  const B: Bytes := [44, 34, 98, 34, 58]
  const P: Bytes := [44, 34, 112, 34, 58]
  const X: Bytes := [44, 34, 120, 34, 58]
  const O: Bytes := [44, 34, 111, 34, 58]
  const CLOSE: Bytes := [125]

  /** The envelope field by field, from the last to the first; empty scope and absent bound are omitted. */
  function PrintTail(e: Envelope): Bytes {
    P + (PrintInt(e.position) + (X + (PrintString(e.stableKey) + (O + (PrintString(e.orderingScope) + CLOSE)))))
  }

  function PrintBound(e: Envelope): Bytes {
    if e.dueBound.None? then PrintTail(e) else B + (PrintInt(e.dueBound.value) + PrintTail(e))
  }

  function PrintScope(e: Envelope): Bytes {
    if e.rankingScope == [] then PrintBound(e) else S + (PrintString(e.rankingScope) + PrintBound(e))
  }

  function PrintEnvelope(e: Envelope): Bytes {
    V + (PrintInt(e.version) + (K + (PrintString(e.kind) + (N + (PrintString(e.namespace) + PrintScope(e))))))
  }

  // ---------------------------------------------------------------- Unmarshal

  function Expect(tag: Bytes, s: Bytes): (r: Option<Bytes>)
    ensures r.Some? <==> tag <= s
    ensures r.Some? ==> s == tag + r.value
  {
    if tag <= s then
      assert s == tag + s[|tag|..];
      Some(s[|tag|..])
    else None
  }

  function LabelledString(tag: Bytes, s: Bytes): Option<(Bytes, Bytes)> {
    var t := Expect(tag, s);
    if t.None? then None else ParseString(t.value)
  }

  function LabelledInt(tag: Bytes, s: Bytes): Option<(int, Bytes)> {
    var t := Expect(tag, s);
    if t.None? then None else ParseInt(t.value)
  }

  datatype Header = Header(version: int, kind: Bytes, rest: Bytes)

  function ParseHeader(raw: Bytes): Option<Header> {
    var v := LabelledInt(V, raw);
    if v.None? then None
    else
      var k := LabelledString(K, v.value.1);
      if k.None? then None else Some(Header(v.value.0, k.value.0, k.value.1))
  }

  /** The fields after the header, in the order Marshal writes them, with nothing after the object. */
  function ParseFields(h: Header): Option<Envelope> {
    var n := LabelledString(N, h.rest);
    if n.None? then None
    else
      var s := LabelledString(S, n.value.1);
      var afterScope := if s.None? then n.value.1 else s.value.1;
      var b := LabelledInt(B, afterScope);
      var afterBound := if b.None? then afterScope else b.value.1;
      var t := ParseTail(afterBound);
      if t.None? then None
      else
        Some(Envelope(h.version, h.kind, n.value.0, if s.None? then [] else s.value.0,
                      if b.None? then None else Some(b.value.0), t.value.0, t.value.1, t.value.2))
  }

  function ParseTail(s: Bytes): Option<(int, Bytes, Bytes)> {
    var p := LabelledInt(P, s);
    if p.None? then None
    else
      var x := LabelledString(X, p.value.1);
      if x.None? then None
      else
        var o := LabelledString(O, x.value.1);
        if o.None? || o.value.1 != CLOSE then None else Some((p.value.0, x.value.0, o.value.0))
  }

  // ---------------------------------------------------------------- the cursor codec

  /** Stands for storage.ValidateStableKey: 1 to 256 bytes of valid UTF-8. */
  predicate ValidStableKey(k: Bytes) { 1 <= |k| <= 256 && ValidUtf8(k) }

  function EncodeCursor(e: Envelope): Bytes { Base64Url.Encode(PrintEnvelope(e)) }

  function RankedEnvelope(namespace: Bytes, scope: Bytes, k: Paging.Key): Envelope {
    Envelope(VERSION, RANKED_KIND, namespace, scope, None, k.position, k.stableKey, k.orderingScope)
  }

  function DueEnvelope(namespace: Bytes, bound: int, k: Paging.Key): Envelope {
    Envelope(VERSION, DUE_KIND, namespace, [], Some(bound), k.position, k.stableKey, k.orderingScope)
  }

  function EncodeRanked(namespace: Bytes, scope: Bytes,
                        k: Paging.Key): Bytes { EncodeCursor(RankedEnvelope(namespace, scope, k)) }

  function EncodeDue(namespace: Bytes, bound: int,
                     k: Paging.Key): Bytes { EncodeCursor(DueEnvelope(namespace, bound, k)) }

  predicate ValidParts(e: Envelope) {
    && ValidName(e.namespace) && ValidStableKey(e.stableKey) && ValidName(e.orderingScope)
    && (e.rankingScope != [] ==> ValidName(e.rankingScope))
  }

  function DecodeCursor(token: Bytes, expected: Bytes): Result<Envelope> {
    if |token| > MAX_ENCODED then Err(Malformed)
    else
      var raw := Base64Url.Decode(token);
      if raw.None? || raw.value == [] || |raw.value| > MAX_DECODED then Err(Malformed)
      else DecodePayload(raw.value, expected)
  }

  function DecodePayload(raw: Bytes, expected: Bytes): Result<Envelope> {
    var h := ParseHeader(raw);
    if h.None? then Err(Malformed)
    else if h.value.version != VERSION then Err(UnknownVersion)
    else if h.value.kind != expected then
      Err(if h.value.kind == RANKED_KIND || h.value.kind == DUE_KIND then WrongKind else Malformed)
    else
      var e := ParseFields(h.value);
      if e.None? || PrintEnvelope(e.value) != raw || !ValidParts(e.value) then Err(Malformed) else Ok(e.value)
  }

  /** decodeRankedCursor: the empty token is the start of the walk. */
  function DecodeRanked(token: Bytes, namespace: Bytes, scope: Bytes): Result<Option<Paging.Key>> {
    if token == [] then Ok(None)
    else
      var e := DecodeCursor(token, RANKED_KIND);
      if e.Err? then Err(e.rule)
      else if e.value.rankingScope == [] || e.value.dueBound.Some? then Err(Malformed)
      else if e.value.namespace != namespace || e.value.rankingScope != scope then Err(QueryMismatch)
      else Ok(Some(Paging.Key(e.value.position, e.value.stableKey, e.value.orderingScope)))
  }

  function DecodeDue(token: Bytes, namespace: Bytes, bound: int): Result<Option<Paging.Key>> {
    if token == [] then Ok(None)
    else
      var e := DecodeCursor(token, DUE_KIND);
      if e.Err? then Err(e.rule)
      else if e.value.rankingScope != [] || e.value.dueBound.None? then Err(Malformed)
      else if e.value.namespace != namespace || e.value.dueBound.value != bound then Err(QueryMismatch)
      else Ok(Some(Paging.Key(e.value.position, e.value.stableKey, e.value.orderingScope)))
  }

  // ---------------------------------------------------------------- reading back one field

  lemma ExpectOwn(tag: Bytes, s: Bytes)
    ensures Expect(tag, tag + s) == Some(s)
  {
    assert (tag + s)[|tag|..] == s;
  }

  lemma StringField(tag: Bytes, value: Bytes, rest: Bytes)
    requires ValidUtf8(value)
    ensures LabelledString(tag, tag + (PrintString(value) + rest)) == Some((value, rest))
  {
    hide Expect, ParseString, PrintString;
    ExpectOwn(tag, PrintString(value) + rest);
    StringRoundTrip(value, rest);
    SanitizeFixesExactlyValid(value);
  }

  lemma IntField(tag: Bytes, value: int, rest: Bytes)
    requires IsInt64(value) && rest != [] && !IsDigit(rest[0])
    ensures LabelledInt(tag, tag + (PrintInt(value) + rest)) == Some((value, rest))
  {
    hide Expect, ParseInt, PrintInt;
    ExpectOwn(tag, PrintInt(value) + rest);
    ParsePrintedInt(value, rest);
  }

  /** A tag that differs in its letter is not found. */
  lemma OtherLabel(tag: Bytes, other: Bytes, s: Bytes)
    requires |tag| == |other| == 5 && tag[2] != other[2]
    ensures Expect(tag, other + s).None?
  {
    assert (other + s)[2] == other[2];
  }

  // ---------------------------------------------------------------- reading back the envelope

  /** Every string is UTF-8 and every number fits int64. */
  predicate Printable(e: Envelope) {
    && IsInt64(e.version) && IsInt64(e.position) && (e.dueBound.Some? ==> IsInt64(e.dueBound.value))
    && ValidUtf8(e.kind) && ValidUtf8(e.namespace) && ValidUtf8(e.rankingScope)
    && ValidUtf8(e.stableKey) && ValidUtf8(e.orderingScope)
  }

  lemma TailRoundTrip(e: Envelope)
    requires Printable(e)
    ensures ParseTail(PrintTail(e)) == Some((e.position, e.stableKey, e.orderingScope))
  {
    hide LabelledInt, LabelledString, PrintInt, PrintString;
    var o := O + (PrintString(e.orderingScope) + CLOSE);
    var x := X + (PrintString(e.stableKey) + o);
    IntField(P, e.position, x);
    StringField(X, e.stableKey, o);
    StringField(O, e.orderingScope, CLOSE);
  }

  lemma BoundRoundTrip(e: Envelope)
    requires Printable(e)
    ensures LabelledInt(B, PrintBound(e)) == if e.dueBound.None? then None else Some((e.dueBound.value, PrintTail(e)))
    ensures Expect(S, PrintBound(e)).None?
    ensures PrintBound(e)[0] == 44
  {
    hide PrintInt, PrintString, ParseInt;
    var tail := PrintTail(e);
    if e.dueBound.None? {
      var rest := PrintInt(e.position) +
          (X + (PrintString(e.stableKey) + (O + (PrintString(e.orderingScope) + CLOSE))));
      OtherLabel(B, P, rest);
      OtherLabel(S, P, rest);
    } else {
      IntField(B, e.dueBound.value, tail);
      OtherLabel(S, B, PrintInt(e.dueBound.value) + tail);
    }
  }

  lemma FieldsRoundTrip(e: Envelope)
    requires Printable(e)
    ensures ParseFields(Header(e.version, e.kind, N + (PrintString(e.namespace) + PrintScope(e)))) == Some(e)
  {
    hide LabelledInt, PrintInt, PrintString, PrintTail, ParseTail, ParseString;
    StringField(N, e.namespace, PrintScope(e));
    BoundRoundTrip(e);
    TailRoundTrip(e);
    if e.rankingScope != [] {
      StringField(S, e.rankingScope, PrintBound(e));
    }
  }

  lemma HeaderRoundTrip(e: Envelope)
    requires Printable(e)
    ensures ParseHeader(PrintEnvelope(e)) ==
              Some(Header(e.version, e.kind, N + (PrintString(e.namespace) + PrintScope(e))))
  {
    hide LabelledInt, LabelledString, PrintInt, PrintString, PrintScope;
    var n := N + (PrintString(e.namespace) + PrintScope(e));
    var k := K + (PrintString(e.kind) + n);
    IntField(V, e.version, k);
    StringField(K, e.kind, n);
  }

  /** The envelope is recovered from its print. */
  lemma PayloadRoundTrip(e: Envelope)
    requires Printable(e) && e.version == VERSION && ValidParts(e)
    ensures DecodePayload(PrintEnvelope(e), e.kind) == Ok(e)
  {
    hide ParseHeader, ParseFields, PrintEnvelope, PrintScope, PrintString;
    HeaderRoundTrip(e);
    FieldsRoundTrip(e);
  }

  // ---------------------------------------------------------------- what an accepted cursor is

  /** An accepted token is the canonical encoding of the envelope it yields, line breaks aside. */
  lemma AcceptedIsCanonical(token: Bytes, kind: Bytes)
    requires DecodeCursor(token, kind).Ok?
    ensures var e := DecodeCursor(token, kind).value;
            e.version == VERSION && e.kind == kind && ValidParts(e) && Base64Url.Strip(token) == EncodeCursor(e)
  {
    hide ParseHeader, ParseFields, PrintEnvelope;
    Base64Url.AcceptedIsCanonical(token);
    FieldsKeepHeader(ParseHeader(Base64Url.Decode(token).value).value);
  }

  lemma FieldsKeepHeader(h: Header)
    ensures ParseFields(h).Some? ==> ParseFields(h).value.version == h.version && ParseFields(h).value.kind == h.kind
  {
  }

  /** A ranked position is accepted only from the cursor of that very query and position. */
  lemma RankedCursorIsBound(token: Bytes, namespace: Bytes, scope: Bytes)
    requires DecodeRanked(token, namespace, scope).Ok? && token != []
    ensures DecodeRanked(token, namespace, scope).value.Some?
    ensures Base64Url.Strip(token) == EncodeRanked(namespace, scope, DecodeRanked(token, namespace, scope).value.value)
  {
    hide DecodeCursor, EncodeCursor;
    AcceptedIsCanonical(token, RANKED_KIND);
  }

  lemma DueCursorIsBound(token: Bytes, namespace: Bytes, bound: int)
    requires DecodeDue(token, namespace, bound).Ok? && token != []
    ensures DecodeDue(token, namespace, bound).value.Some?
    ensures Base64Url.Strip(token) == EncodeDue(namespace, bound, DecodeDue(token, namespace, bound).value.value)
  {
    hide DecodeCursor, EncodeCursor;
    AcceptedIsCanonical(token, DUE_KIND);
  }

  /** A cursor of one query is refused by every other query of either kind. */
  lemma CursorsDoNotTravel(token: Bytes, namespace: Bytes, scope: Bytes, namespace': Bytes, scope': Bytes, bound: int)
    requires DecodeRanked(token, namespace, scope).Ok? && token != []
    ensures DecodeRanked(token, namespace', scope').Ok? <==> namespace' == namespace && scope' == scope
    ensures namespace' != namespace || scope' != scope ==> DecodeRanked(token, namespace', scope') == Err(QueryMismatch)
    ensures DecodeDue(token, namespace', bound) == Err(WrongKind)
  {
    hide ParseHeader, ParseFields, PrintEnvelope;
  }

  lemma DueCursorsDoNotTravel(token: Bytes, namespace: Bytes, bound: int, namespace': Bytes, bound': int, scope: Bytes)
    requires DecodeDue(token, namespace, bound).Ok? && token != []
    ensures DecodeDue(token, namespace', bound').Ok? <==> namespace' == namespace && bound' == bound
    ensures namespace' != namespace || bound' != bound ==> DecodeDue(token, namespace', bound') == Err(QueryMismatch)
    ensures DecodeRanked(token, namespace', scope) == Err(WrongKind)
  {
    hide ParseHeader, ParseFields, PrintEnvelope;
  }

  // ---------------------------------------------------------------- emitted cursors come back

  lemma EnvelopeRoundTrip(e: Envelope)
    requires Printable(e) && e.version == VERSION && ValidParts(e) && |PrintEnvelope(e)| <= MAX_DECODED
    ensures EncodeCursor(e) != [] && DecodeCursor(EncodeCursor(e), e.kind) == Ok(e)
  {
    hide PrintEnvelope, DecodePayload, Base64Url.Encode, Base64Url.Decode;
    PayloadRoundTrip(e);
    var raw := PrintEnvelope(e);
    assert raw != [] by { PrintIsNotEmpty(e); }
    Base64Url.RoundTrip(raw);
    Base64Url.CeilingsAgree(raw);
    EncodingIsNotEmpty(raw);
  }

  /** A cursor of another version is told apart from a malformed one, and one of no known kind is malformed. */
  lemma ForeignEnvelopes(e: Envelope, expected: Bytes)
    requires Printable(e) && |PrintEnvelope(e)| <= MAX_DECODED && (e.version != VERSION || e.kind != expected)
    ensures DecodeCursor(EncodeCursor(e), expected) ==
            Err(if e.version != VERSION then UnknownVersion
                else if e.kind == RANKED_KIND || e.kind == DUE_KIND then WrongKind else Malformed)
  {
    hide PrintEnvelope, ParseHeader, ParseFields, Base64Url.Encode, Base64Url.Decode;
    HeaderRoundTrip(e);
    var raw := PrintEnvelope(e);
    assert raw != [] by { PrintIsNotEmpty(e); }
    Base64Url.RoundTrip(raw);
    Base64Url.CeilingsAgree(raw);
  }

  /** The payload ceiling is the only thing that can stop an emitted cursor from decoding. */
  lemma EmittedCursorDecodesIff(e: Envelope)
    requires Printable(e) && e.version == VERSION && ValidParts(e)
    ensures DecodeCursor(EncodeCursor(e), e.kind).Ok? <==> |PrintEnvelope(e)| <= MAX_DECODED
  {
    hide PrintEnvelope, DecodePayload, Base64Url.Encode, Base64Url.Decode;
    if |PrintEnvelope(e)| <= MAX_DECODED {
      EnvelopeRoundTrip(e);
    } else {
      Base64Url.CeilingsAgree(PrintEnvelope(e));
    }
  }

  lemma PrintIsNotEmpty(e: Envelope)
    ensures PrintEnvelope(e) != []
  {
  }

  lemma EncodingIsNotEmpty(raw: Bytes)
    requires raw != []
    ensures Base64Url.Encode(raw) != []
  {
  }

  predicate ValidPosition(k: Paging.Key) {
    IsInt64(k.position) && ValidStableKey(k.stableKey) && ValidName(k.orderingScope) && ValidUtf8(k.orderingScope)
  }

  lemma {:induction false} KindsAreText()
    ensures ValidUtf8(RANKED_KIND) && ValidUtf8(DUE_KIND) && ValidUtf8([])
  {
    AsciiIsText(RANKED_KIND);
    AsciiIsText(DUE_KIND);
  }

  lemma {:induction false} AsciiIsText(s: Bytes)
    requires forall i :: 0 <= i < |s| ==> s[i] < 128
    ensures ValidUtf8(s)
    decreases |s|
  {
    if s != [] {
      AsciiIsText(s[1..]);
    }
  }

  /** Every emitted ranked cursor within the payload ceiling decodes, under its query, to its position. */
  lemma RankedRoundTrip(namespace: Bytes, scope: Bytes, k: Paging.Key)
    requires ValidName(namespace) && ValidName(scope) && ValidUtf8(namespace) && ValidUtf8(scope) && ValidPosition(k)
    requires |PrintEnvelope(RankedEnvelope(namespace, scope, k))| <= MAX_DECODED
    ensures EncodeRanked(namespace, scope, k) != []
    ensures DecodeRanked(EncodeRanked(namespace, scope, k), namespace, scope) == Ok(Some(k))
  {
    hide PrintEnvelope, DecodeCursor, EncodeCursor, ValidUtf8;
    KindsAreText();
    EnvelopeRoundTrip(RankedEnvelope(namespace, scope, k));
  }

  lemma DueRoundTrip(namespace: Bytes, bound: int, k: Paging.Key)
    requires ValidName(namespace) && ValidUtf8(namespace) && IsInt64(bound) && ValidPosition(k)
    requires |PrintEnvelope(DueEnvelope(namespace, bound, k))| <= MAX_DECODED
    ensures EncodeDue(namespace, bound, k) != []
    ensures DecodeDue(EncodeDue(namespace, bound, k), namespace, bound) == Ok(Some(k))
  {
    hide PrintEnvelope, DecodeCursor, EncodeCursor, ValidUtf8;
    KindsAreText();
    EnvelopeRoundTrip(DueEnvelope(namespace, bound, k));
  }

  // ---------------------------------------------------------------- sizes

  lemma PrintLength(e: Envelope)
    requires Printable(e) && e.version == VERSION
    ensures |PrintEnvelope(e)| <= 93 +
              6 * (|e.kind| + |e.namespace| + |e.rankingScope| + |e.stableKey| + |e.orderingScope|)
  {
    hide PrintString;
    PrintIntLength(e.position);
    if e.dueBound.Some? {
      PrintIntLength(e.dueBound.value);
    }
    assert |PrintInt(1)| == 1;
  }

  /** Names whose lengths add up to at most 234 bytes always fit, whatever must be escaped in them. */
  lemma ShortNamesFit(e: Envelope)
    requires Printable(e) && e.version == VERSION && |e.kind| <= 6 && |e.stableKey| <= 256
    requires 6 * (|e.namespace| + |e.rankingScope| + |e.orderingScope|) <= 1407
    ensures |PrintEnvelope(e)| <= MAX_DECODED
  {
    hide PrintEnvelope;
    PrintLength(e);
  }
}
