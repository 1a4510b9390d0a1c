/** The layout of an emitted cursor, label by label. */
module CursorText {
  import opened Common
  import opened Decimal
  import opened JsonText
  import opened Cursor
  import Base64Url
  import Paging

  lemma LabelsAreText()
    ensures V == Text("{\"v\":") && K == Text(",\"k\":") && N == Text(",\"n\":") && S == Text(",\"s\":")
    ensures B == Text(",\"b\":") && P == Text(",\"p\":") && X == Text(",\"x\":")
    ensures O == Text(",\"o\":") && CLOSE == Text("}")
    ensures PrintInt(VERSION) == Text("1") && RANKED_KIND == Text("ranked") && DUE_KIND == Text("due")
  {
  }

  /** Position, stable key and ordering scope, which end both kinds of cursor. */
  function TailText(k: Paging.Key): Bytes {
    Text(",\"p\":") + (PrintInt(k.position) + (Text(",\"x\":") + (Quoted(k.stableKey) +
    (Text(",\"o\":") + (Quoted(k.orderingScope) + Text("}"))))))
  }

  lemma TailIsText(e: Envelope, k: Paging.Key)
    requires k.position == e.position && k.stableKey == e.stableKey && k.orderingScope == e.orderingScope
    requires Plain(k.stableKey) && Plain(k.orderingScope)
    ensures PrintTail(e) == TailText(k)
  {
    PlainIsQuoted(k.stableKey);
    PlainIsQuoted(k.orderingScope);
    LabelsAreText();
    hide PrintString, PrintInt, Quoted, Text, Plain;
  }

  /** Version, kind and namespace, which begin both kinds of cursor. */
  function HeadText(kind: string, namespace: Bytes, rest: Bytes): Bytes {
    Text("{\"v\":") + (Text("1") + (Text(",\"k\":") + (Quoted(Text(kind)) + (Text(",\"n\":") +
    (Quoted(namespace) + rest)))))
  }

  lemma KindsAreQuoted()
    ensures PrintString(RANKED_KIND) == Quoted(Text("ranked")) && PrintString(DUE_KIND) == Quoted(Text("due"))
  {
    hide PrintString, Quoted, Text, PrintInt;
    LabelsAreText();
    PlainIsQuoted(RANKED_KIND);
    PlainIsQuoted(DUE_KIND);
  }

  lemma HeadIsText(e: Envelope, kind: string)
    requires e.version == VERSION && Plain(e.namespace) && PrintString(e.kind) == Quoted(Text(kind))
    ensures PrintEnvelope(e) == HeadText(kind, e.namespace, PrintScope(e))
  {
    PlainIsQuoted(e.namespace);
    LabelsAreText();
    hide PrintString, PrintInt, Quoted, Text, Plain, PrintScope, RANKED_KIND, DUE_KIND;
  }

  /** A ranked cursor: version, kind, namespace and ranking scope, and then the position. */
  lemma RankedCursorText(namespace: Bytes, scope: Bytes, k: Paging.Key)
    requires Plain(namespace) && Plain(scope) && scope != [] && Plain(k.stableKey) && Plain(k.orderingScope)
    ensures EncodeRanked(namespace, scope, k) ==
            Base64Url.Encode(HeadText("ranked", namespace, Text(",\"s\":") + (Quoted(scope) + TailText(k))))
  {
    var e := RankedEnvelope(namespace, scope, k);
    PlainIsQuoted(scope);
    LabelsAreText();
    TailIsText(e, k);
    KindsAreQuoted();
    HeadIsText(e, "ranked");
    hide PrintString, PrintInt, Quoted, Text, Plain, PrintTail, TailText, HeadText, PrintEnvelope, Base64Url.Encode;
  }

  /** A due cursor: version, kind, namespace and due bound, and then the position. */
  lemma DueCursorText(namespace: Bytes, bound: int, k: Paging.Key)
    requires Plain(namespace) && Plain(k.stableKey) && Plain(k.orderingScope)
    ensures EncodeDue(namespace, bound, k) ==
            Base64Url.Encode(HeadText("due", namespace, Text(",\"b\":") + (PrintInt(bound) + TailText(k))))
  {
    var e := DueEnvelope(namespace, bound, k);
    LabelsAreText();
    TailIsText(e, k);
    KindsAreQuoted();
    HeadIsText(e, "due");
    hide PrintString, PrintInt, Quoted, Text, Plain, PrintTail, TailText, HeadText, PrintEnvelope, Base64Url.Encode;
  }
}
