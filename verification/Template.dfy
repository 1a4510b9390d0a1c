/**
 Rendering of a migration text: the loop replaces one token after another, in whatever order
 the replacement map is iterated.  The reference is simultaneous substitution.
 */
module Template {
  // ---------------------------------------------------------------- tokens and identifiers

  predicate LowerCase(c: char) { 'a' <= c <= 'z' }

  predicate IdentifierChar(c: char) { LowerCase(c) || '0' <= c <= '9' || c == '_' }

  /** A placeholder name: lower-case letters and underscores. */
  predicate ValidTokenName(name: string) {
    name != "" && forall i :: 0 <= i < |name| ==> LowerCase(name[i]) || name[i] == '_'
  }

  function Token(name: string): string { "{{" + name + "}}" }

  /** What may stand for a token: nothing with a brace, and a quote in front. */
  predicate Quoted(value: string) { value != "" && value[0] == '"' && '{' !in value }

  /** A replacement map, by placeholder name. */
  ghost predicate Replacements(m: map<string, string>) {
    forall name :: name in m ==> ValidTokenName(name) && Quoted(m[name])
  }

  /** strings.ReplaceAll with a nonempty pattern. */
  function ReplaceAll(s: string, pattern: string, value: string): string
    requires pattern != ""
    decreases |s|
  {
    if s == "" then ""
    else if pattern <= s then value + ReplaceAll(s[|pattern|..], pattern, value)
    else [s[0]] + ReplaceAll(s[1..], pattern, value)
  }

  /** A token of the map stands at the front of s. */
  ghost predicate StartsWithToken(s: string, m: map<string, string>) { exists name :: name in m && Token(name) <= s }

  /** Simultaneous substitution: every token of the map is replaced where it stands in the text, once. */
  ghost function Render(s: string, m: map<string, string>): string
    decreases |s|
  {
    if s == "" then ""
    else if StartsWithToken(s, m) then
      var name :| name in m && Token(name) <= s;
      m[name] + Render(s[|Token(name)|..], m)
    else [s[0]] + Render(s[1..], m)
  }

  // ---------------------------------------------------------------- tokens do not overlap

  lemma TokenChar(name: string, i: nat)
    requires ValidTokenName(name) && i < |Token(name)|
    ensures i < 2 ==> Token(name)[i] == '{'
    ensures i == 2 ==> Token(name)[i] != '{' && Token(name)[i] != '}'
    ensures 2 <= i < |Token(name)| - 2 ==> Token(name)[i] != '{' && Token(name)[i] != '}'
    ensures i >= |Token(name)| - 2 ==> Token(name)[i] == '}'
    ensures Token(name)[i] != '"'
  {
    if 2 <= i < |Token(name)| - 2 {
      assert Token(name)[i] == name[i - 2];
    }
  }

  /** At most one token stands at the front of a text. */
  lemma OneTokenInFront(s: string, name: string, other: string)
    requires ValidTokenName(name) && ValidTokenName(other) && Token(name) <= s && Token(other) <= s
    ensures name == other
  {
    var t, u := Token(name), Token(other);
    if |t| < |u| {
      TokenChar(name, |t| - 2);
      TokenChar(other, |t| - 2);
    } else if |u| < |t| {
      TokenChar(name, |u| - 2);
      TokenChar(other, |u| - 2);
    } else {
      assert t == u;
      assert name == t[2..|t| - 2] && other == u[2..|u| - 2];
    }
  }

  /** Inside a token no other begins: a proper tail of a token and a token cannot both be in front. */
  lemma NoTokenInsideToken(s: string, name: string, k: nat, other: string)
    requires ValidTokenName(name) && ValidTokenName(other) && 0 < k < |Token(name)|
    requires Token(name)[k..] <= s
    ensures !(Token(other) <= s)
  {
    var w, u := Token(name)[k..], Token(other);
    if u <= s {
      TokenChar(other, 0);
      TokenChar(other, 1);
      TokenChar(name, k);
      assert w[0] == u[0];
      assert k == 1;
      TokenChar(name, 2);
    }
  }

  lemma RenderToken(s: string, m: map<string, string>, name: string)
    requires Replacements(m) && name in m && Token(name) <= s
    ensures Render(s, m) == m[name] + Render(s[|Token(name)|..], m)
  {
    forall other | other in m && Token(other) <= s ensures other == name {
      OneTokenInFront(s, name, other);
    }
    assert StartsWithToken(s, m);
  }

  lemma RenderedTokenIsQuoted(s: string, m: map<string, string>)
    requires Replacements(m)
    ensures StartsWithToken(s, m) ==> Render(s, m) != "" && Render(s, m)[0] == '"'
  {
    if StartsWithToken(s, m) {
      var other :| other in m && Token(other) <= s;
      RenderToken(s, m, other);
    }
  }

  /** No token of the map stands where a token outside of it, or the tail of any, stands. */
  lemma NothingElseInFront(s: string, m: map<string, string>, name: string, k: nat)
    requires Replacements(m) && ValidTokenName(name) && k < |Token(name)| && Token(name)[k..] <= s
    requires k == 0 ==> name !in m
    ensures !StartsWithToken(s, m)
  {
    forall other | other in m ensures !(Token(other) <= s) {
      if k > 0 {
        NoTokenInsideToken(s, name, k, other);
      } else if Token(other) <= s {
        OneTokenInFront(s, name, other);
      }
    }
  }

  /** A tail of a token whose front is no token of the map is copied as it is. */
  lemma {:induction false} TailIsCopied(s: string, m: map<string, string>, name: string, k: nat)
    requires Replacements(m) && ValidTokenName(name) && k <= |Token(name)| && Token(name)[k..] <= s
    requires k == 0 ==> name !in m
    ensures Render(s, m) == Token(name)[k..] + Render(s[|Token(name)| - k..], m)
    decreases |Token(name)| - k
  {
    var t := Token(name);
    hide Token, Replacements;
    if k < |t| {
      NothingElseInFront(s, m, name, k);
      Uncons(t[k..], s);
      assert t[k..][1..] == t[k + 1..];
      TailIsCopied(s[1..], m, name, k + 1);
      var n := |t| - k - 1;
      assert s[1..][n..] == s[n + 1..];
      CopyOne(s, m, t[k + 1..], Render(s[n + 1..], m));
    } else {
      assert s[0..] == s && t[k..] == "";
    }
  }

  lemma Uncons(w: string, s: string)
    requires w != "" && w <= s
    ensures s != "" && w == [s[0]] + w[1..] && w[1..] <= s[1..]
  {
    assert forall i :: 0 <= i < |w| ==> w[i] == s[i];
  }

  lemma CopyOne(s: string, m: map<string, string>, x: string, rest: string)
    requires s != "" && !StartsWithToken(s, m) && Render(s[1..], m) == x + rest
    ensures Render(s, m) == [s[0]] + x + rest
  {
    assert [s[0]] + (x + rest) == [s[0]] + x + rest;
  }

  /** Rendering does not make a token, nor a tail of one, appear in front. */
  lemma {:induction false} NothingAppears(s: string, m: map<string, string>, name: string, k: nat)
    requires Replacements(m) && ValidTokenName(name) && k <= |Token(name)| && Token(name)[k..] <= Render(s, m)
    ensures Token(name)[k..] <= s
    ensures k < |Token(name)| ==> !StartsWithToken(s, m)
    decreases |Token(name)| - k
  {
    if k < |Token(name)| {
      var w := Token(name)[k..];
      TokenChar(name, k);
      assert Render(s, m)[0] == w[0] != '"';
      RenderedTokenIsQuoted(s, m);
      assert Render(s, m)[1..] == Render(s[1..], m);
      assert w[1..] <= Render(s, m)[1..];
      NothingAppears(s[1..], m, name, k + 1);
    }
  }

  // ---------------------------------------------------------------- one more replacement

  /** Text without an opening brace is passed over. */
  lemma {:induction false} ValueIsPassed(value: string, rest: string, pattern: string, with: string)
    requires '{' !in value && pattern != "" && pattern[0] == '{'
    ensures ReplaceAll(value + rest, pattern, with) == value + ReplaceAll(rest, pattern, with)
    decreases |value|
  {
    if value == "" {
      assert value + rest == rest;
    } else {
      assert value[0] in value;
      assert (value + rest)[1..] == value[1..] + rest;
      ValueIsPassed(value[1..], rest, pattern, with);
    }
  }

  /** The new token stands in front. */
  lemma TokenIsReplaced(s: string, m: map<string, string>, name: string, value: string)
    requires Replacements(m) && ValidTokenName(name) && Quoted(value) && name !in m && Token(name) <= s
    requires var rest := s[|Token(name)|..];
             ReplaceAll(Render(rest, m), Token(name), value) == Render(rest, m[name := value])
    ensures ReplaceAll(Render(s, m), Token(name), value) == Render(s, m[name := value])
  {
    var t := Token(name);
    var rest := Render(s[|t|..], m);
    TailIsCopied(s, m, name, 0);
    assert t[0..] == t;
    RenderToken(s, m[name := value], name);
    hide Token, Render;
    assert (t + rest)[|t|..] == rest;
  }

  /** Replacing one more token in a rendered text is rendering with one more token. */
  lemma {:induction false} OneMoreToken(s: string, m: map<string, string>, name: string, value: string)
    requires Replacements(m) && ValidTokenName(name) && Quoted(value) && name !in m
    ensures ReplaceAll(Render(s, m), Token(name), value) == Render(s, m[name := value])
    decreases |s|
  {
    var m', t := m[name := value], Token(name);
    if s == "" {
    } else if t <= s {
      OneMoreToken(s[|t|..], m, name, value);
      TokenIsReplaced(s, m, name, value);
    } else if StartsWithToken(s, m) {
      var other :| other in m && Token(other) <= s;
      RenderToken(s, m, other);
      RenderToken(s, m', other);
      ValueIsPassed(m[other], Render(s[|Token(other)|..], m), t, value);
      OneMoreToken(s[|Token(other)|..], m, name, value);
    } else {
      assert !StartsWithToken(s, m');
      if t <= Render(s, m) {
        NothingAppears(s, m, name, 0);
      }
      assert Render(s, m)[1..] == Render(s[1..], m);
      OneMoreToken(s[1..], m, name, value);
    }
  }

  // ---------------------------------------------------------------- the loop

  lemma {:induction false} RenderNothing(s: string)
    ensures Render(s, map[]) == s
    decreases |s|
  {
    if s != "" {
      RenderNothing(s[1..]);
    }
  }

  /** The part of a map that the first names of an iteration have covered. */
  ghost function Covered(m: map<string, string>, order: seq<string>): map<string, string>
    requires forall name :: name in order ==> name in m
  {
    map name | name in order :: m[name]
  }

  /** `order` lists the keys of m, each once: some iteration of the map. */
  ghost predicate Iterates(order: seq<string>, m: map<string, string>) {
    && (forall name :: name in order <==> name in m)
    && (forall i, j :: 0 <= i < j < |order| ==> order[i] != order[j])
  }

  lemma CoversOneMore(m: map<string, string>, order: seq<string>, i: nat)
    requires Iterates(order, m) && i < |order|
    ensures order[i] in m && order[i] !in Covered(m, order[..i])
    ensures Covered(m, order[..i + 1]) == Covered(m, order[..i])[order[i] := m[order[i]]]
  {
    assert order[i] in order && order[..i + 1] == order[..i] + [order[i]];
  }

  /** The substitution loop: whatever the order of iteration, the result is the simultaneous substitution. */
  method Substitute(text: string, m: map<string, string>, order: seq<string>) returns (statement: string)
    requires Replacements(m) && Iterates(order, m)
    ensures statement == Render(text, m)
  {
    hide Render, ReplaceAll, ValidTokenName;
    statement := text;
    RenderNothing(text);
    var i := 0;
    assert Covered(m, order[..0]) == map[];
    while i < |order|
      invariant i <= |order| && statement == Render(text, Covered(m, order[..i]))
    {
      CoversOneMore(m, order, i);
      OneMoreToken(text, Covered(m, order[..i]), order[i], m[order[i]]);
      statement := ReplaceAll(statement, Token(order[i]), m[order[i]]);
      i := i + 1;
    }
    assert order[..i] == order;
    assert Covered(m, order) == m;
  }

  /** No token of the map is left in the result. */
  lemma {:induction false} NoTokenRemains(s: string, m: map<string, string>, name: string, i: nat)
    requires Replacements(m) && name in m && i <= |Render(s, m)|
    ensures !(Token(name) <= Render(s, m)[i..])
    decreases |s|, i
  {
    var r := Render(s, m);
    if s == "" {
    } else if i == 0 {
      assert r[0..] == r;
      if Token(name) <= r {
        assert Token(name)[0..] == Token(name);
        NothingAppears(s, m, name, 0);
        assert StartsWithToken(s, m);
      }
    } else if StartsWithToken(s, m) {
      var other :| other in m && Token(other) <= s;
      RenderToken(s, m, other);
      var value, rest := m[other], s[|Token(other)|..];
      if i < |value| {
        assert r[i..][0] == value[i] && value[i] in value;
      } else {
        assert r[i..] == Render(rest, m)[i - |value|..];
        NoTokenRemains(rest, m, name, i - |value|);
      }
    } else {
      assert r[i..] == Render(s[1..], m)[i - 1..];
      NoTokenRemains(s[1..], m, name, i - 1);
    }
  }

  // ---------------------------------------------------------------- the replacement map of the runner

  const TABLES: seq<string> := [
    "ledger_scopes", "ledger_records", "kv", "leases", "ordered_scopes", "ordered_records",
    "ordered_order_idx", "ordered_rank_idx", "ordered_due_idx"
  ]

  /** options.validIdentifier; schema and table prefix have passed it. */
  predicate ValidIdentifier(value: string, maxBytes: nat) {
    && value != "" && |value| <= maxBytes && LowerCase(value[0])
    && forall i :: 1 <= i < |value| ==> IdentifierChar(value[i])
  }

  /** The loop of validIdentifier. */
  method CheckIdentifier(value: string, maxBytes: nat) returns (ok: bool)
    ensures ok <==> ValidIdentifier(value, maxBytes)
  {
    if value == "" || |value| > maxBytes || value[0] < 'a' || value[0] > 'z' {
      return false;
    }
    var i := 1;
    while i < |value|
      invariant 1 <= i <= |value| && forall j :: 1 <= j < i ==> IdentifierChar(value[j])
    {
      var c := value[i];
      if (c < 'a' || c > 'z') && (c < '0' || c > '9') && c != '_' {
        return false;
      }
      i := i + 1;
    }
    return true;
  }

  function QuoteIdentifier(identifier: string): string { "\"" + ReplaceAll(identifier, "\"", "\"\"") + "\"" }

  lemma {:induction false} ReplaceNothing(s: string, pattern: string, value: string)
    requires pattern != "" && pattern[0] !in s
    ensures ReplaceAll(s, pattern, value) == s
    decreases |s|
  {
    if s != "" {
      assert s[0] in s && s == [s[0]] + s[1..];
      ReplaceNothing(s[1..], pattern, value);
    }
  }

  /** A plain identifier is quoted by two quotes and nothing else. */
  lemma PlainIsQuoted(identifier: string)
    requires forall i :: 0 <= i < |identifier| ==> IdentifierChar(identifier[i])
    ensures QuoteIdentifier(identifier) == "\"" + identifier + "\"" && Quoted(QuoteIdentifier(identifier))
  {
    ReplaceNothing(identifier, "\"", "\"\"");
  }

  function ReplacementMap(schema: string, prefix: string): map<string, string> {
    map name | name in TABLES + ["schema"] :: QuoteIdentifier(if name == "schema" then schema else prefix + name)
  }

  lemma TokenNamesAreValid(name: string)
    requires name in TABLES + ["schema"]
    ensures ValidTokenName(name)
  {
    assert ValidTokenName("ledger_scopes") && ValidTokenName("ledger_records");
    assert ValidTokenName("kv") && ValidTokenName("leases") && ValidTokenName("schema");
    assert ValidTokenName("ordered_scopes") && ValidTokenName("ordered_records");
    assert ValidTokenName("ordered_order_idx") && ValidTokenName("ordered_rank_idx");
    assert ValidTokenName("ordered_due_idx");
    hide ValidTokenName;
  }

  lemma ReplacementIsQuoted(schema: string, prefix: string, name: string)
    requires ValidIdentifier(schema, 63) && ValidIdentifier(prefix, 40) && ValidTokenName(name)
    ensures Quoted(QuoteIdentifier(if name == "schema" then schema else prefix + name))
  {
    var identifier := if name == "schema" then schema else prefix + name;
    forall i | 0 <= i < |identifier| ensures IdentifierChar(identifier[i]) {
    }
    PlainIsQuoted(identifier);
  }

  lemma ReplacementsAreSafe(schema: string, prefix: string)
    requires ValidIdentifier(schema, 63) && ValidIdentifier(prefix, 40)
    ensures Replacements(ReplacementMap(schema, prefix))
  {
    hide ValidTokenName, Quoted, ValidIdentifier, QuoteIdentifier;
    var m := ReplacementMap(schema, prefix);
    forall name | name in m ensures ValidTokenName(name) && Quoted(m[name]) {
      TokenNamesAreValid(name);
      ReplacementIsQuoted(schema, prefix, name);
    }
  }

  // ---------------------------------------------------------------- what a rendered statement is

  /** The placeholders of the migration texts. */
  predicate Listed(name: string) { name in TABLES + ["schema"] }

  /** The ten placeholders that the files of migrations/ use. */
  lemma ScriptsAreListed()
    ensures Listed("schema") && Listed("kv") && Listed("leases") && Listed("ledger_scopes") && Listed("ledger_records")
    ensures Listed("ordered_scopes") && Listed("ordered_records")
    ensures Listed("ordered_order_idx") && Listed("ordered_rank_idx") && Listed("ordered_due_idx")
  {
    assert TABLES[0] == "ledger_scopes" && TABLES[1] == "ledger_records" && TABLES[2] == "kv" && TABLES[3] == "leases";
    assert TABLES[4] == "ordered_scopes" && TABLES[5] == "ordered_records" && TABLES[6] == "ordered_order_idx";
    assert TABLES[7] == "ordered_rank_idx" && TABLES[8] == "ordered_due_idx";
  }

  /** What stands for a placeholder: the quoted schema, or the quoted name with the table prefix before it. */
  function Target(name: string, schema: string, prefix: string): string {
    "\"" + (if name == "schema" then schema else prefix + name) + "\""
  }

  ghost predicate AtPlaceholder(text: string) { exists name :: Listed(name) && Token(name) <= text }

  /** The statement is the text with the target of each placeholder in its place. */
  ghost predicate Renders(text: string, statement: string, schema: string, prefix: string)
    decreases |text|
  {
    if text == "" then statement == ""
    else if AtPlaceholder(text) then
      var name :| Listed(name) && Token(name) <= text;
      var target := Target(name, schema, prefix);
      target <= statement && Renders(text[|Token(name)|..], statement[|target|..], schema, prefix)
    else statement != "" && statement[0] == text[0] && Renders(text[1..], statement[1..], schema, prefix)
  }

  lemma ReplacementIsTarget(name: string, schema: string, prefix: string)
    requires ValidIdentifier(schema, 63) && ValidIdentifier(prefix, 40) && Listed(name)
    ensures name in ReplacementMap(schema, prefix)
            && ReplacementMap(schema, prefix)[name] == Target(name, schema, prefix)
  {
    TokenNamesAreValid(name);
    var identifier := if name == "schema" then schema else prefix + name;
    forall i | 0 <= i < |identifier| ensures IdentifierChar(identifier[i]) {
    }
    PlainIsQuoted(identifier);
    hide QuoteIdentifier, ValidTokenName, ValidIdentifier;
  }

  lemma {:induction false} SubstitutionRenders(text: string, schema: string, prefix: string)
    requires ValidIdentifier(schema, 63) && ValidIdentifier(prefix, 40)
    ensures Renders(text, Render(text, ReplacementMap(schema, prefix)), schema, prefix)
    decreases |text|
  {
    hide ReplacementMap, Token, Target, Listed;
    var m := ReplacementMap(schema, prefix);
    ReplacementsAreSafe(schema, prefix);
    MapIsListed(schema, prefix);
    if text == "" {
    } else if AtPlaceholder(text) {
      var name :| Listed(name) && Token(name) <= text;
      forall other | Listed(other) && Token(other) <= text ensures other == name {
        OneTokenInFront(text, name, other);
      }
      ReplacementIsTarget(name, schema, prefix);
      RenderToken(text, m, name);
      SubstitutionRenders(text[|Token(name)|..], schema, prefix);
      var target := Target(name, schema, prefix);
      assert Render(text, m)[|target|..] == Render(text[|Token(name)|..], m);
    } else {
      assert !StartsWithToken(text, m);
      SubstitutionRenders(text[1..], schema, prefix);
      assert Render(text, m)[1..] == Render(text[1..], m);
    }
  }

  lemma MapIsListed(schema: string, prefix: string)
    ensures forall name :: name in ReplacementMap(schema, prefix) <==> Listed(name)
    ensures forall name :: Listed(name) ==> ValidTokenName(name)
  {
    hide ValidTokenName;
    forall name | Listed(name) ensures ValidTokenName(name) {
      TokenNamesAreValid(name);
    }
  }

  lemma PlaceholderRenders(text: string, statement: string, schema: string, prefix: string, name: string)
    requires Listed(name) && Token(name) <= text && Renders(text, statement, schema, prefix)
    ensures var target := Target(name, schema, prefix);
            && target <= statement
            && Renders(text[|Token(name)|..], statement[|target|..], schema, prefix)
  {
    assert |Token(name)| > 0;
    hide Target, Token, Listed;
    MapIsListed(schema, prefix);
    forall other | Listed(other) && Token(other) <= text ensures other == name {
      OneTokenInFront(text, name, other);
    }
    assert AtPlaceholder(text);
  }

  /** A text is rendered to one statement only. */
  lemma {:induction false} RendersOnce(text: string, one: string, other: string, schema: string, prefix: string)
    requires Renders(text, one, schema, prefix) && Renders(text, other, schema, prefix)
    ensures one == other
    decreases |text|
  {
    hide Target, Token, Listed;
    if text == "" {
    } else if AtPlaceholder(text) {
      var name :| Listed(name) && Token(name) <= text;
      TokenIsNotEmpty(name);
      PlaceholderRenders(text, one, schema, prefix, name);
      PlaceholderRenders(text, other, schema, prefix, name);
      var n := |Target(name, schema, prefix)|;
      RendersOnce(text[|Token(name)|..], one[n..], other[n..], schema, prefix);
      assert one == one[..n] + one[n..] && other == other[..n] + other[n..];
    } else {
      RendersOnce(text[1..], one[1..], other[1..], schema, prefix);
      assert one == [one[0]] + one[1..] && other == [other[0]] + other[1..];
    }
  }

  /** No placeholder begins in the first n characters. */
  ghost predicate PlainUpTo(text: string, n: nat) {
    forall i, name :: 0 <= i < n && i <= |text| && Listed(name) ==> !(Token(name) <= text[i..])
  }

  lemma TokenIsNotEmpty(name: string)
    ensures |Token(name)| > 0
  {
  }

  /** A character that begins no placeholder is copied. */
  lemma CharacterRenders(text: string, statement: string, schema: string, prefix: string)
    requires text != "" && !AtPlaceholder(text) && Renders(text, statement, schema, prefix)
    ensures statement != "" && statement[0] == text[0] && Renders(text[1..], statement[1..], schema, prefix)
  {
  }

  lemma PlainTail(front: string, rest: string)
    requires front != "" && PlainUpTo(front + rest, |front|)
    ensures !AtPlaceholder(front + rest) && PlainUpTo(front[1..] + rest, |front| - 1)
  {
    hide Token, Listed;
    var text := front + rest;
    assert text[0..] == text;
    assert text[1..] == front[1..] + rest;
    forall i, other | 0 <= i < |front| - 1 && i <= |text[1..]| && Listed(other)
      ensures !(Token(other) <= text[1..][i..])
    {
      assert text[1..][i..] == text[i + 1..];
    }
  }

  /** What is before the first placeholder is copied, and the rest is rendered by itself. */
  lemma {:induction false} FrontIsCopied(front: string, rest: string, statement: string, schema: string, prefix: string)
    requires PlainUpTo(front + rest, |front|) && Renders(front + rest, statement, schema, prefix)
    ensures front <= statement && Renders(rest, statement[|front|..], schema, prefix)
    decreases |front|
  {
    hide PlainUpTo, Renders, AtPlaceholder;
    if front == "" {
      assert front + rest == rest && statement[0..] == statement;
    } else {
      PlainTail(front, rest);
      CharacterRenders(front + rest, statement, schema, prefix);
      assert (front + rest)[1..] == front[1..] + rest;
      FrontIsCopied(front[1..], rest, statement[1..], schema, prefix);
      assert statement[1..][|front| - 1..] == statement[|front|..];
      assert front == [front[0]] + front[1..] && statement == [statement[0]] + statement[1..];
    }
  }

  /**
   The first placeholder of a text: what is before it is copied, the quoted schema or the quoted
   prefixed name takes its place, and what is after it is rendered by itself.
   */
  lemma FirstPlaceholder(front: string, name: string, back: string, statement: string, schema: string, prefix: string)
    returns (rest: string)
    requires Listed(name) && PlainUpTo(front + (Token(name) + back), |front|)
    requires Renders(front + (Token(name) + back), statement, schema, prefix)
    ensures Renders(back, rest, schema, prefix)
    ensures statement == front + "\"" + (if name == "schema" then schema else prefix + name) + "\"" + rest
  {
    hide Renders, PlainUpTo;
    FrontIsCopied(front, Token(name) + back, statement, schema, prefix);
    var tail, target := statement[|front|..], Target(name, schema, prefix);
    PlaceholderRenders(Token(name) + back, tail, schema, prefix, name);
    assert (Token(name) + back)[|Token(name)|..] == back;
    rest := tail[|target|..];
    assert tail == target + rest && statement == front + tail;
  }

  /** Some iteration of the replacement map: its keys, each once. */
  ghost predicate IteratesNames(order: seq<string>) {
    && (forall name :: name in order <==> Listed(name))
    && (forall i, j :: 0 <= i < j < |order| ==> order[i] != order[j])
  }

  /**
   Confluence: for every validated schema and prefix, any two iteration orders render the same
   statement, with no token left.
   */
  method RenderMigration(text: string, schema: string, prefix: string, order: seq<string>) returns (statement: string)
    requires ValidIdentifier(schema, 63) && ValidIdentifier(prefix, 40) && IteratesNames(order)
    ensures Renders(text, statement, schema, prefix)
    ensures forall name, i :: Listed(name) && 0 <= i <= |statement| ==> !(Token(name) <= statement[i..])
  {
    var replacements := ReplacementMap(schema, prefix);
    ReplacementsAreSafe(schema, prefix);
    MapIsListed(schema, prefix);
    statement := Substitute(text, replacements, order);
    SubstitutionRenders(text, schema, prefix);
    forall name, i | Listed(name) && 0 <= i <= |statement| ensures !(Token(name) <= statement[i..]) {
      NoTokenRemains(text, replacements, name, i);
    }
  }
}
