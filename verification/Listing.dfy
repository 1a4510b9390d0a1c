/**
 ListRanked and ListDue as a caller uses them: the place of a walk travels as an opaque token
 that each call decodes and prints again.
 */
module Listing {
  import opened Common
  import opened OrderedTypes
  import opened Paging
  import opened Cursor
  import opened JsonText
  import opened Decimal
  import OrderedWrites
  import OrderedTheorems

  function DecodeToken(v: View, token: Bytes): Cursor.Result<Option<Key>> {
    if v.RankedView? then DecodeRanked(token, v.namespace, v.rankingScope) else DecodeDue(token, v.namespace, v.bound)
  }

  function EncodeToken(v: View, k: Key): Bytes {
    if v.RankedView? then EncodeRanked(v.namespace, v.rankingScope, k) else EncodeDue(v.namespace, v.bound, k)
  }

  function EnvelopeOf(v: View, k: Key): Envelope {
    if v.RankedView? then RankedEnvelope(v.namespace, v.rankingScope, k) else DueEnvelope(v.namespace, v.bound, k)
  }

  /** A page as it is returned; the empty token means that nothing is left. */
  datatype TokenPage = TokenPage(keys: seq<Key>, nextToken: Bytes)

  /** ListRanked and ListDue: decode the token, read the page, print the token of its last record. */
  ghost function ListPage(v: View, t: Table, token: Bytes, limit: nat): Cursor.Result<TokenPage>
    requires limit > 0
  {
    var position := DecodeToken(v, token);
    if position.Err? then Err(position.rule)
    else
      var page := List(v, t, position.value, limit);
      Ok(TokenPage(page.keys, if page.next.None? then [] else EncodeToken(v, page.next.value)))
  }

  /** The caller's loop: hand each token back until it is empty. */
  ghost function TokenWalk(v: View, tables: seq<Table>, limits: seq<nat>, token: Bytes): Cursor.Result<Trip>
    requires |tables| == |limits| && forall i :: 0 <= i < |limits| ==> limits[i] > 0
    decreases |tables|
  {
    if tables == [] then Ok(Trip([], false))
    else
      var page := ListPage(v, tables[0], token, limits[0]);
      if page.Err? then Err(page.rule)
      else if page.value.nextToken == [] then Ok(Trip(page.value.keys, true))
      else
        var rest := TokenWalk(v, tables[1..], limits[1..], page.value.nextToken);
        if rest.Err? then rest else Ok(Trip(page.value.keys + rest.value.keys, rest.value.complete))
  }

  predicate ValidView(v: View) {
    && ValidName(v.namespace) && ValidUtf8(v.namespace)
    && match v
       case RankedView(_, scope) => ValidName(scope) && ValidUtf8(scope)
       case DueView(_, bound) => IsInt64(bound)
  }

  /** The position can be printed, and its payload is within the ceiling. */
  predicate Carries(v: View, k: Key) { ValidPosition(k) && |PrintEnvelope(EnvelopeOf(v, k))| <= MAX_DECODED }

  ghost predicate CarriesAll(v: View, tables: seq<Table>) {
    forall i, k :: 0 <= i < |tables| && k in Keys(v, tables[i]) ==> Carries(v, k)
  }

  lemma TokenRoundTrip(v: View, k: Key)
    requires ValidView(v) && Carries(v, k)
    ensures EncodeToken(v, k) != [] && DecodeToken(v, EncodeToken(v, k)) == Ok(Some(k))
  {
    hide PrintEnvelope, EncodeRanked, EncodeDue, DecodeRanked, DecodeDue;
    if v.RankedView? {
      RankedRoundTrip(v.namespace, v.rankingScope, k);
    } else {
      DueRoundTrip(v.namespace, v.bound, k);
    }
  }

  lemma NextIsInView(v: View, t: Table, position: Option<Key>, limit: nat)
    requires limit > 0 && List(v, t, position, limit).next.Some?
    ensures List(v, t, position, limit).next.value in Keys(v, t)
  {
    PageIsPast(v, t, position, limit);
    var page := List(v, t, position, limit);
    assert page.keys[limit - 1] in page.keys;
  }

  /** Walking by tokens is walking by positions: nothing is lost or confused in the tokens. */
  lemma {:induction false} TokenWalkIsWalk(v: View, tables: seq<Table>, limits: seq<nat>, token: Bytes,
                                           position: Option<Key>)
    requires |tables| == |limits| && forall i :: 0 <= i < |limits| ==> limits[i] > 0
    requires ValidView(v) && CarriesAll(v, tables) && DecodeToken(v, token) == Ok(position)
    ensures TokenWalk(v, tables, limits, token) == Ok(Walk(v, tables, limits, position))
    decreases |tables|
  {
    hide List, Carries, Keys, EncodeToken, DecodeToken, ValidView;
    if tables != [] {
      var page := List(v, tables[0], position, limits[0]);
      if page.next.Some? {
        NextIsInView(v, tables[0], position, limits[0]);
        TokenRoundTrip(v, page.next.value);
        forall i, k | 0 <= i < |tables[1..]| && k in Keys(v, tables[1..][i]) ensures Carries(v, k) {
          assert k in Keys(v, tables[i + 1]);
        }
        TokenWalkIsWalk(v, tables[1..], limits[1..], EncodeToken(v, page.next.value), page.next);
      }
    }
  }

  lemma FirstTokenIsStart(v: View)
    ensures DecodeToken(v, []) == Ok(None)
  {
  }

  /** Names of at most 234 bytes together, and stable keys of at most 256, are always carried. */
  lemma ShortNamesAreCarried(v: View, k: Key)
    requires ValidView(v) && ValidPosition(k)
    requires |v.namespace| + (if v.RankedView? then |v.rankingScope| else 0) + |k.orderingScope| <= 234
    ensures Carries(v, k)
  {
    hide PrintEnvelope, ValidUtf8;
    KindsAreText();
    ShortNamesFit(EnvelopeOf(v, k));
  }

  // ---------------------------------------------------------------- what the caller gets

  /** On an unchanging table the caller collects exactly the sorted view, whatever the limits. */
  lemma CallerSeesSortedView(v: View, t: Table, tables: seq<Table>, limits: seq<nat>)
    requires |tables| == |limits| && forall i :: 0 <= i < |limits| ==> limits[i] > 0
    requires ValidView(v) && CarriesAll(v, tables) && Unchanging(t, tables)
    requires |tables| > |Enumerate(v, Remaining(v, t, None))|
    ensures TokenWalk(v, tables, limits, []) == Ok(Trip(Enumerate(v, Keys(v, t)), true))
  {
    hide Enumerate, Walk, TokenWalk, Carries;
    FirstTokenIsStart(v);
    TokenWalkIsWalk(v, tables, limits, [], None);
    StaticWalkIsSortedView(v, t, tables, limits, None);
    StaticWalkEnds(v, t, tables, limits, None);
    assert Remaining(v, t, None) == Keys(v, t);
  }

  /** While writers change the table between the pages, a record that keeps its tuple is returned exactly once. */
  lemma CallerSeesStableRecordOnce(v: View, tables: seq<Table>, limits: seq<nat>, id: OrderedID, k: Key)
    requires |tables| == |limits| && forall i :: 0 <= i < |limits| ==> limits[i] > 0
    requires ValidView(v) && CarriesAll(v, tables)
    requires forall i :: 0 <= i < |tables| ==> WellKeyed(tables[i])
    requires forall i :: 0 <= i < |tables| ==>
               id in tables[i] && Selects(v, tables[i][id]) && KeyOf(v, tables[i][id]) == k
    requires Walk(v, tables, limits, None).complete
    ensures var r := TokenWalk(v, tables, limits, []);
            && r.Ok? && Ascending(v, r.value.keys)
            && exists i :: 0 <= i < |r.value.keys| && r.value.keys[i] == k
                           && forall j :: 0 <= j < |r.value.keys| && IdOf(v, r.value.keys[j]) == id ==> j == i
  {
    hide Enumerate, Walk, TokenWalk, Carries;
    FirstTokenIsStart(v);
    TokenWalkIsWalk(v, tables, limits, [], None);
    WalkAdvances(v, tables, limits, None);
    StableRecordIsReturnedOnce(v, tables, limits, id, k);
  }

  /** The tables that pages see when page i is read after the first instants[i] actions of a run of writers. */
  ghost function TablesAt(actions: seq<OrderedWrites.Action>, instants: seq<nat>): (tables: seq<Table>)
    requires forall i :: 0 <= i < |instants| ==> instants[i] <= |actions|
    ensures |tables| == |instants|
  {
    seq(|instants|, i requires 0 <= i < |instants| => OrderedWrites.At(actions, instants[i]).tables.records)
  }

  lemma RunTablesAreWellKeyed(actions: seq<OrderedWrites.Action>, n: nat)
    requires n <= |actions|
    ensures WellKeyed(OrderedWrites.At(actions, n).tables.records)
  {
    var t := OrderedWrites.At(actions, n).tables.records;
    forall id | id in t ensures t[id].id == id {
      OrderedTheorems.StoredRecordsAreVersions(actions, n, n, id);
    }
  }

  /** The same of any interleaving of Create, Update and Delete calls with the page reads. */
  lemma CallerSeesStableRecordDuringRun(v: View, actions: seq<OrderedWrites.Action>, instants: seq<nat>,
                                        limits: seq<nat>, id: OrderedID, k: Key)
    requires |instants| == |limits| && forall i :: 0 <= i < |limits| ==> limits[i] > 0
    requires forall i :: 0 <= i < |instants| ==> instants[i] <= |actions|
    requires ValidView(v) && CarriesAll(v, TablesAt(actions, instants))
    requires forall i :: 0 <= i < |instants| ==>
               var t := OrderedWrites.At(actions, instants[i]).tables.records;
               id in t && Selects(v, t[id]) && KeyOf(v, t[id]) == k
    requires Walk(v, TablesAt(actions, instants), limits, None).complete
    ensures var r := TokenWalk(v, TablesAt(actions, instants), limits, []);
            && r.Ok? && Ascending(v, r.value.keys)
            && exists i :: 0 <= i < |r.value.keys| && r.value.keys[i] == k
                           && forall j :: 0 <= j < |r.value.keys| && IdOf(v, r.value.keys[j]) == id ==> j == i
  {
    hide Walk, TokenWalk, Carries, OrderedWrites.At, Selects, WellKeyed, CarriesAll, ValidView, Ascending;
    var tables := TablesAt(actions, instants);
    forall i | 0 <= i < |tables| ensures WellKeyed(tables[i]) {
      RunTablesAreWellKeyed(actions, instants[i]);
    }
    CallerSeesStableRecordOnce(v, tables, limits, id, k);
  }
}
