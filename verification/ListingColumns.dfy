/** What a caller of ListRanked and ListDue collects, said in the columns of the records alone. */
module ListingColumns {
  import opened Common
  import opened OrderedTypes
  import opened Paging
  import opened Cursor
  import opened Listing

  /** At the first place where they differ, `a` has ended or has the smaller byte. */
  ghost predicate Precedes(a: Bytes, b: Bytes) {
    exists i :: 0 <= i <= |a| && i < |b| && a[..i] == b[..i] && (i == |a| || a[i] < b[i])
  }

  lemma {:induction false} LessIsPrecedes(a: Bytes, b: Bytes)
    ensures BytesLess(a, b) <==> Precedes(a, b)
    decreases |a|
  {
    if a != [] && b != [] && a[0] == b[0] {
      LessIsPrecedes(a[1..], b[1..]);
      if Precedes(a[1..], b[1..]) {
        var i :| 0 <= i <= |a[1..]| && i < |b[1..]| && a[1..][..i] == b[1..][..i]
                 && (i == |a[1..]| || a[1..][i] < b[1..][i]);
        assert a[..i + 1] == [a[0]] + a[1..][..i] && b[..i + 1] == [b[0]] + b[1..][..i];
        assert i + 1 == |a| || a[i + 1] < b[i + 1];
      }
      if Precedes(a, b) {
        var i :| 0 <= i <= |a| && i < |b| && a[..i] == b[..i] && (i == |a| || a[i] < b[i]);
        assert i > 0 && a[1..][..i - 1] == a[..i][1..] && b[1..][..i - 1] == b[..i][1..];
        assert i - 1 == |a[1..]| || a[1..][i - 1] < b[1..][i - 1];
      }
    } else if b != [] && (a == [] || a[0] < b[0]) {
      assert a[..0] == b[..0];
    }
  }

  /** rank_value DESC, stable_key DESC, ordering_scope DESC. */
  ghost predicate RanksBefore(a: OrderedRecord, b: OrderedRecord) {
    || a.rank.value > b.rank.value
    || (a.rank.value == b.rank.value && Precedes(b.id.stableKey, a.id.stableKey))
    || (a.rank.value == b.rank.value && a.id.stableKey == b.id.stableKey
        && Precedes(b.id.orderingScope, a.id.orderingScope))
  }

  /** due_at ASC, stable_key ASC, ordering_scope ASC. */
  ghost predicate DueBefore(a: OrderedRecord, b: OrderedRecord) {
    || a.due.unixMillis < b.due.unixMillis
    || (a.due.unixMillis == b.due.unixMillis && Precedes(a.id.stableKey, b.id.stableKey))
    || (a.due.unixMillis == b.due.unixMillis && a.id.stableKey == b.id.stableKey
        && Precedes(a.id.orderingScope, b.id.orderingScope))
  }

  /** The stored record that an element of a page stands for. */
  function IdentityOf(v: View, k: Key): OrderedID { OrderedID(v.namespace, k.orderingScope, k.stableKey) }

  /** The record is stored, and the element carries its columns. */
  predicate StandsFor(v: View, t: Table, k: Key, r: OrderedRecord) {
    && IdentityOf(v, k) in t && t[IdentityOf(v, k)] == r && r.id == IdentityOf(v, k)
    && k.position == if v.RankedView? then r.rank.value else r.due.unixMillis
  }

  lemma ElementIsRecord(v: View, t: Table, k: Key)
    requires WellKeyed(t) && k in Keys(v, t)
    ensures IdentityOf(v, k) in t && StandsFor(v, t, k, t[IdentityOf(v, k)])
  {
    KeyNamesItsRow(v, t, k);
  }

  lemma OrderInColumns(v: View, t: Table, a: Key, b: Key, ra: OrderedRecord, rb: OrderedRecord)
    requires StandsFor(v, t, a, ra) && StandsFor(v, t, b, rb) && Before(v, a, b)
    ensures if v.RankedView? then RanksBefore(ra, rb) else DueBefore(ra, rb)
  {
    LessIsPrecedes(a.stableKey, b.stableKey);
    LessIsPrecedes(b.stableKey, a.stableKey);
    LessIsPrecedes(a.orderingScope, b.orderingScope);
    LessIsPrecedes(b.orderingScope, a.orderingScope);
    hide Precedes, BytesLess;
  }

  /** What the walk over an unchanging table collects. */
  ghost predicate Collects(v: View, t: Table, limits: seq<nat>, keys: seq<Key>) {
    && (forall i :: 0 <= i < |limits| ==> limits[i] > 0)
    && var tables := seq(|limits|, i => t);
       CarriesAll(v, tables) && TokenWalk(v, tables, limits, []) == Ok(Trip(keys, true))
  }

  lemma CollectedView(v: View, t: Table, limits: seq<nat>, keys: seq<Key>)
    requires ValidView(v) && Collects(v, t, limits, keys)
    ensures Sorts(v, keys, Keys(v, t))
  {
    hide Enumerate, Walk, TokenWalk, Carries, Before, Keys;
    var tables := seq(|limits|, i => t);
    FirstTokenIsStart(v);
    TokenWalkIsWalk(v, tables, limits, [], None);
    StaticWalkIsSortedView(v, t, tables, limits, None);
    EverythingRemains(v, t);
  }

  lemma EverythingRemains(v: View, t: Table)
    ensures Remaining(v, t, None) == Keys(v, t)
  {
    hide Keys;
  }

  /**
   The order of what a caller collects: ranked records by rank, stable key and scope, each from the
   greatest down; due records by time, stable key and scope, each from the least up.
   */
  lemma CallerSeesOrder(v: View, t: Table, limits: seq<nat>, keys: seq<Key>, i: nat, j: nat)
    requires ValidView(v) && WellKeyed(t) && Collects(v, t, limits, keys) && i < j < |keys|
    ensures IdentityOf(v, keys[i]) in t && IdentityOf(v, keys[j]) in t
    ensures var a, b := t[IdentityOf(v, keys[i])], t[IdentityOf(v, keys[j])];
            && StandsFor(v, t, keys[i], a) && StandsFor(v, t, keys[j], b)
            && if v.RankedView? then RanksBefore(a, b) else DueBefore(a, b)
  {
    CollectedView(v, t, limits, keys);
    assert keys[i] in keys && keys[j] in keys;
    ElementIsRecord(v, t, keys[i]);
    ElementIsRecord(v, t, keys[j]);
    OrderInColumns(v, t, keys[i], keys[j], t[IdentityOf(v, keys[i])], t[IdentityOf(v, keys[j])]);
  }

  /**
   And its contents: a stored record is collected, once, exactly when it is live, of the namespace,
   and ranked in the scope, or due at the latest at the bound.
   */
  lemma CallerSeesExactly(v: View, t: Table, limits: seq<nat>, keys: seq<Key>, id: OrderedID)
    requires ValidView(v) && WellKeyed(t) && Collects(v, t, limits, keys) && id in t
    ensures var r := t[id];
            (exists i :: 0 <= i < |keys| && IdentityOf(v, keys[i]) == id) <==>
              && !r.deleted && r.id.namespace == v.namespace
              && match v
                 case RankedView(_, scope) => r.rank.ranked && r.rankingScope == scope
                 case DueView(_, bound) => r.due.state == DueAt && r.due.unixMillis <= bound
    ensures forall i, j :: 0 <= i < j < |keys| ==> IdentityOf(v, keys[i]) != IdentityOf(v, keys[j])
  {
    CollectedView(v, t, limits, keys);
    hide Collects;
    if exists i :: 0 <= i < |keys| && IdentityOf(v, keys[i]) == id {
      var i :| 0 <= i < |keys| && IdentityOf(v, keys[i]) == id;
      assert keys[i] in keys;
      KeyNamesItsRow(v, t, keys[i]);
    }
    if Selects(v, t[id]) {
      var k := KeyOf(v, t[id]);
      assert k in Keys(v, t) && k in keys;
      var i :| 0 <= i < |keys| && keys[i] == k;
      assert IdentityOf(v, keys[i]) == id;
    }
    forall i, j | 0 <= i < j < |keys| ensures IdentityOf(v, keys[i]) != IdentityOf(v, keys[j]) {
      assert keys[i] in keys && keys[j] in keys && Before(v, keys[i], keys[j]);
      KeyNamesItsRow(v, t, keys[i]);
      KeyNamesItsRow(v, t, keys[j]);
      BeforeIsStrictTotal(v, keys[i], keys[j]);
    }
  }

  /** Such walks there are: enough page requests, with any limits, complete one. */
  lemma CallerCollects(v: View, t: Table, limits: seq<nat>)
    requires ValidView(v) && (forall i :: 0 <= i < |limits| ==> limits[i] > 0)
    requires CarriesAll(v, seq(|limits|, i => t)) && |limits| > |Enumerate(v, Remaining(v, t, None))|
    ensures exists keys :: Collects(v, t, limits, keys)
  {
    hide Enumerate, TokenWalk, Carries, Remaining, Keys;
    var tables := seq(|limits|, i => t);
    CallerSeesSortedView(v, t, tables, limits);
    assert Collects(v, t, limits, Enumerate(v, Keys(v, t)));
  }

  /** Under any changes between the pages the positions still only go one way, in the same columns. */
  lemma WalkGoesOneWay(v: View, tables: seq<Table>, limits: seq<nat>, i: nat, j: nat)
    requires |tables| == |limits| && forall n :: 0 <= n < |limits| ==> limits[n] > 0
    requires i < j < |Walk(v, tables, limits, None).keys|
    ensures var a, b := Walk(v, tables, limits, None).keys[i], Walk(v, tables, limits, None).keys[j];
            if v.RankedView? then
              || a.position > b.position
              || (a.position == b.position && Precedes(b.stableKey, a.stableKey))
              || (a.position == b.position && a.stableKey == b.stableKey && Precedes(b.orderingScope, a.orderingScope))
            else
              || a.position < b.position
              || (a.position == b.position && Precedes(a.stableKey, b.stableKey))
              || (a.position == b.position && a.stableKey == b.stableKey && Precedes(a.orderingScope, b.orderingScope))
  {
    hide Walk, Precedes;
    WalkAdvances(v, tables, limits, None);
    var a, b := Walk(v, tables, limits, None).keys[i], Walk(v, tables, limits, None).keys[j];
    LessIsPrecedes(a.stableKey, b.stableKey);
    LessIsPrecedes(b.stableKey, a.stableKey);
    LessIsPrecedes(a.orderingScope, b.orderingScope);
    LessIsPrecedes(b.orderingScope, a.orderingScope);
    hide BytesLess;
  }
}
