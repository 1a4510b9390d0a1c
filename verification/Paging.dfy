/**
 Keyset pagination of the ranked and due views: the statements that orderedquery builds,
 what they select, and the pages that ListRanked and ListDue cut from their rows.
 */
module Paging {
  import opened Common
  import opened OrderedTypes

  type Table = map<OrderedID, OrderedRecord>

  /** Rows are stored under their primary key. */
  predicate WellKeyed(t: Table) { forall id :: id in t ==> t[id].id == id }

  // ---------------------------------------------------------------- the total order of tuples

  /** The bytea and COLLATE "C" order. */
  predicate BytesLess(a: Bytes, b: Bytes) {
    b != [] && (a == [] || a[0] < b[0] || (a[0] == b[0] && BytesLess(a[1..], b[1..])))
  }

  lemma {:induction false} BytesLessIsStrict(a: Bytes, b: Bytes)
    ensures !(BytesLess(a, b) && BytesLess(b, a))
    ensures BytesLess(a, b) ==> a != b
    decreases |a|
  {
    if a != [] && b != [] && a[0] == b[0] {
      BytesLessIsStrict(a[1..], b[1..]);
    }
  }

  lemma {:induction false} BytesLessIsTotal(a: Bytes, b: Bytes)
    ensures a == b || BytesLess(a, b) || BytesLess(b, a)
    decreases |a|
  {
    if a != [] && b != [] && a[0] == b[0] {
      BytesLessIsTotal(a[1..], b[1..]);
      assert a == [a[0]] + a[1..] && b == [b[0]] + b[1..];
    }
  }

  lemma {:induction false} BytesLessIsTransitive(a: Bytes, b: Bytes, c: Bytes)
    requires BytesLess(a, b) && BytesLess(b, c)
    ensures BytesLess(a, c)
    decreases |a|
  {
    if a != [] && a[0] == b[0] == c[0] {
      BytesLessIsTransitive(a[1..], b[1..], c[1..]);
    }
  }

  /** (rank_value, stable_key, ordering_scope) or (due_at, stable_key, ordering_scope). */
  datatype Key = Key(position: int, stableKey: Bytes, orderingScope: Bytes)

  /** The row comparison of SQL. */
  predicate KeyLess(a: Key, b: Key) {
    || a.position < b.position
    || (a.position == b.position && BytesLess(a.stableKey, b.stableKey))
    || (a.position == b.position && a.stableKey == b.stableKey && BytesLess(a.orderingScope, b.orderingScope))
  }

  /** What a listing ranges over. */
  datatype View =
    | RankedView(namespace: Bytes, rankingScope: Bytes)
    | DueView(namespace: Bytes, bound: int)

  /** Ranked pages descend, due pages ascend. */
  predicate Before(v: View, a: Key, b: Key) {
    if v.RankedView? then KeyLess(b, a) else KeyLess(a, b)
  }

  lemma BeforeIsStrictTotal(v: View, a: Key, b: Key)
    ensures !(Before(v, a, b) && Before(v, b, a))
    ensures !Before(v, a, a)
    ensures a == b || Before(v, a, b) || Before(v, b, a)
  {
    BytesLessIsStrict(a.stableKey, b.stableKey);
    BytesLessIsStrict(a.orderingScope, b.orderingScope);
    BytesLessIsStrict(a.stableKey, a.stableKey);
    BytesLessIsStrict(a.orderingScope, a.orderingScope);
    BytesLessIsTotal(a.stableKey, b.stableKey);
    BytesLessIsTotal(a.orderingScope, b.orderingScope);
  }

  lemma KeyLessIsTransitive(a: Key, b: Key, c: Key)
    requires KeyLess(a, b) && KeyLess(b, c)
    ensures KeyLess(a, c)
  {
    if a.position == b.position == c.position {
      if BytesLess(a.stableKey, b.stableKey) && BytesLess(b.stableKey, c.stableKey) {
        BytesLessIsTransitive(a.stableKey, b.stableKey, c.stableKey);
      } else if a.stableKey == b.stableKey == c.stableKey {
        BytesLessIsTransitive(a.orderingScope, b.orderingScope, c.orderingScope);
      }
    }
  }

  lemma BeforeIsTransitive(v: View, a: Key, b: Key, c: Key)
    requires Before(v, a, b) && Before(v, b, c)
    ensures Before(v, a, c)
  {
    if v.RankedView? {
      KeyLessIsTransitive(c, b, a);
    } else {
      KeyLessIsTransitive(a, b, c);
    }
  }

  // ---------------------------------------------------------------- filter and sort

  /** The WHERE clause without the keyset bound. */
  predicate Selects(v: View, r: OrderedRecord) {
    r.id.namespace == v.namespace && !r.deleted &&
    match v
    case RankedView(_, scope) => r.rankingScope == scope && r.rank.ranked
    case DueView(_, bound) => r.due.state == DueAt && r.due.unixMillis <= bound
  }

  function KeyOf(v: View, r: OrderedRecord): Key {
    Key(if v.RankedView? then r.rank.value else r.due.unixMillis, r.id.stableKey, r.id.orderingScope)
  }

  function IdOf(v: View, k: Key): OrderedID { OrderedID(v.namespace, k.orderingScope, k.stableKey) }

  /** The tuples of the selected rows. */
  function Keys(v: View, t: Table): set<Key> {
    set id | id in t && Selects(v, t[id]) :: KeyOf(v, t[id])
  }

  /** The primary key makes the tuple unique: a tuple of the view names one stored row. */
  lemma KeyNamesItsRow(v: View, t: Table, k: Key)
    requires WellKeyed(t)
    ensures k in Keys(v, t) <==> IdOf(v, k) in t && Selects(v, t[IdOf(v, k)]) && KeyOf(v, t[IdOf(v, k)]) == k
  {
    if k in Keys(v, t) {
      var id :| id in t && Selects(v, t[id]) && KeyOf(v, t[id]) == k;
      assert IdOf(v, k) == id;
    }
  }

  ghost predicate Ascending(v: View, ks: seq<Key>) {
    forall i, j :: 0 <= i < j < |ks| ==> Before(v, ks[i], ks[j])
  }

  /** `ks` is the set `all`, sorted. */
  ghost predicate Sorts(v: View, ks: seq<Key>, all: set<Key>) {
    Ascending(v, ks) && forall k :: k in ks <==> k in all
  }

  lemma {:induction false} FirstExists(v: View, all: set<Key>)
    requires all != {}
    ensures exists k :: k in all && forall x :: x in all && x != k ==> Before(v, k, x)
    decreases |all|
  {
    hide Before;
    var a :| a in all;
    var rest := all - {a};
    if rest == {} {
      assert all == {a};
    } else {
      FirstExists(v, rest);
      var f :| f in rest && forall x :: x in rest && x != f ==> Before(v, f, x);
      BeforeIsStrictTotal(v, a, f);
      var m := if Before(v, a, f) then a else f;
      forall x | x in all && x != m ensures Before(v, m, x) {
        if x != a && x != f {
          assert x in rest && Before(v, f, x);
          if m == a {
            BeforeIsTransitive(v, a, f, x);
          }
        }
      }
    }
  }

  ghost function First(v: View, all: set<Key>): (k: Key)
    requires all != {}
    ensures k in all && forall x :: x in all && x != k ==> Before(v, k, x)
  {
    FirstExists(v, all);
    var k :| k in all && forall x :: x in all && x != k ==> Before(v, k, x);
    k
  }

  /** ORDER BY: the set in the order of the view. */
  ghost function Enumerate(v: View, all: set<Key>): (ks: seq<Key>)
    ensures Sorts(v, ks, all)
    decreases |all|
  {
    if all == {} then []
    else
      var k := First(v, all);
      var rest := Enumerate(v, all - {k});
      assert forall x :: x in [k] + rest <==> x == k || x in rest;
      [k] + rest
  }

  lemma HeadIsFirst(v: View, ks: seq<Key>, all: set<Key>, k: Key)
    requires Sorts(v, ks, all) && k in all
    ensures ks != [] && (k == ks[0] || Before(v, ks[0], k))
  {
    var i :| 0 <= i < |ks| && ks[i] == k;
  }

  lemma NonemptyHasMember(ks: seq<Key>)
    requires ks != []
    ensures exists k :: k in ks
  {
    assert ks[0] in ks;
  }

  /** Sorting has one answer. */
  lemma {:induction false} SortIsUnique(v: View, ks: seq<Key>, ks': seq<Key>, all: set<Key>)
    requires Sorts(v, ks, all) && Sorts(v, ks', all)
    ensures ks == ks'
    decreases |ks|
  {
    if ks != [] {
      assert ks[0] in all;
      HeadIsFirst(v, ks', all, ks[0]);
      assert ks'[0] in all;
      HeadIsFirst(v, ks, all, ks'[0]);
      BeforeIsStrictTotal(v, ks[0], ks'[0]);
      TailSorts(v, ks, all);
      TailSorts(v, ks', all);
      SortIsUnique(v, ks[1..], ks'[1..], all - {ks[0]});
      assert ks == [ks[0]] + ks[1..] && ks' == [ks'[0]] + ks'[1..];
    } else if ks' != [] {
      NonemptyHasMember(ks');
    }
  }

  lemma TailSorts(v: View, ks: seq<Key>, all: set<Key>)
    requires Sorts(v, ks, all) && ks != []
    ensures Sorts(v, ks[1..], all - {ks[0]})
  {
    forall i | 1 <= i < |ks| ensures ks[i] != ks[0] {
      BeforeIsStrictTotal(v, ks[0], ks[i]);
    }
    assert forall k :: k in ks <==> k == ks[0] || k in ks[1..];
  }

  // ---------------------------------------------------------------- statements and pages

  /** A built page statement: the filter, the strict keyset bound, and the LIMIT. */
  datatype Statement = Statement(view: View, after: Option<Key>, rows: nat)

  /** orderedquery.Ranked asks for one row more than the page. */
  function Ranked(namespace: Bytes, rankingScope: Bytes, position: Option<Key>, limit: nat): Statement {
    Statement(RankedView(namespace, rankingScope), position, limit + 1)
  }

  function DueStatement(namespace: Bytes, dueAtOrBefore: int, position: Option<Key>, limit: nat): Statement {
    Statement(DueView(namespace, dueAtOrBefore), position, limit + 1)
  }

  predicate Past(v: View, position: Option<Key>, k: Key) { position.None? || Before(v, position.value, k) }

  function Remaining(v: View, t: Table, position: Option<Key>): set<Key> {
    set k | k in Keys(v, t) && Past(v, position, k)
  }

  /** The rows of a statement, by their tuples. */
  ghost function Execute(q: Statement, t: Table): (rows: seq<Key>)
    ensures |rows| <= q.rows
  {
    var all := Enumerate(q.view, Remaining(q.view, t, q.after));
    if |all| <= q.rows then all else all[..q.rows]
  }

  datatype Page = Page(keys: seq<Key>, next: Option<Key>)

  /** ListRanked and ListDue after their cursor is decoded: the extra row only decides the cursor. */
  ghost function List(v: View, t: Table, position: Option<Key>, limit: nat): (page: Page)
    requires limit > 0
    ensures |page.keys| <= limit
    ensures page.next.Some? ==> |page.keys| == limit && page.next.value == page.keys[limit - 1]
  {
    var q := if v.RankedView? then Ranked(v.namespace, v.rankingScope, position, limit)
             else DueStatement(v.namespace, v.bound, position, limit);
    var rows := Execute(q, t);
    if |rows| > limit then Page(rows[..limit], Some(rows[limit - 1])) else Page(rows, None)
  }

  /**
   The page against the sorted view: it is the front of what remains, and the cursor is
   there exactly when something is left.
   */
  lemma PageIsFront(v: View, t: Table, position: Option<Key>, limit: nat)
    requires limit > 0
    ensures var all, page := Enumerate(v, Remaining(v, t, position)), List(v, t, position, limit);
            && page.keys == (if |all| <= limit then all else all[..limit])
            && (page.next.Some? <==> |all| > limit)
  {
  }

  /** In a sorted view, what lies strictly past element i - 1 are the elements from i on. */
  lemma PastIsSuffix(v: View, ks: seq<Key>, i: nat, k: Key)
    requires Ascending(v, ks) && 0 < i <= |ks|
    ensures k in ks && Before(v, ks[i - 1], k) <==> k in ks[i..]
  {
    if k in ks && Before(v, ks[i - 1], k) {
      var j :| 0 <= j < |ks| && ks[j] == k;
      BeforeIsStrictTotal(v, ks[i - 1], k);
      assert j >= i;
      assert k == ks[i..][j - i];
    }
    if k in ks[i..] {
      var j :| 0 <= j < |ks[i..]| && ks[i..][j] == k;
      assert ks[j + i] == k;
    }
  }

  lemma RemainingShrinks(v: View, t: Table, position: Option<Key>, last: Key, k: Key)
    requires last in Remaining(v, t, position)
    ensures k in Remaining(v, t, Some(last)) <==> k in Remaining(v, t, position) && Before(v, last, k)
  {
    hide Keys;
    if k in Remaining(v, t, Some(last)) && position.Some? {
      BeforeIsTransitive(v, position.value, last, k);
    }
  }

  /** After a page with a cursor, what remains is exactly the rest of the sorted view. */
  lemma RestRemains(v: View, t: Table, position: Option<Key>, limit: nat)
    requires limit > 0 && List(v, t, position, limit).next.Some?
    ensures var all := Enumerate(v, Remaining(v, t, position));
            |all| > limit && Enumerate(v, Remaining(v, t, List(v, t, position, limit).next)) == all[limit..]
  {
    hide List, Enumerate, Remaining, Before;
    PageIsFront(v, t, position, limit);
    var all, last := Enumerate(v, Remaining(v, t, position)), List(v, t, position, limit).next.value;
    var rest := Remaining(v, t, Some(last));
    assert last == all[limit - 1] && last in all;
    forall k ensures k in all[limit..] <==> k in rest {
      RemainingShrinks(v, t, position, last, k);
      PastIsSuffix(v, all, limit, k);
    }
    SortIsUnique(v, Enumerate(v, rest), all[limit..], rest);
  }

  // ---------------------------------------------------------------- walks

  /** What a caller collects, and whether the last page had no cursor. */
  datatype Trip = Trip(keys: seq<Key>, complete: bool)

  /** Page i is read from tables[i] with limits[i]; the walk stops at the first page without a cursor. */
  ghost function Walk(v: View, tables: seq<Table>, limits: seq<nat>, position: Option<Key>): (trip: Trip)
    requires |tables| == |limits| && forall i :: 0 <= i < |limits| ==> limits[i] > 0
    decreases |tables|
  {
    if tables == [] then Trip([], false)
    else
      var page := List(v, tables[0], position, limits[0]);
      if page.next.None? then Trip(page.keys, true)
      else
        var rest := Walk(v, tables[1..], limits[1..], page.next);
        Trip(page.keys + rest.keys, rest.complete)
  }

  lemma PageIsPast(v: View, t: Table, position: Option<Key>, limit: nat)
    requires limit > 0
    ensures Ascending(v, List(v, t, position, limit).keys)
    ensures forall k :: k in List(v, t, position, limit).keys ==> k in Keys(v, t) && Past(v, position, k)
  {
    PageIsFront(v, t, position, limit);
    var all, page := Enumerate(v, Remaining(v, t, position)), List(v, t, position, limit);
    hide List, Enumerate, Keys, Before;
    assert forall k :: k in page.keys ==> k in all;
  }

  /** Everything past the last element of an ascending page can follow it. */
  lemma AscendingJoin(v: View, front: seq<Key>, rest: seq<Key>)
    requires Ascending(v, front) && Ascending(v, rest) && front != []
    requires forall k :: k in rest ==> Before(v, front[|front| - 1], k)
    ensures Ascending(v, front + rest)
  {
    hide Before;
    var last := front[|front| - 1];
    forall i, j | 0 <= i < |front| && 0 <= j < |rest| ensures Before(v, front[i], rest[j]) {
      assert rest[j] in rest;
      if i < |front| - 1 {
        BeforeIsTransitive(v, front[i], last, rest[j]);
      }
    }
  }

  /** However the table changes between pages, positions strictly advance. */
  lemma {:induction false} WalkAdvances(v: View, tables: seq<Table>, limits: seq<nat>, position: Option<Key>)
    requires |tables| == |limits| && forall i :: 0 <= i < |limits| ==> limits[i] > 0
    ensures Ascending(v, Walk(v, tables, limits, position).keys)
    ensures forall k :: k in Walk(v, tables, limits, position).keys ==> Past(v, position, k)
    decreases |tables|
  {
    hide List, Ascending, Before, Keys;
    if tables == [] {
      EmptyIsAscending(v);
    } else {
      PageIsPast(v, tables[0], position, limits[0]);
      var page := List(v, tables[0], position, limits[0]);
      if page.next.Some? {
        WalkAdvances(v, tables[1..], limits[1..], page.next);
        var rest := Walk(v, tables[1..], limits[1..], page.next).keys;
        AscendingJoin(v, page.keys, rest);
        forall k | k in rest ensures Past(v, position, k) {
          assert page.next.value in page.keys;
          if position.Some? {
            BeforeIsTransitive(v, position.value, page.next.value, k);
          }
        }
      }
    }
  }

  lemma EmptyIsAscending(v: View)
    ensures Ascending(v, [])
  {
  }

  /** A tuple that is in the view at every page of a completed walk is collected. */
  lemma {:induction false} StableKeyIsCollected(v: View, tables: seq<Table>, limits: seq<nat>, position: Option<Key>,
                                                k: Key)
    requires |tables| == |limits| && forall i :: 0 <= i < |limits| ==> limits[i] > 0
    requires Walk(v, tables, limits, position).complete && Past(v, position, k)
    requires forall i :: 0 <= i < |tables| ==> k in Keys(v, tables[i])
    ensures k in Walk(v, tables, limits, position).keys
    decreases |tables|
  {
    PageIsFront(v, tables[0], position, limits[0]);
    var all := Enumerate(v, Remaining(v, tables[0], position));
    var page := List(v, tables[0], position, limits[0]);
    assert k in Remaining(v, tables[0], position);
    var i :| 0 <= i < |all| && all[i] == k;
    if page.next.Some? && i >= limits[0] {
      assert Before(v, all[limits[0] - 1], all[i]);
      StableKeyIsCollected(v, tables[1..], limits[1..], page.next, k);
    } else {
      assert page.keys[i] == k;
    }
  }

  /** Whatever is collected was in the view when some page was read. */
  lemma {:induction false} CollectedWasThere(v: View, tables: seq<Table>, limits: seq<nat>, position: Option<Key>,
                                             k: Key)
    requires |tables| == |limits| && forall i :: 0 <= i < |limits| ==> limits[i] > 0
    requires k in Walk(v, tables, limits, position).keys
    ensures exists i :: 0 <= i < |tables| && k in Keys(v, tables[i])
    decreases |tables|
  {
    PageIsFront(v, tables[0], position, limits[0]);
    var page := List(v, tables[0], position, limits[0]);
    if k in page.keys {
      assert k in Enumerate(v, Remaining(v, tables[0], position));
      assert k in Keys(v, tables[0]);
    } else {
      CollectedWasThere(v, tables[1..], limits[1..], page.next, k);
      var i :| 0 <= i < |tables[1..]| && k in Keys(v, tables[1..][i]);
      assert k in Keys(v, tables[i + 1]);
    }
  }

  /**
   The walk under concurrent writes: a record that keeps its tuple in every table the
   walk reads is returned exactly once, and under that tuple only.
   */
  lemma StableRecordIsReturnedOnce(v: View, tables: seq<Table>, limits: seq<nat>, id: OrderedID, k: Key)
    requires |tables| == |limits| && forall i :: 0 <= i < |limits| ==> limits[i] > 0
    requires forall i :: 0 <= i < |tables| ==> WellKeyed(tables[i])
    requires forall i :: 0 <= i < |tables| ==>
               id in tables[i] && Selects(v, tables[i][id]) && KeyOf(v, tables[i][id]) == k
    requires Walk(v, tables, limits, None).complete
    ensures var ks := Walk(v, tables, limits, None).keys;
            exists i :: 0 <= i < |ks| && IdOf(v, ks[i]) == id && ks[i] == k
                        && forall j :: 0 <= j < |ks| && IdOf(v, ks[j]) == id ==> j == i
  {
    var ks := Walk(v, tables, limits, None).keys;
    StableKeyIsCollected(v, tables, limits, None, k);
    WalkAdvances(v, tables, limits, None);
    var i :| 0 <= i < |ks| && ks[i] == k;
    assert IdOf(v, k) == id;
    forall j | 0 <= j < |ks| && IdOf(v, ks[j]) == id ensures j == i {
      assert ks[j] in ks;
      CollectedWasThere(v, tables, limits, None, ks[j]);
      var m :| 0 <= m < |tables| && ks[j] in Keys(v, tables[m]);
      KeyNamesItsRow(v, tables[m], ks[j]);
      assert ks[j] == k;
      BeforeIsStrictTotal(v, k, k);
    }
  }

  // ---------------------------------------------------------------- an unchanging table

  ghost predicate Unchanging(t: Table, tables: seq<Table>) { forall i :: 0 <= i < |tables| ==> tables[i] == t }

  /** Static pagination is filter and sort: a complete walk is the sorted rest of the view. */
  lemma {:induction false} StaticWalkIsSortedView(v: View, t: Table, tables: seq<Table>, limits: seq<nat>,
                                                  position: Option<Key>)
    requires |tables| == |limits| && forall i :: 0 <= i < |limits| ==> limits[i] > 0
    requires Unchanging(t, tables)
    ensures var all, trip := Enumerate(v, Remaining(v, t, position)), Walk(v, tables, limits, position);
            trip.keys <= all && (trip.complete ==> trip.keys == all)
    decreases |tables|
  {
    hide List, Enumerate, Remaining, Before;
    if tables != [] {
      PageIsFront(v, t, position, limits[0]);
      var page := List(v, t, position, limits[0]);
      if page.next.Some? {
        RestRemains(v, t, position, limits[0]);
        StaticWalkIsSortedView(v, t, tables[1..], limits[1..], page.next);
        var all := Enumerate(v, Remaining(v, t, position));
        assert all == all[..limits[0]] + all[limits[0]..];
      }
    }
  }

  /** It ends: more page requests than remaining records suffice, whatever the limits. */
  lemma {:induction false} StaticWalkEnds(v: View, t: Table, tables: seq<Table>, limits: seq<nat>,
                                          position: Option<Key>)
    requires |tables| == |limits| && forall i :: 0 <= i < |limits| ==> limits[i] > 0
    requires Unchanging(t, tables) && |tables| > |Enumerate(v, Remaining(v, t, position))|
    ensures Walk(v, tables, limits, position).complete
    decreases |tables|
  {
    hide List, Enumerate, Remaining, Before;
    var page := List(v, t, position, limits[0]);
    if page.next.Some? {
      RestRemains(v, t, position, limits[0]);
      StaticWalkEnds(v, t, tables[1..], limits[1..], page.next);
    }
  }
}
