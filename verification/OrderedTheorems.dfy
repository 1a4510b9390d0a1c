/** The main results about OrderedIndex writes and the tailing reader, over every run from empty tables. */
module OrderedTheorems {
  import opened Common
  import opened OrderedTypes
  import opened OrderedWrites
  import opened OrderedSafety

  // ---------------------------------------------------------------- commit order is allocation order

  /** The committed orders of a scope are exactly 1 up to its counter, each carried by one identity. */
  lemma OrdersAreExactlyTheCounter(actions: seq<Action>, n: nat, sc: Scope, order: nat)
    requires n <= |actions|
    ensures var t := At(actions, n).tables;
            && ((exists id :: Holds(t, id, sc, order)) <==> 1 <= order <= NextOrder(t, sc))
            && (forall id, id' :: Holds(t, id, sc, order) && Holds(t, id', sc, order) ==> id == id')
  {
    hide At, CallOk, HistoryOk;
    Reachable(actions, n);
    var t := At(actions, n).tables;
    assert ScopeOk(t, sc);
    if 1 <= order <= NextOrder(t, sc) {
      assert Holds(t, AcceptedIn(t, sc)[order - 1], sc, order);
    }
    forall id | Holds(t, id, sc, order) ensures 1 <= order <= NextOrder(t, sc) && id == AcceptedIn(t, sc)[order - 1] {
      assert Placed(t, id);
    }
  }

  /** History only grows: acceptance and versions of the earlier state are prefixes of the later. */
  ghost predicate Grows(t: Tables, t': Tables) {
    && (forall sc :: AcceptedIn(t, sc) <= AcceptedIn(t', sc))
    && (forall id :: VersionsOf(t, id) <= VersionsOf(t', id))
  }

  lemma CommitGrows(t: Tables, r: OrderedRecord, create: bool)
    ensures Grows(t, Commit(t, r, create))
  {
  }

  lemma TablesGrow(s: State, a: Action)
    ensures Grows(s.tables, Next(s, a).tables)
  {
    hide Grows, Commit;
    if a.c in s.calls && a.c in s.pending {
      CommitGrows(s.tables, s.pending[a.c], s.calls[a.c].op.CreateOp?);
    }
    GrowsIsReflexive(s.tables);
  }

  lemma GrowsIsReflexive(t: Tables)
    ensures Grows(t, t)
  {
  }

  lemma GrowsIsTransitive(t: Tables, t': Tables, t'': Tables)
    requires Grows(t, t') && Grows(t', t'')
    ensures Grows(t, t'')
  {
    forall sc ensures AcceptedIn(t, sc) <= AcceptedIn(t'', sc) {
      assert AcceptedIn(t, sc) <= AcceptedIn(t', sc) <= AcceptedIn(t'', sc);
    }
    forall id ensures VersionsOf(t, id) <= VersionsOf(t'', id) {
      assert VersionsOf(t, id) <= VersionsOf(t', id) <= VersionsOf(t'', id);
    }
  }

  lemma {:induction false} HistoryGrows(actions: seq<Action>, n: nat, m: nat)
    requires n <= m <= |actions|
    ensures Grows(At(actions, n).tables, At(actions, m).tables)
  {
    hide Grows, Next;
    if n == m {
      GrowsIsReflexive(At(actions, n).tables);
    } else {
      HistoryGrows(actions, n, m - 1);
      TablesGrow(At(actions, m - 1), actions[m - 1]);
      GrowsIsTransitive(At(actions, n).tables, At(actions, m - 1).tables, At(actions, m).tables);
    }
  }

  // ---------------------------------------------------------------- the tailing reader

  predicate InScope(t: Tables, sc: Scope, r: OrderedRecord) {
    r.id in t.records && t.records[r.id] == r && ScopeOf(r.id) == sc
  }

  /**
   What ListOrdered returns: the records of the scope with order above `after`, in order,
   cut at `limit`.
   */
  ghost predicate IsOrderedPage(t: Tables, sc: Scope, after: nat, limit: nat, page: seq<OrderedRecord>) {
    && |page| <= limit
    && (forall i :: 0 <= i < |page| ==> InScope(t, sc, page[i]) && page[i].order > after)
    && (forall i, j :: 0 <= i < j < |page| ==> page[i].order < page[j].order)
    && (forall id :: id in t.records && ScopeOf(id) == sc && t.records[id].order > after ==>
          t.records[id] in page
          || (|page| == limit && forall i :: 0 <= i < |page| ==> page[i].order < t.records[id].order))
  }

  /** NextAfterOrder of the returned page. */
  function NextAfterOrder(page: seq<OrderedRecord>): nat { if page == [] then 0 else page[|page| - 1].order }

  /** What a caller that keeps its own place remembers. */
  function Advance(position: nat,
                   page: seq<OrderedRecord>): nat { if page == [] then position else NextAfterOrder(page) }

  /** No accepted order above `after` is missing before a page element. */
  lemma NothingIsSkipped(t: Tables, sc: Scope, after: nat, limit: nat, page: seq<OrderedRecord>, i: nat, k: nat)
    requires ScopeOk(t, sc) && IsOrderedPage(t, sc, after, limit, page) && i < |page|
    requires after <= k < |AcceptedIn(t, sc)| && k + 1 < page[i].order
    ensures exists j :: 0 <= j < i && page[j].order == k + 1
  {
    var id := AcceptedIn(t, sc)[k];
    assert Holds(t, id, sc, k + 1);
    var j :| 0 <= j < |page| && page[j] == t.records[id];
    assert page[j].order == k + 1;
  }

  /** Element i of a page that starts at `after` is the record accepted at that place. */
  lemma {:induction false} PageIsContiguous(t: Tables, sc: Scope, after: nat, limit: nat, page: seq<OrderedRecord>,
                                            i: nat)
    requires AcceptanceOk(t) && IsOrderedPage(t, sc, after, limit, page) && i < |page|
    ensures page[i].order == after + i + 1 <= |AcceptedIn(t, sc)|
    ensures page[i].id == AcceptedIn(t, sc)[after + i]
  {
    hide ScopeOk;
    assert ScopeOk(t, sc);
    assert InScope(t, sc, page[i]) && Placed(t, page[i].id);
    if i > 0 {
      PageIsContiguous(t, sc, after, limit, page, i - 1);
    }
    if page[i].order > after + i + 1 {
      NothingIsSkipped(t, sc, after, limit, page, i, after + i);
    }
  }

  lemma AcceptanceIsPrefix(actions: seq<Action>, n: nat, m: nat, sc: Scope)
    requires n <= m <= |actions|
    ensures AcceptanceOk(At(actions, n).tables)
    ensures AcceptedIn(At(actions, n).tables, sc) <= AcceptedIn(At(actions, m).tables, sc)
  {
    hide At, AcceptanceOk, CallOk, HistoryOk;
    Reachable(actions, n);
    HistoryGrows(actions, n, m);
  }

  /** One poll of the reader: when it reads, how many records it asks for, what it is given. */
  datatype Poll = Poll(at: nat, limit: nat, page: seq<OrderedRecord>)

  ghost predicate Polled(actions: seq<Action>, sc: Scope, polls: seq<Poll>, position: nat, from: nat)
    decreases |polls|
  {
    polls == [] ||
    (&& from <= polls[0].at <= |actions|
     && IsOrderedPage(At(actions, polls[0].at).tables, sc, position, polls[0].limit, polls[0].page)
     && Polled(actions, sc, polls[1..], Advance(position, polls[0].page), polls[0].at))
  }

  function Delivered(polls: seq<Poll>): seq<OrderedRecord> {
    if polls == [] then [] else polls[0].page + Delivered(polls[1..])
  }

  /**
   A reader that keeps its place on empty pages gets, over polls spread anyhow over a run,
   the acceptance order itself: element i is the identity accepted at position + i, which
   is the same in every later state, so nothing is skipped, repeated or reordered, however
   late a create commits.
   */
  lemma {:induction false} TailSeesAcceptanceOrder(actions: seq<Action>, sc: Scope, polls: seq<Poll>, position: nat,
                                                   from: nat, n: nat, i: nat)
    requires n <= |actions| && Polled(actions, sc, polls, position, from)
    requires forall k :: 0 <= k < |polls| ==> polls[k].at <= n
    requires i < |Delivered(polls)|
    ensures var acc := AcceptedIn(At(actions, n).tables, sc);
            position + i < |acc| && Delivered(polls)[i].id == acc[position + i]
            && Delivered(polls)[i].order == position + i + 1
    decreases |polls|
  {
    hide At, IsOrderedPage, AcceptanceOk, AcceptedIn;
    var page := polls[0].page;
    var t := At(actions, polls[0].at).tables;
    AcceptanceIsPrefix(actions, polls[0].at, n, sc);
    if i < |page| {
      PageIsContiguous(t, sc, position, polls[0].limit, page, i);
    } else {
      if page != [] {
        PageIsContiguous(t, sc, position, polls[0].limit, page, |page| - 1);
      }
      assert Advance(position, page) == position + |page|;
      TailSeesAcceptanceOrder(actions, sc, polls[1..], position + |page|, polls[0].at, n, i - |page|);
    }
  }

  /** The page is as full as it can be: it ends at its limit or at the counter. */
  lemma PageReachesTheCounter(t: Tables, sc: Scope, after: nat, limit: nat, page: seq<OrderedRecord>)
    requires AcceptanceOk(t) && IsOrderedPage(t, sc, after, limit, page) && |page| < limit
    ensures after + |page| >= NextOrder(t, sc)
  {
    assert ScopeOk(t, sc);
    var k := after + |page|;
    if k < NextOrder(t, sc) {
      var id := AcceptedIn(t, sc)[k];
      assert Holds(t, id, sc, k + 1);
      var j :| 0 <= j < |page| && page[j] == t.records[id];
      PageIsContiguous(t, sc, after, limit, page, j);
      assert false;
    }
  }

  /**
   A reader that follows NextAfterOrder instead of its own place starts over after an empty
   page: the next page it reads begins with the first record ever accepted.
   */
  lemma EmptyPageRewindsNextAfterOrder(t: Tables, sc: Scope, limit: nat, page: seq<OrderedRecord>)
    requires AcceptanceOk(t) && NextOrder(t, sc) > 0 && limit > 0
    requires IsOrderedPage(t, sc, NextAfterOrder([]), limit, page)
    ensures page != [] && page[0].order == 1 && page[0].id == AcceptedIn(t, sc)[0]
  {
    if page == [] {
      PageReachesTheCounter(t, sc, 0, limit, page);
    }
    PageIsContiguous(t, sc, 0, limit, page, 0);
  }

  // ---------------------------------------------------------------- versions

  /**
   A record handed to any caller is the version of its identity that its revision names,
   in this and every later state.
   */
  lemma OutcomesAreVersions(actions: seq<Action>, n: nat, m: nat, c: CallId)
    requires n <= m <= |actions| && c in At(actions, n).calls && At(actions, n).calls[c].phase.Done?
    requires var o := At(actions, n).calls[c].phase.outcome; o.Created? || o.Existing? || o.Mutated?
    ensures var call := At(actions, n).calls[c];
            call.phase.outcome.record.id == call.id && IsVersion(At(actions, m).tables, call.phase.outcome.record)
  {
    hide At, HoldsLock, WantOk, AcceptanceOk, HistoryOk;
    Reachable(actions, n);
    HistoryGrows(actions, n, m);
    var s := At(actions, n);
    assert CallOk(s, c, s.calls[c]);
    var r := s.calls[c].phase.outcome.record;
    assert VersionsOf(s.tables, r.id) <= VersionsOf(At(actions, m).tables, r.id);
  }

  /** The same for what Get and every list read from the table. */
  lemma StoredRecordsAreVersions(actions: seq<Action>, n: nat, m: nat, id: OrderedID)
    requires n <= m <= |actions| && id in At(actions, n).tables.records
    ensures At(actions, n).tables.records[id].id == id
    ensures IsVersion(At(actions, m).tables, At(actions, n).tables.records[id])
  {
    hide At, CallOk, AcceptanceOk;
    Reachable(actions, n);
    HistoryGrows(actions, n, m);
    var t := At(actions, n).tables;
    StoredIsVersion(t, id);
    assert VersionsOf(t, id) <= VersionsOf(At(actions, m).tables, id);
  }

  /** Versions advance by one, keep identity, ranking scope and order, and nothing follows a tombstone. */
  lemma VersionsAdvanceByOne(actions: seq<Action>, n: nat, id: OrderedID, k: nat)
    requires n <= |actions| && k < |VersionsOf(At(actions, n).tables, id)|
    ensures var vs := VersionsOf(At(actions, n).tables, id);
            && vs[k].id == id && vs[k].revision == k + 1
            && vs[k].order == vs[0].order && vs[k].rankingScope == vs[0].rankingScope
            && (vs[k].deleted ==> k > 0 && vs[k] == Tombstone(vs[k - 1]))
            && (vs[k].deleted ==> forall m :: n <= m <= |actions| ==> VersionsOf(At(actions, m).tables, id) == vs)
  {
    hide At, VersionsOf;
    VersionsArePrefix(actions, n, n, id);
    var vs := VersionsOf(At(actions, n).tables, id);
    if vs[k].deleted {
      forall m | n <= m <= |actions| ensures VersionsOf(At(actions, m).tables, id) == vs {
        VersionsArePrefix(actions, n, m, id);
        assert VersionsOf(At(actions, m).tables, id)[k] == vs[k];
      }
    }
  }

  lemma VersionsArePrefix(actions: seq<Action>, n: nat, m: nat, id: OrderedID)
    requires n <= m <= |actions|
    ensures VersionsOk(id, VersionsOf(At(actions, m).tables, id))
    ensures VersionsOf(At(actions, n).tables, id) <= VersionsOf(At(actions, m).tables, id)
  {
    hide At, AcceptanceOk, CallOk, VersionsOk;
    Reachable(actions, m);
    HistoryGrows(actions, n, m);
  }

  /** All callers told that they created one identity were given the same record. */
  lemma CreatorsAgree(actions: seq<Action>, n: nat, c: CallId, d: CallId)
    requires n <= |actions| && c in At(actions, n).calls && d in At(actions, n).calls
    requires var s := At(actions, n);
             && s.calls[c].id == s.calls[d].id
             && s.calls[c].phase.Done? && s.calls[c].phase.outcome.Created?
             && s.calls[d].phase.Done? && s.calls[d].phase.outcome.Created?
    ensures At(actions, n).calls[c].phase.outcome == At(actions, n).calls[d].phase.outcome
  {
    hide At, HoldsLock, WantOk, AcceptanceOk, HistoryOk;
    Reachable(actions, n);
    var s := At(actions, n);
    assert CallOk(s, c, s.calls[c]) && CallOk(s, d, s.calls[d]);
  }

  // ---------------------------------------------------------------- two creators

  predicate Acceptable(op: Op) {
    op.CreateOp? && ValidName(op.rankingScope) && ValidValue(op.value) && ValidDue(op.due)
  }

  lemma {:induction false} PrefixDecides(actions: seq<Action>, longer: seq<Action>, n: nat)
    requires n <= |actions| && actions <= longer
    ensures At(actions, n) == At(longer, n)
  {
    if n > 0 {
      PrefixDecides(actions, longer, n - 1);
    }
  }

  /** One more action at the end of a run. */
  lemma Do(actions: seq<Action>, s: State, a: Action) returns (actions': seq<Action>, s': State)
    requires At(actions, |actions|) == s
    ensures actions' == actions + [a] && s' == Next(s, a) && At(actions', |actions'|) == s'
  {
    hide Next;
    actions', s' := actions + [a], Next(s, a);
    PrefixDecides(actions, actions', |actions|);
  }

  function Calls(s: State, c: CallId, id: OrderedID, op: Op, phase: Phase): State {
    s.(calls := s.calls[c := Call(id, op, 0, phase)])
  }

  lemma EntersAlone(actions: seq<Action>, s: State, c: CallId, id: OrderedID, op: Op)
    returns (actions': seq<Action>, s': State)
    requires At(actions, |actions|) == s && Acceptable(op) && c !in s.calls && id !in s.tables.records
    ensures At(actions', |actions'|) == s' && s' == Calls(s, c, id, op, Prechecked)
  {
    hide At, EndTransaction, Land;
    var as1, s1 := Do(actions, s, Begin(c, id, op));
    var as2, s2 := Do(as1, s1, Lookup(c));
    actions', s' := Do(as2, s2, Precheck(c));
  }

  /** From a scope with no records and no lock, call c reaches its commit. */
  lemma StagesAlone(actions: seq<Action>, s: State, c: CallId, id: OrderedID, op: Op)
    returns (actions': seq<Action>, s': State)
    requires At(actions, |actions|) == s && Acceptable(op) && c !in s.calls
    requires id !in s.tables.records && ScopeOf(id) !in s.scopeLock && NextOrder(s.tables, ScopeOf(id)) == 0
    ensures At(actions', |actions'|) == s'
    ensures s' == Calls(s, c, id, op, Staged).(scopeLock := s.scopeLock[ScopeOf(id) := c],
                                               pending := s.pending[c := CreatedRecord(id, op, 1)])
  {
    hide At, EndTransaction, Land;
    var as3, s3 := EntersAlone(actions, s, c, id, op);
    var as4, s4 := Do(as3, s3, LockScope(c));
    actions', s' := Do(as4, s4, Recheck(c));
  }

  /** Call c loses its acknowledgement, and its commit is dropped. */
  lemma LosesUnseen(actions: seq<Action>, s: State, c: CallId) returns (actions': seq<Action>, s': State)
    requires At(actions, |actions|) == s && c in s.calls && c in s.pending && s.calls[c].phase == Staged
    ensures At(actions', |actions'|) == s'
    ensures s' == EndTransaction(SetPhase(s, c, Unresolved(s.pending[c])), c)
  {
    hide At, EndTransaction;
    var as1, s1 := Do(actions, s, CommitLost(c));
    actions', s' := Do(as1, s1, Settle(c, false));
  }

  /** Call 2 commits what call 1 is looking for. */
  lemma CommitsThenResolves(actions: seq<Action>, s: State, id: OrderedID, op: Op)
    returns (actions': seq<Action>, s': State)
    requires At(actions, |actions|) == s && op.CreateOp? && 1 in s.calls && 2 in s.calls && 2 in s.pending
    requires s.calls[1].id == s.calls[2].id == id && s.calls[1].op == s.calls[2].op == op
    requires s.pending[2] == CreatedRecord(id, op, 1) && s.calls[2].phase == Staged
    requires s.calls[1].phase == Unresolved(CreatedRecord(id, op, 1))
    ensures At(actions', |actions'|) == s'
    ensures 1 in s'.calls && s'.calls[1].phase == Done(Created(CreatedRecord(id, op, 1)))
    ensures 2 in s'.calls && s'.calls[2].phase == Done(Created(CreatedRecord(id, op, 1)))
    ensures VersionsOf(s'.tables, id) == VersionsOf(s.tables, id) + [CreatedRecord(id, op, 1)]
  {
    hide At;
    var as1, s1 := Do(actions, s, CommitAcknowledged(2));
    assert s1.tables == Commit(s.tables, s.pending[2], true);
    actions', s' := Do(as1, s1, Resolve(1, true));
  }

  /** Both callers were told that they created the record, and it was committed once. */
  predicate BothCreated(s: State, id: OrderedID, op: Op)
    requires op.CreateOp?
  {
    && 1 in s.calls && s.calls[1].phase == Done(Created(CreatedRecord(id, op, 1)))
    && 2 in s.calls && s.calls[2].phase == Done(Created(CreatedRecord(id, op, 1)))
    && VersionsOf(s.tables, id) == [CreatedRecord(id, op, 1)]
  }

  /** Two calls can both be told that they created the record, though only one of them committed. */
  lemma TwinsBothCreate(id: OrderedID, op: Op)
    requires Acceptable(op)
    ensures exists actions :: BothCreated(At(actions, |actions|), id, op)
  {
    var s: State := Init();
    var actions := [];
    assert At(actions, 0) == s;
    hide At;
    actions, s := StagesAlone(actions, s, 1, id, op);
    actions, s := LosesUnseen(actions, s, 1);
    assert s.calls[1].phase == Unresolved(CreatedRecord(id, op, 1)) && s.scopeLock == map[];
    actions, s := StagesAlone(actions, s, 2, id, op);
    actions, s := CommitsThenResolves(actions, s, id, op);
    assert BothCreated(At(actions, |actions|), id, op);
  }
}
