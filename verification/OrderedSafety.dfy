/** What every run of the OrderedIndex writes keeps. */
module OrderedSafety {
  import opened Common
  import opened OrderedTypes
  import opened OrderedWrites

  // ---------------------------------------------------------------- the invariant

  /** Position k of a scope's acceptance is the identity whose order is k + 1, and the counter is the last order. */
  ghost predicate ScopeOk(t: Tables, sc: Scope) {
    && NextOrder(t, sc) == |AcceptedIn(t, sc)|
    && forall k :: 0 <= k < |AcceptedIn(t, sc)| ==> Holds(t, AcceptedIn(t, sc)[k], sc, k + 1)
  }

  predicate Holds(t: Tables, id: OrderedID, sc: Scope, order: nat) {
    id in t.records && ScopeOf(id) == sc && t.records[id].order == order
  }

  /** A record sits in its scope's acceptance where its order says. */
  predicate Placed(t: Tables, id: OrderedID)
    requires id in t.records
  {
    var acc := AcceptedIn(t, ScopeOf(id));
    1 <= t.records[id].order <= |acc| && acc[t.records[id].order - 1] == id
  }

  ghost predicate AcceptanceOk(t: Tables) {
    && (forall sc :: ScopeOk(t, sc))
    && (forall id :: id in t.records ==> Placed(t, id))
  }

  /** One identity's versions: revisions count up from 1, the immutable columns stay, a tombstone is last. */
  ghost predicate VersionsOk(id: OrderedID, vs: seq<OrderedRecord>) {
    forall k :: 0 <= k < |vs| ==>
      && vs[k].id == id && vs[k].revision == k + 1
      && vs[k].rankingScope == vs[0].rankingScope && vs[k].order == vs[0].order
      && (vs[k].deleted ==> k == |vs| - 1 && EndsLife(vs, k))
  }

  /** Version k is the tombstone of the one before it. */
  predicate EndsLife(vs: seq<OrderedRecord>, k: nat)
    requires k < |vs|
  {
    k > 0 && vs[k] == Tombstone(vs[k - 1])
  }

  /** What is left of a record: its identity, order and value, out of every ranked and due view. */
  function Tombstone(r: OrderedRecord): OrderedRecord {
    r.(revision := r.revision + 1, rank := Rank(false, 0), due := Due(NotDue, 0), deleted := true)
  }

  ghost predicate HistoryOk(t: Tables) {
    && (forall id :: id in t.records <==> VersionsOf(t, id) != [])
    && (forall id :: VersionsOk(id, VersionsOf(t, id)))
    && (forall id :: id in t.records ==> t.records[id] == VersionsOf(t, id)[|VersionsOf(t, id)| - 1])
  }

  /** What a transaction in flight is about to commit. */
  ghost predicate WantOk(t: Tables, id: OrderedID, create: bool, want: OrderedRecord) {
    && want.id == id
    && if create then
         && id !in t.records
         && want.order == NextOrder(t, ScopeOf(id)) + 1
         && want.revision == 1 && !want.deleted
       else
         && id in t.records && !t.records[id].deleted
         && want.revision == t.records[id].revision + 1
         && want.order == t.records[id].order
         && want.rankingScope == t.records[id].rankingScope
         && (want.deleted ==> want == Tombstone(t.records[id]))
  }

  /** `r` is the version of its identity that its revision names. */
  ghost predicate IsVersion(t: Tables, r: OrderedRecord) {
    1 <= r.revision <= |VersionsOf(t, r.id)| && VersionsOf(t, r.id)[r.revision - 1] == r
  }

  ghost predicate OutcomeOk(t: Tables, id: OrderedID, phase: Phase) {
    phase.Done? ==>
      var o := phase.outcome;
      && ((o.Created? || o.Existing? || o.Mutated?) ==> o.record.id == id && IsVersion(t, o.record))
      && (o.Created? ==> o.record.revision == 1)
  }

  /** The lock that call c needs for its transaction is its own. */
  ghost predicate HoldsLock(s: State, c: CallId, id: OrderedID, create: bool) {
    if create then ScopeOf(id) in s.scopeLock && s.scopeLock[ScopeOf(id)] == c
    else id in s.rowLock && s.rowLock[id] == c
  }

  ghost predicate CallOk(s: State, c: CallId, call: Call) {
    && OutcomeOk(s.tables, call.id, call.phase)
    && call.attempt < ATTEMPTS
    && (c in s.pending ==>
          HoldsLock(s, c, call.id, call.op.CreateOp?) && WantOk(s.tables, call.id, call.op.CreateOp?, s.pending[c]))
    && (call.phase == Staged ==> c in s.pending)
    && (call.phase.ScopeLocked? ==>
          call.op.CreateOp? && HoldsLock(s, c, call.id, call.op.CreateOp?) && c !in s.pending
          && call.phase.current == NextOrder(s.tables, ScopeOf(call.id)))
    && (call.phase.Looking? || call.phase.Ready? || call.phase.Prechecked? ==> c !in s.pending)
    && (call.phase.Prechecked? ==> call.op.CreateOp?)
    && (call.phase.Unresolved? && c in s.pending ==> s.pending[c] == call.phase.want)
    && (call.phase.Unresolved? && call.op.CreateOp? ==> call.phase.want.revision == 1)
  }

  ghost predicate Inv(s: State) {
    && AcceptanceOk(s.tables) && HistoryOk(s.tables)
    && s.pending.Keys <= s.calls.Keys
    && forall c :: c in s.calls ==> CallOk(s, c, s.calls[c])
  }

  // ---------------------------------------------------------------- a commit

  lemma CommitKeepsScope(t: Tables, id0: OrderedID, create: bool, r: OrderedRecord, sc: Scope)
    requires AcceptanceOk(t) && WantOk(t, id0, create, r)
    ensures ScopeOk(Commit(t, r, create), sc)
  {
    assert ScopeOk(t, sc);
  }

  lemma CommitKeepsPlaced(t: Tables, id0: OrderedID, create: bool, r: OrderedRecord, id: OrderedID)
    requires AcceptanceOk(t) && WantOk(t, id0, create, r)
    requires id in Commit(t, r, create).records
    ensures Placed(Commit(t, r, create), id)
  {
    assert ScopeOk(t, ScopeOf(r.id));
    if id in t.records {
      assert Placed(t, id);
    }
  }

  lemma CommitKeepsAcceptance(t: Tables, id0: OrderedID, create: bool, r: OrderedRecord)
    requires AcceptanceOk(t) && WantOk(t, id0, create, r)
    ensures AcceptanceOk(Commit(t, r, create))
  {
    hide Commit, ScopeOk, Placed, WantOk;
    var t' := Commit(t, r, create);
    forall sc ensures ScopeOk(t', sc) {
      CommitKeepsScope(t, id0, create, r, sc);
    }
    forall id | id in t'.records ensures Placed(t', id) {
      CommitKeepsPlaced(t, id0, create, r, id);
    }
  }

  lemma CommitExtendsVersions(t: Tables, r: OrderedRecord, create: bool, id: OrderedID)
    ensures VersionsOf(Commit(t, r, create), id) == if id == r.id then VersionsOf(t, id) + [r] else VersionsOf(t, id)
  {
  }

  lemma CommitKeepsVersions(t: Tables, id0: OrderedID, create: bool, r: OrderedRecord, id: OrderedID)
    requires HistoryOk(t) && WantOk(t, id0, create, r)
    ensures var t' := Commit(t, r, create);
            && VersionsOk(id, VersionsOf(t', id))
            && (id in t'.records <==> VersionsOf(t', id) != [])
            && (id in t'.records ==> t'.records[id] == VersionsOf(t', id)[|VersionsOf(t', id)| - 1])
  {
    CommitExtendsVersions(t, r, create, id);
    assert VersionsOk(id, VersionsOf(t, id));
  }

  lemma CommitKeepsHistory(t: Tables, id0: OrderedID, create: bool, r: OrderedRecord)
    requires HistoryOk(t) && WantOk(t, id0, create, r)
    ensures HistoryOk(Commit(t, r, create))
  {
    hide Commit, WantOk, VersionsOk, VersionsOf;
    forall id {
      CommitKeepsVersions(t, id0, create, r, id);
    }
  }

  lemma CommitKeepsVersion(t: Tables, r: OrderedRecord, create: bool, old_: OrderedRecord)
    requires IsVersion(t, old_)
    ensures IsVersion(Commit(t, r, create), old_)
  {
    CommitExtendsVersions(t, r, create, old_.id);
  }

  /** The record just committed is the version its revision names. */
  lemma CommittedIsVersion(t: Tables, id0: OrderedID, create: bool, r: OrderedRecord)
    requires HistoryOk(t) && WantOk(t, id0, create, r)
    ensures IsVersion(Commit(t, r, create), r)
  {
    CommitExtendsVersions(t, r, create, r.id);
    assert VersionsOk(r.id, VersionsOf(t, r.id));
  }

  /** A stored record is the version its revision names. */
  lemma StoredIsVersion(t: Tables, id: OrderedID)
    requires HistoryOk(t) && id in t.records
    ensures t.records[id].id == id && IsVersion(t, t.records[id])
  {
    assert VersionsOk(id, VersionsOf(t, id));
  }

  // ---------------------------------------------------------------- calls beside the acting one

  /** Ending a transaction concerns no other call. */
  lemma EndKeepsOther(s: State, c: CallId, d: CallId)
    requires c in s.calls && d in s.calls && c != d && CallOk(s, d, s.calls[d])
    ensures CallOk(EndTransaction(s, c), d, s.calls[d])
  {
    hide WantOk, OutcomeOk;
  }

  lemma CommitKeepsOutcome(t: Tables, r: OrderedRecord, create: bool, id: OrderedID, phase: Phase)
    requires OutcomeOk(t, id, phase)
    ensures OutcomeOk(Commit(t, r, create), id, phase)
  {
    hide Commit, IsVersion;
    if phase.Done? && (phase.outcome.Created? || phase.outcome.Existing? || phase.outcome.Mutated?) {
      CommitKeepsVersion(t, r, create, phase.outcome.record);
    }
  }

  /** Locks keep the other writers' plans valid while one transaction commits. */
  lemma CommitKeepsOther(s: State, c: CallId, d: CallId)
    requires c in s.calls && d in s.calls && c != d && c in s.pending
    requires CallOk(s, c, s.calls[c]) && CallOk(s, d, s.calls[d])
    ensures CallOk(s.(tables := Commit(s.tables, s.pending[c], s.calls[c].op.CreateOp?)), d, s.calls[d])
  {
    hide OutcomeOk;
    CommitKeepsOutcome(s.tables, s.pending[c], s.calls[c].op.CreateOp?, s.calls[d].id, s.calls[d].phase);
  }

  /** Every other call survives the landing of call c. */
  lemma LandKeepsOther(s: State, c: CallId, d: CallId)
    requires c in s.calls && d in s.calls && c != d && c in s.pending
    requires CallOk(s, c, s.calls[c]) && CallOk(s, d, s.calls[d])
    ensures CallOk(Land(s, c), d, s.calls[d])
  {
    hide CallOk, EndTransaction, Commit;
    CommitKeepsOther(s, c, d);
    EndKeepsOther(s.(tables := Commit(s.tables, s.pending[c], s.calls[c].op.CreateOp?)), c, d);
  }

  lemma LandKeepsTables(s: State, c: CallId)
    requires Inv(s) && c in s.calls && c in s.pending
    ensures AcceptanceOk(Land(s, c).tables) && HistoryOk(Land(s, c).tables)
  {
    hide AcceptanceOk, HistoryOk, WantOk, OutcomeOk;
    assert CallOk(s, c, s.calls[c]);
    CommitKeepsAcceptance(s.tables, s.calls[c].id, s.calls[c].op.CreateOp?, s.pending[c]);
    CommitKeepsHistory(s.tables, s.calls[c].id, s.calls[c].op.CreateOp?, s.pending[c]);
  }

  // ---------------------------------------------------------------- steps

  /** Only the phase of call c changed. */
  lemma SetPhaseKeeps(s: State, c: CallId, phase: Phase)
    requires Inv(s) && c in s.calls && CallOk(s, c, s.calls[c].(phase := phase))
    ensures Inv(SetPhase(s, c, phase))
  {
    hide AcceptanceOk, HistoryOk, OutcomeOk, WantOk;
    var s' := SetPhase(s, c, phase);
    forall d | d in s'.calls ensures CallOk(s', d, s'.calls[d]) {
      assert CallOk(s, d, s.calls[d]);
    }
  }

  /** Call c ends its transaction and takes up `call`. */
  lemma EndKeeps(s: State, c: CallId, call: Call)
    requires Inv(s) && c in s.calls && call.id == s.calls[c].id && call.op == s.calls[c].op
    requires call.attempt < ATTEMPTS && OutcomeOk(s.tables, call.id, call.phase)
    requires !call.phase.Staged? && !call.phase.ScopeLocked? && (call.phase.Prechecked? ==> call.op.CreateOp?)
    requires call.phase.Unresolved? && call.op.CreateOp? ==> call.phase.want.revision == 1
    ensures Inv(EndTransaction(s, c).(calls := s.calls[c := call]))
  {
    hide AcceptanceOk, HistoryOk, OutcomeOk, WantOk, HoldsLock;
    var e := EndTransaction(s, c);
    var s' := e.(calls := s.calls[c := call]);
    forall d | d in s'.calls ensures CallOk(s', d, s'.calls[d]) {
      if d != c {
        EndKeepsOther(s, c, d);
        SameViewSameCall(e, s', d, s.calls[d]);
      }
    }
  }

  /** CallOk reads tables, locks and pending writes only. */
  lemma SameViewSameCall(s: State, s': State, d: CallId, call: Call)
    requires s'.tables == s.tables && s'.scopeLock == s.scopeLock && s'.rowLock == s.rowLock && s'.pending == s.pending
    requires CallOk(s, d, call)
    ensures CallOk(s', d, call)
  {
    hide OutcomeOk, WantOk;
  }

  /** The commit of call c lands while it takes up `phase`. */
  lemma LandKeeps(s: State, c: CallId, phase: Phase)
    requires Inv(s) && c in s.calls && c in s.pending
    requires phase.Done? || (phase.Unresolved? && (s.calls[c].op.CreateOp? ==> phase.want.revision == 1))
    requires OutcomeOk(Land(s, c).tables, s.calls[c].id, phase)
    ensures Inv(SetPhase(Land(s, c), c, phase))
  {
    hide AcceptanceOk, HistoryOk, OutcomeOk, WantOk, Commit, HoldsLock;
    LandKeepsTables(s, c);
    var l := Land(s, c);
    var s' := SetPhase(l, c, phase);
    assert CallOk(s, c, s.calls[c]);
    forall d | d in s'.calls ensures CallOk(s', d, s'.calls[d]) {
      if d != c {
        LandKeepsOther(s, c, d);
        SameViewSameCall(l, s', d, s.calls[d]);
      }
    }
  }

  lemma LookupKeeps(s: State, c: CallId, call: Call)
    requires Inv(s) && c in s.calls && call == s.calls[c]
    ensures Inv(StepLookup(s, c, call)) && Inv(StepPrecheck(s, c, call))
  {
    hide AcceptanceOk, HistoryOk, WantOk, HoldsLock, IsVersion;
    assert CallOk(s, c, call);
    var known := call.id in s.tables.records;
    if known {
      StoredIsVersion(s.tables, call.id);
    }
    if call.phase == Looking && call.op.CreateOp? {
      SetPhaseKeeps(s, c, if known then Done(Existing(s.tables.records[call.id])) else Ready);
      SetPhaseKeeps(s, c, if known then Done(Existing(s.tables.records[call.id])) else Done(Invalid));
    }
    if call.phase == Ready && call.op.CreateOp? {
      SetPhaseKeeps(s, c, if known then Done(Existing(s.tables.records[call.id])) else Prechecked);
    }
  }

  lemma LockScopeKeeps(s: State, c: CallId, call: Call)
    requires Inv(s) && c in s.calls && call == s.calls[c]
    ensures Inv(StepLockScope(s, c, call))
  {
    hide AcceptanceOk, HistoryOk, OutcomeOk, WantOk;
    var s' := StepLockScope(s, c, call);
    assert CallOk(s, c, call);
    NoOutcome(s.tables, call.id, ScopeLocked(NextOrder(s.tables, ScopeOf(call.id))));
    forall d | d in s'.calls ensures CallOk(s', d, s'.calls[d]) {
      assert CallOk(s, d, s.calls[d]);
    }
  }

  lemma RecheckKeeps(s: State, c: CallId, call: Call)
    requires Inv(s) && c in s.calls && call == s.calls[c]
    ensures Inv(StepRecheck(s, c, call))
  {
    hide AcceptanceOk, HistoryOk, IsVersion;
    assert CallOk(s, c, call);
    var s' := StepRecheck(s, c, call);
    if !call.phase.ScopeLocked? || !call.op.CreateOp? {
    } else if call.id in s.tables.records {
      StoredIsVersion(s.tables, call.id);
      EndKeeps(s, c, call.(phase := Done(Existing(s.tables.records[call.id]))));
    } else if call.phase.current == MAX_UINT64 {
      EndKeeps(s, c, call.(phase := Done(Exhausted)));
    } else {
      forall d | d in s'.calls ensures CallOk(s', d, s'.calls[d]) {
        assert CallOk(s, d, s.calls[d]);
      }
    }
  }

  lemma LockRowKeeps(s: State, c: CallId, call: Call)
    requires Inv(s) && c in s.calls && call == s.calls[c]
    ensures Inv(StepLockRow(s, c, call))
  {
    hide AcceptanceOk, HistoryOk, IsVersion;
    assert CallOk(s, c, call);
    var s' := StepLockRow(s, c, call);
    if call.phase != Ready || call.op.CreateOp? || call.id in s.rowLock {
    } else if call.id !in s.tables.records {
      SetPhaseKeeps(s, c, Done(NotFound));
    } else {
      StoredIsVersion(s.tables, call.id);
      var d := Decide(s.tables.records[call.id], call.op);
      if d.Some? {
        SetPhaseKeeps(s, c, Done(d.value));
      } else {
        forall d | d in s'.calls ensures CallOk(s', d, s'.calls[d]) {
          assert CallOk(s, d, s.calls[d]);
        }
      }
    }
  }

  lemma CommitStepKeeps(s: State, c: CallId, call: Call)
    requires Inv(s) && c in s.calls && call == s.calls[c]
    ensures Inv(StepCommitAcknowledged(s, c, call)) && Inv(StepCommitLost(s, c, call))
  {
    hide AcceptanceOk, HistoryOk, HoldsLock, IsVersion, WantOk, Commit;
    assert CallOk(s, c, call);
    if call.phase == Staged && c in s.pending {
      CommittedIsVersion(s.tables, call.id, call.op.CreateOp?, s.pending[c]);
      WantIsOwn(s.tables, call.id, call.op.CreateOp?, s.pending[c]);
      LandKeeps(s, c, Done(Success(call, s.pending[c])));
      SetPhaseKeeps(s, c, Unresolved(s.pending[c]));
    }
  }

  lemma WantIsOwn(t: Tables, id: OrderedID, create: bool, want: OrderedRecord)
    requires WantOk(t, id, create, want)
    ensures want.id == id && (create ==> want.revision == 1)
  {
  }

  lemma FailKeeps(s: State, c: CallId, call: Call, retryable: bool, cancelled: bool)
    requires Inv(s) && c in s.calls && call == s.calls[c]
    ensures Inv(StepFail(s, c, call, retryable, cancelled))
  {
    hide AcceptanceOk, HistoryOk, HoldsLock, WantOk;
    assert CallOk(s, c, call);
    SetPhaseKeeps(s, c, if call.phase == Looking then Done(Failed) else call.phase);
    EndKeeps(s, c, call.(phase := Done(Failed)));
    if call.attempt + 1 < ATTEMPTS {
      EndKeeps(s, c, call.(attempt := call.attempt + 1, phase := Ready));
    }
  }

  lemma SettleKeeps(s: State, c: CallId, call: Call, lands: bool)
    requires Inv(s) && c in s.calls && call == s.calls[c]
    ensures Inv(StepSettle(s, c, call, lands))
  {
    hide AcceptanceOk, HistoryOk, HoldsLock, WantOk, OutcomeOk, Commit;
    assert CallOk(s, c, call);
    if call.phase != Staged && c in s.pending {
      assert s.calls[c := call] == s.calls;
      if lands {
        CommitKeepsOutcome(s.tables, s.pending[c], call.op.CreateOp?, call.id, call.phase);
        LandKeeps(s, c, call.phase);
      } else {
        EndKeeps(s, c, call);
      }
    }
  }

  lemma ResolveKeeps(s: State, c: CallId, call: Call, readable: bool)
    requires Inv(s) && c in s.calls && call == s.calls[c]
    ensures Inv(StepResolve(s, c, call, readable))
  {
    hide AcceptanceOk, HistoryOk, HoldsLock, WantOk, IsVersion;
    assert CallOk(s, c, call);
    if call.phase.Unresolved? {
      SetPhaseKeeps(s, c, Done(Ambiguous));
      if call.id in s.tables.records && s.tables.records[call.id] == call.phase.want {
        StoredIsVersion(s.tables, call.id);
        SetPhaseKeeps(s, c, Done(Success(call, s.tables.records[call.id])));
      }
    }
  }

  lemma NoOutcome(t: Tables, id: OrderedID, phase: Phase)
    requires !phase.Done?
    ensures OutcomeOk(t, id, phase)
  {
  }

  lemma BeginKeeps(s: State, a: Action)
    requires Inv(s) && a.Begin? && a.c !in s.calls
    ensures Inv(Next(s, a))
  {
    hide AcceptanceOk, HistoryOk, WantOk, OutcomeOk;
    var s' := Next(s, a);
    forall d | d in s'.calls ensures CallOk(s', d, s'.calls[d]) {
      if d != a.c {
        SameViewSameCall(s, s', d, s.calls[d]);
      } else {
        NoOutcome(s.tables, a.id, s'.calls[d].phase);
      }
    }
  }

  lemma NextKeeps(s: State, a: Action)
    requires Inv(s)
    ensures Inv(Next(s, a))
  {
    if a.c !in s.calls {
      if a.Begin? {
        BeginKeeps(s, a);
      }
    } else {
      hide Inv, StepLookup, StepPrecheck, StepLockScope, StepRecheck, StepLockRow, StepCommitAcknowledged,
          StepCommitLost, StepFail, StepSettle, StepResolve;
      var c, call := a.c, s.calls[a.c];
      match a
      case Begin(_, _, _) =>
      case Lookup(_) => LookupKeeps(s, c, call);
      case Precheck(_) => LookupKeeps(s, c, call);
      case LockScope(_) => LockScopeKeeps(s, c, call);
      case Recheck(_) => RecheckKeeps(s, c, call);
      case LockRow(_) => LockRowKeeps(s, c, call);
      case CommitAcknowledged(_) => CommitStepKeeps(s, c, call);
      case CommitLost(_) => CommitStepKeeps(s, c, call);
      case Fail(_, retryable, cancelled) => FailKeeps(s, c, call, retryable, cancelled);
      case Settle(_, lands) => SettleKeeps(s, c, call, lands);
      case Resolve(_, readable) => ResolveKeeps(s, c, call, readable);
    }
  }

  lemma {:induction false} Reachable(actions: seq<Action>, n: nat)
    requires n <= |actions|
    ensures Inv(At(actions, n))
  {
    if n > 0 {
      Reachable(actions, n - 1);
      NextKeeps(At(actions, n - 1), actions[n - 1]);
    }
  }
}
