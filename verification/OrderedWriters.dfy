/**
 Which call committed which record, over every run: what is committed and returned is what was
 asked for, one call commits at most once, and two calls never both create one identity.
 */
module OrderedWriters {
  import opened Common
  import opened OrderedTypes
  import opened OrderedWrites
  import opened OrderedSafety
  import opened OrderedTheorems
  import opened OrderedOutcomes

  // ---------------------------------------------------------------- what a call asked for

  /** The record an accepted call may return as its own write. */
  ghost predicate Wrote(call: Call, r: OrderedRecord) {
    if call.op.CreateOp? then
      && r.id == call.id && r.revision == 1 && !r.deleted && r.rankingScope == call.op.rankingScope
      && r.value == call.op.value && r.rank == call.op.rank && r.due == call.op.due
    else r.revision == call.op.expected + 1
         && (call.op.UpdateOp? ==>
               r.value == call.op.value && r.rank == call.op.rank && r.due == call.op.due && !r.deleted)
         && (call.op.DeleteOp? ==> r.deleted && !r.rank.ranked && r.due == Due(NotDue, 0))
  }

  lemma MutationWrites(current: OrderedRecord, call: Call)
    requires !call.op.CreateOp? && Decide(current, call.op).None?
    ensures Wrote(call, MutatedRecord(current, call.op))
  {
  }

  /** A returned record of success is what the call asked to write, or for a Delete a tombstone found. */
  ghost predicate Succeeds(call: Call, o: Outcome) {
    && (o.Created? ==> call.op.CreateOp? && Wrote(call, o.record))
    && (o.Mutated? ==> Wrote(call, o.record) || (call.op.DeleteOp? && o.record.deleted))
  }

  /** Whatever the call is about to commit, looks for, or was given is what it asked for. */
  ghost predicate AsAsked(pending: map<CallId, OrderedRecord>, c: CallId, call: Call) {
    && (c in pending ==> Wrote(call, pending[c]))
    && (call.phase.Unresolved? ==> Wrote(call, call.phase.want))
    && (call.phase.Done? ==> Succeeds(call, call.phase.outcome))
  }

  /** An answer that claims no write, and a pending write that may be gone. */
  lemma StillAsked(pending: map<CallId, OrderedRecord>, pending': map<CallId, OrderedRecord>, c: CallId, call: Call,
                   phase: Phase)
    requires AsAsked(pending, c, call) && (c in pending' ==> c in pending && pending'[c] == pending[c])
    requires !phase.Unresolved? && (phase.Done? ==> !phase.outcome.Created? && !phase.outcome.Mutated?)
    ensures AsAsked(pending', c, call.(phase := phase))
  {
  }

  lemma RecheckAsked(s: State, c: CallId)
    requires c in s.calls && AsAsked(s.pending, c, s.calls[c])
    ensures var s' := StepRecheck(s, c, s.calls[c]); c in s'.calls && AsAsked(s'.pending, c, s'.calls[c])
  {
    var call := s.calls[c];
    EndEffect(s, c);
    hide EndTransaction;
    if !call.phase.ScopeLocked? || !call.op.CreateOp? {
      hide AsAsked, CreatedRecord;
    } else if call.id in s.tables.records || call.phase.current == MAX_UINT64 {
      hide AsAsked, CreatedRecord;
      StillAsked(s.pending, s.pending - {c}, c, call, StepRecheck(s, c, call).calls[c].phase);
    } else {
      StagedAsked(s.pending, c, call, call.phase.current + 1);
      hide AsAsked, CreatedRecord;
    }
  }

  lemma StagedAsked(pending: map<CallId, OrderedRecord>, c: CallId, call: Call, order: nat)
    requires call.op.CreateOp?
    ensures AsAsked(pending[c := CreatedRecord(call.id, call.op, order)], c, call.(phase := Staged))
  {
  }

  lemma LockRowAsked(s: State, c: CallId)
    requires c in s.calls && AsAsked(s.pending, c, s.calls[c])
    ensures var s' := StepLockRow(s, c, s.calls[c]); c in s'.calls && AsAsked(s'.pending, c, s'.calls[c])
  {
    var call := s.calls[c];
    if call.id in s.tables.records && !call.op.CreateOp? && Decide(s.tables.records[call.id], call.op).None? {
      MutationWrites(s.tables.records[call.id], call);
      hide Decide, MutatedRecord, Wrote;
    }
  }

  lemma CommitAsked(s: State, c: CallId, lands: bool)
    requires c in s.calls && AsAsked(s.pending, c, s.calls[c])
    ensures var s' := StepCommitAcknowledged(s, c, s.calls[c]); c in s'.calls && AsAsked(s'.pending, c, s'.calls[c])
    ensures var s' := StepCommitLost(s, c, s.calls[c]); c in s'.calls && AsAsked(s'.pending, c, s'.calls[c])
    ensures var s' := StepSettle(s, c, s.calls[c], lands); c in s'.calls && AsAsked(s'.pending, c, s'.calls[c])
  {
    EndEffect(s, c);
    if c in s.pending {
      LandEffect(s, c);
    }
    hide EndTransaction, Land, CreatedRecord;
  }

  lemma FailAsked(s: State, c: CallId, retryable: bool, cancelled: bool)
    requires c in s.calls && AsAsked(s.pending, c, s.calls[c])
    ensures var s' := StepFail(s, c, s.calls[c], retryable, cancelled);
            c in s'.calls && AsAsked(s'.pending, c, s'.calls[c])
  {
    EndEffect(s, c);
    hide EndTransaction, Wrote;
  }

  lemma ReadAsked(s: State, c: CallId)
    requires c in s.calls && AsAsked(s.pending, c, s.calls[c])
    ensures var s' := StepLookup(s, c, s.calls[c]); c in s'.calls && AsAsked(s'.pending, c, s'.calls[c])
    ensures var s' := StepPrecheck(s, c, s.calls[c]); c in s'.calls && AsAsked(s'.pending, c, s'.calls[c])
    ensures var s' := StepLockScope(s, c, s.calls[c]); c in s'.calls && AsAsked(s'.pending, c, s'.calls[c])
  {
    hide AsAsked;
    var call := s.calls[c];
    if call.phase == Looking && call.op.CreateOp? {
      StillAsked(s.pending, s.pending, c, call, StepLookup(s, c, call).calls[c].phase);
    }
    if call.phase == Ready && call.op.CreateOp? {
      StillAsked(s.pending, s.pending, c, call, StepPrecheck(s, c, call).calls[c].phase);
    }
    if call.phase == Prechecked {
      StillAsked(s.pending, s.pending, c, call, StepLockScope(s, c, call).calls[c].phase);
    }
  }

  lemma ResolveAsked(s: State, c: CallId, readable: bool)
    requires c in s.calls && AsAsked(s.pending, c, s.calls[c])
    ensures var s' := StepResolve(s, c, s.calls[c], readable); c in s'.calls && AsAsked(s'.pending, c, s'.calls[c])
  {
    hide CreatedRecord;
  }

  lemma OwnAsked(s: State, a: Action)
    requires a.c in s.calls && AsAsked(s.pending, a.c, s.calls[a.c])
    ensures var s' := Next(s, a); a.c in s'.calls && AsAsked(s'.pending, a.c, s'.calls[a.c])
  {
    hide AsAsked, StepLookup, StepPrecheck, StepLockScope, StepRecheck, StepLockRow, StepCommitAcknowledged,
        StepCommitLost,
      StepFail, StepSettle, StepResolve;
    match a
    case Recheck(c) => RecheckAsked(s, c);
    case LockRow(c) => LockRowAsked(s, c);
    case CommitAcknowledged(c) => CommitAsked(s, c, false);
    case CommitLost(c) => CommitAsked(s, c, false);
    case Settle(c, lands) => CommitAsked(s, c, lands);
    case Fail(c, retryable, cancelled) => FailAsked(s, c, retryable, cancelled);
    case Resolve(c, readable) => ResolveAsked(s, c, readable);
    case _ => ReadAsked(s, a.c);
  }

  /** In every run, what a call commits, looks for or returns is what it asked for. */
  lemma {:induction false} OutcomesAreAsAsked(actions: seq<Action>, n: nat, c: CallId)
    requires n <= |actions| && c in At(actions, n).calls
    ensures AsAsked(At(actions, n).pending, c, At(actions, n).calls[c])
  {
    if n > 0 {
      hide At, Next, CallOk, AcceptanceOk, HistoryOk, MayLand, HasLanded, Wrote, Commit;
      LastStep(actions, n);
      var s, a := At(actions, n - 1), actions[n - 1];
      if a.c in s.calls {
        OwnOfRun(actions, n - 1);
        OutcomesAreAsAsked(actions, n - 1, c);
        if c == a.c {
          OwnAsked(s, a);
        }
      } else {
        NewCall(s, a);
        if c in s.calls {
          OutcomesAreAsAsked(actions, n - 1, c);
        } else {
          RunPends(actions, n - 1);
          NewCallIsAsAsked(s, a, c);
        }
      }
    }
  }

  lemma NewCallIsAsAsked(s: State, a: Action, c: CallId)
    requires c !in s.calls && a.c !in s.calls && c in Next(s, a).calls && c !in s.pending
    ensures AsAsked(Next(s, a).pending, c, Next(s, a).calls[c])
  {
  }

  // ---------------------------------------------------------------- who commits

  /** Action k commits the transaction of call c. */
  ghost predicate LandsAt(actions: seq<Action>, k: nat, c: CallId)
    requires k < |actions|
  {
    actions[k].c == c && At(actions, k + 1).tables != At(actions, k).tables
  }

  /** Action k is an acknowledged commit of call c. */
  ghost predicate AcknowledgedAt(actions: seq<Action>, k: nat, c: CallId)
    requires k < |actions|
  {
    actions[k] == CommitAcknowledged(c) && c in At(actions, k).calls && At(actions, k).calls[c].phase == Staged
  }

  lemma LandingIsCommit(actions: seq<Action>, k: nat)
    requires k < |actions| && LandsAt(actions, k, actions[k].c)
    ensures CommitsOwn(At(actions, k), At(actions, k + 1), actions[k].c)
  {
    hide At, Commit;
    if actions[k].c in At(actions, k).calls {
      StepOfRun(actions, k, actions[k].c);
    } else {
      UnknownCallChangesNothing(actions, k);
    }
  }

  lemma LandTables(s: State, c: CallId)
    requires c in s.calls && c in s.pending
    ensures Land(s, c).tables == Commit(s.tables, s.pending[c], s.calls[c].op.CreateOp?)
  {
  }

  lemma CommitChangesTables(t: Tables, r: OrderedRecord, create: bool)
    ensures Commit(t, r, create) != t
  {
    var t' := Commit(t, r, create);
    assert |VersionsOf(t', r.id)| == |VersionsOf(t, r.id)| + 1;
  }

  /** An acknowledged commit is the call's own. */
  lemma AcknowledgedCommits(actions: seq<Action>, k: nat, c: CallId)
    requires k < |actions| && AcknowledgedAt(actions, k, c)
    ensures LandsAt(actions, k, c)
  {
    hide At, Commit, HistoryOk, AcceptanceOk, Land;
    var s := At(actions, k);
    LastStep(actions, k + 1);
    Reachable(actions, k);
    assert CallOk(s, c, s.calls[c]);
    LandTables(s, c);
    CommitChangesTables(s.tables, s.pending[c], s.calls[c].op.CreateOp?);
  }

  // ---------------------------------------------------------------- one commit per call

  /** A call that has landed has nothing pending, and never will have. */
  ghost predicate Spent(s: State, c: CallId) { c in s.calls && HasLanded(s.calls[c].phase) && c !in s.pending }

  lemma SpentStays(s: State, a: Action, c: CallId)
    requires Spent(s, c) && Inv(s) && OnlyOpenCallsPend(s)
    ensures Spent(Next(s, a), c)
  {
    hide CallOk, AcceptanceOk, HistoryOk;
    if a.c in s.calls {
      assert CallOk(s, a.c, s.calls[a.c]);
      StepOwn(s, a);
      if a.c == c {
        StaysEmpty(s, a);
      }
    } else {
      NewCall(s, a);
    }
  }

  lemma StaysEmpty(s: State, a: Action)
    requires a.c in s.calls && HasLanded(s.calls[a.c].phase) && a.c !in s.pending
    ensures a.c !in Next(s, a).pending
  {
  }

  lemma LastStep(actions: seq<Action>, n: nat)
    requires 0 < n <= |actions|
    ensures At(actions, n) == Next(At(actions, n - 1), actions[n - 1])
  {
  }

  lemma {:induction false} SpentForever(actions: seq<Action>, k: nat, n: nat, c: CallId)
    requires k <= n <= |actions| && Spent(At(actions, k), c)
    ensures Spent(At(actions, n), c)
  {
    hide At, Next, Inv, Spent, OnlyOpenCallsPend;
    if k < n {
      LastStep(actions, n);
      SpentForever(actions, k, n - 1, c);
      Reachable(actions, n - 1);
      RunPends(actions, n - 1);
      SpentStays(At(actions, n - 1), actions[n - 1], c);
    }
  }

  lemma LandingSpends(actions: seq<Action>, k: nat, c: CallId)
    requires k < |actions| && LandsAt(actions, k, c)
    ensures c in At(actions, k).calls && c in At(actions, k).pending && Spent(At(actions, k + 1), c)
  {
    hide At, Commit, HasLanded, MayLand;
    LandingIsCommit(actions, k);
    StepOfRun(actions, k, c);
  }

  /** Over all its attempts, and after its answer, one call commits at most once. */
  lemma OneCommitPerCall(actions: seq<Action>, k: nat, k': nat, c: CallId)
    requires k < |actions| && k' < |actions| && LandsAt(actions, k, c) && LandsAt(actions, k', c)
    ensures k == k'
  {
    hide At, LandsAt;
    LandingSpends(actions, k, c);
    LandingSpends(actions, k', c);
    if k < k' {
      SpentForever(actions, k + 1, k', c);
    } else if k' < k {
      SpentForever(actions, k' + 1, k, c);
    }
  }

  // ---------------------------------------------------------------- one creator per identity

  lemma {:induction false} RequestIsKept(actions: seq<Action>, k: nat, n: nat, c: CallId)
    requires k <= n <= |actions| && c in At(actions, k).calls
    ensures c in At(actions, n).calls
    ensures At(actions, n).calls[c].id == At(actions, k).calls[c].id
    ensures At(actions, n).calls[c].op == At(actions, k).calls[c].op
  {
    hide At;
    if k < n {
      RequestIsKept(actions, k, n - 1, c);
      StepOfRun(actions, n - 1, c);
    }
  }

  lemma CommitStores(t: Tables, r: OrderedRecord, create: bool)
    ensures VersionsOf(Commit(t, r, create), r.id) != []
  {
  }

  /** A landed create makes its identity known, for good. */
  lemma LandedIsStored(actions: seq<Action>, k: nat, n: nat, c: CallId)
    requires k < n <= |actions| && LandsAt(actions, k, c)
    ensures c in At(actions, k).calls && At(actions, k).calls[c].id in At(actions, n).tables.records
  {
    hide At, AcceptanceOk, Commit, VersionsOk, VersionsOf;
    var s := At(actions, k);
    LandingIsCommit(actions, k);
    Reachable(actions, k);
    assert CallOk(s, c, s.calls[c]);
    CommitStores(s.tables, s.pending[c], s.calls[c].op.CreateOp?);
    HistoryGrows(actions, k + 1, n);
    Reachable(actions, n);
    var id := s.calls[c].id;
    assert VersionsOf(At(actions, k + 1).tables, id) <= VersionsOf(At(actions, n).tables, id);
  }

  lemma LandedCreateIsNew(actions: seq<Action>, k: nat, c: CallId)
    requires k < |actions| && LandsAt(actions, k, c)
    ensures c in At(actions, k).calls
    ensures At(actions, k).calls[c].op.CreateOp? ==> At(actions, k).calls[c].id !in At(actions, k).tables.records
  {
    hide At, Commit, AcceptanceOk, HistoryOk;
    LandingIsCommit(actions, k);
    Reachable(actions, k);
    assert CallOk(At(actions, k), c, At(actions, k).calls[c]);
  }

  /** No two creates of one identity are ever committed. */
  lemma OneCreateCommits(actions: seq<Action>, k: nat, k': nat, c: CallId, d: CallId)
    requires k < |actions| && k' < |actions| && LandsAt(actions, k, c) && LandsAt(actions, k', d)
    requires c in At(actions, k).calls && At(actions, k).calls[c].op.CreateOp?
    requires d in At(actions, k').calls && At(actions, k').calls[d].op.CreateOp?
    requires At(actions, k).calls[c].id == At(actions, k').calls[d].id
    ensures k == k' && c == d
  {
    hide At, Next;
    LandedCreateIsNew(actions, k, c);
    LandedCreateIsNew(actions, k', d);
    if k < k' {
      LandedIsStored(actions, k, k', c);
    } else if k' < k {
      LandedIsStored(actions, k', k, d);
    }
  }

  predicate ToldCreated(s: State,
                        c: CallId) { c in s.calls && s.calls[c].phase.Done? && s.calls[c].phase.outcome.Created? }

  /**
   Two different calls that are both told that they created one identity asked for the same thing
   and were given the same record; only one of them can have committed it, and so only one of them
   can have been told so by an acknowledged commit.
   */
  lemma TwinCreatorsAreEqual(actions: seq<Action>, n: nat, k: nat, k': nat, c: CallId, d: CallId)
    requires n <= |actions| && c != d && ToldCreated(At(actions, n), c) && ToldCreated(At(actions, n), d)
    requires At(actions, n).calls[c].id == At(actions, n).calls[d].id
    requires k < n && k' < n
    ensures At(actions, n).calls[c].op == At(actions, n).calls[d].op
    ensures At(actions, n).calls[c].phase.outcome == At(actions, n).calls[d].phase.outcome
    ensures !(LandsAt(actions, k, c) && LandsAt(actions, k', d))
    ensures !(AcknowledgedAt(actions, k, c) && AcknowledgedAt(actions, k', d))
  {
    CreatorsAgree(actions, n, c, d);
    OutcomesAreAsAsked(actions, n, c);
    OutcomesAreAsAsked(actions, n, d);
    hide At, LandsAt, AcknowledgedAt;
    if AcknowledgedAt(actions, k, c) {
      AcknowledgedCommits(actions, k, c);
    }
    if AcknowledgedAt(actions, k', d) {
      AcknowledgedCommits(actions, k', d);
    }
    if LandsAt(actions, k, c) && LandsAt(actions, k', d) {
      BothLand(actions, n, k, k', c, d);
    }
  }

  lemma BothLand(actions: seq<Action>, n: nat, k: nat, k': nat, c: CallId, d: CallId)
    requires n <= |actions| && k < n && k' < n && LandsAt(actions, k, c) && LandsAt(actions, k', d)
    requires c in At(actions, n).calls && d in At(actions, n).calls
    requires At(actions, n).calls[c].id == At(actions, n).calls[d].id
    requires At(actions, n).calls[c].op.CreateOp? && At(actions, n).calls[d].op.CreateOp?
    ensures c == d
  {
    hide At, LandsAt;
    LandingSpends(actions, k, c);
    LandingSpends(actions, k', d);
    RequestIsKept(actions, k, n, c);
    RequestIsKept(actions, k', n, d);
    OneCreateCommits(actions, k, k', c, d);
  }

  // ---------------------------------------------------------------- every version has its writer

  lemma {:induction false} VersionWasCommitted(actions: seq<Action>, n: nat, r: OrderedRecord) returns (k: nat)
    requires n <= |actions| && IsVersion(At(actions, n).tables, r)
    ensures k < n && LandsAt(actions, k, actions[k].c)
    ensures var s := At(actions, k);
            actions[k].c in s.calls && actions[k].c in s.pending && s.pending[actions[k].c] == r
  {
    hide Next, IsVersion, Commit;
    assert n > 0 by { NothingAtFirst(actions, n, r); }
    var s, a := At(actions, n - 1), actions[n - 1];
    if IsVersion(s.tables, r) {
      k := VersionWasCommitted(actions, n - 1, r);
    } else {
      k := n - 1;
      LandingIsCommit(actions, k);
      NewVersion(s.tables, s.pending[a.c], s.calls[a.c].op.CreateOp?, r);
    }
  }

  lemma NothingAtFirst(actions: seq<Action>, n: nat, r: OrderedRecord)
    requires n <= |actions| && IsVersion(At(actions, n).tables, r)
    ensures n > 0
  {
  }

  lemma NewVersion(t: Tables, r: OrderedRecord, create: bool, v: OrderedRecord)
    requires IsVersion(Commit(t, r, create), v) && !IsVersion(t, v)
    ensures v == r
  {
    CommitExtendsVersions(t, r, create, v.id);
  }

  /**
   A caller that is told created without a commit of its own had its answer from a reread, and the
   record it was given is the commit of another call that asked for the same.
   */
  lemma OtherCreatedIsATwins(actions: seq<Action>, n: nat, c: CallId) returns (k: nat)
    requires n <= |actions| && ToldCreated(At(actions, n), c)
    requires forall j :: 0 <= j < n ==> !LandsAt(actions, j, c)
    ensures forall j :: 0 <= j < n ==> !AcknowledgedAt(actions, j, c)
    ensures k < n && actions[k].c != c && LandsAt(actions, k, actions[k].c)
    ensures var s, d := At(actions, k), actions[k].c;
            && d in s.calls && s.calls[d].op == At(actions, n).calls[c].op
            && d in s.pending && s.pending[d] == At(actions, n).calls[c].phase.outcome.record
  {
    hide At, LandsAt, AcknowledgedAt, IsVersion;
    var call := At(actions, n).calls[c];
    OutcomesAreVersions(actions, n, n, c);
    OutcomesAreAsAsked(actions, n, c);
    k := VersionWasCommitted(actions, n, call.phase.outcome.record);
    OutcomesAreAsAsked(actions, k, actions[k].c);
    FirstVersionIsACreate(actions, k);
    forall j | 0 <= j < n ensures !AcknowledgedAt(actions, j, c) {
      if AcknowledgedAt(actions, j, c) {
        AcknowledgedCommits(actions, j, c);
      }
    }
  }

  /** Likewise an update or delete that succeeds without a commit of its own returns another call's commit. */
  lemma OtherMutationIsATwins(actions: seq<Action>, n: nat, c: CallId) returns (k: nat)
    requires n <= |actions| && c in At(actions, n).calls
    requires At(actions, n).calls[c].phase.Done? && At(actions, n).calls[c].phase.outcome.Mutated?
    requires forall j :: 0 <= j < n ==> !LandsAt(actions, j, c)
    ensures forall j :: 0 <= j < n ==> !AcknowledgedAt(actions, j, c)
    ensures k < n && actions[k].c != c && LandsAt(actions, k, actions[k].c)
    ensures var s, d := At(actions, k), actions[k].c;
            d in s.pending && s.pending[d] == At(actions, n).calls[c].phase.outcome.record
  {
    hide At, LandsAt, AcknowledgedAt, IsVersion;
    OutcomesAreVersions(actions, n, n, c);
    k := VersionWasCommitted(actions, n, At(actions, n).calls[c].phase.outcome.record);
    forall j | 0 <= j < n ensures !AcknowledgedAt(actions, j, c) {
      if AcknowledgedAt(actions, j, c) {
        AcknowledgedCommits(actions, j, c);
      }
    }
  }

  lemma FirstVersionIsACreate(actions: seq<Action>, k: nat)
    requires k < |actions| && actions[k].c in At(actions, k).calls && actions[k].c in At(actions, k).pending
    requires At(actions, k).pending[actions[k].c].revision == 1
    ensures At(actions, k).calls[actions[k].c].op.CreateOp?
  {
    hide At, AcceptanceOk;
    var s, c := At(actions, k), actions[k].c;
    Reachable(actions, k);
    assert CallOk(s, c, s.calls[c]);
    if !s.calls[c].op.CreateOp? {
      StoredIsVersion(s.tables, s.calls[c].id);
    }
  }
}
