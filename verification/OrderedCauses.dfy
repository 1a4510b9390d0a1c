/** Why Create, Update and Delete answer as they do, over every run and for a call that is left alone. */
module OrderedCauses {
  import opened Common
  import opened OrderedTypes
  import opened OrderedWrites
  import opened OrderedSafety
  import opened OrderedTheorems
  import opened OrderedOutcomes

  /** What validateCandidate and the checks of updateOnce ask of the arguments. */
  predicate ValidRequest(op: Op) {
    match op
    case CreateOp(scope, value, rank, due) => ValidName(scope) && ValidValue(value) && ValidDue(due)
    case UpdateOp(_, value, rank, due) => ValidValue(value) && ValidDue(due)
    case DeleteOp(_) => true
  }

  predicate IsLive(t: Tables, id: OrderedID) { id in t.records && !t.records[id].deleted }

  // ---------------------------------------------------------------- causes

  /** What the tables held when a call with this request was answered so. */
  predicate Cause(t: Tables, id: OrderedID, op: Op, o: Outcome) {
    match o
    case Existing(r) => op.CreateOp? && id in t.records && t.records[id] == r
    case NotFound => !op.CreateOp? && id !in t.records
    case AlreadyDeleted => op.UpdateOp? && id in t.records && t.records[id].deleted
    case Invalid => !ValidRequest(op) && if op.CreateOp? then id !in t.records else IsLive(t, id)
    case RevisionConflict(actual) =>
      !op.CreateOp? && IsLive(t, id) && ValidRequest(op) && t.records[id].revision == actual != op.expected
    case Exhausted =>
      if op.CreateOp? then id !in t.records && NextOrder(t, ScopeOf(id)) == MAX_UINT64
      else IsLive(t, id) && t.records[id].revision == op.expected == MAX_UINT64
    case _ => true
  }

  /** A failure is somebody's, and an ambiguity is a reread that did not find the exact post-state. */
  predicate Occasion(s: State, a: Action, c: CallId, o: Outcome) {
    && (o == Failed ==> a.Fail? && a.c == c)
    && (o == Ambiguous ==>
          && a.Resolve? && a.c == c && c in s.calls && s.calls[c].phase.Unresolved?
          && (!a.readable || s.calls[c].id !in s.tables.records
              || s.tables.records[s.calls[c].id] != s.calls[c].phase.want))
  }

  predicate IsDone(s: State, c: CallId) { c in s.calls && s.calls[c].phase.Done? }

  lemma LookupCause(s: State, c: CallId)
    requires c in s.calls && !IsDone(s, c)
    ensures var s' := StepLookup(s, c, s.calls[c]);
            IsDone(s', c) ==> var o := s'.calls[c].phase.outcome;
                              Cause(s.tables, s.calls[c].id, s.calls[c].op, o) && o != Failed && o != Ambiguous
    ensures var s' := StepPrecheck(s, c, s.calls[c]);
            IsDone(s', c) ==> var o := s'.calls[c].phase.outcome;
                              Cause(s.tables, s.calls[c].id, s.calls[c].op, o) && o != Failed && o != Ambiguous
    ensures !IsDone(StepLockScope(s, c, s.calls[c]), c)
  {
  }

  lemma RecheckCause(s: State, c: CallId)
    requires c in s.calls && !IsDone(s, c) && CallOk(s, c, s.calls[c])
    ensures var s' := StepRecheck(s, c, s.calls[c]);
            IsDone(s', c) ==> var o := s'.calls[c].phase.outcome;
                              Cause(s.tables, s.calls[c].id, s.calls[c].op, o) && o != Failed && o != Ambiguous
  {
    EndEffect(s, c);
    hide EndTransaction, CreatedRecord, OutcomeOk, WantOk, HoldsLock;
  }

  lemma LockRowCause(s: State, c: CallId)
    requires c in s.calls && !IsDone(s, c)
    ensures var s' := StepLockRow(s, c, s.calls[c]);
            IsDone(s', c) ==> var o := s'.calls[c].phase.outcome;
                              Cause(s.tables, s.calls[c].id, s.calls[c].op, o) && o != Failed && o != Ambiguous
  {
    hide MutatedRecord;
  }

  lemma CommitCause(s: State, c: CallId)
    requires c in s.calls && !IsDone(s, c)
    ensures var s' := StepCommitAcknowledged(s, c, s.calls[c]);
            IsDone(s', c) ==> s'.calls[c].phase.outcome.Created? || s'.calls[c].phase.outcome.Mutated?
    ensures !IsDone(StepCommitLost(s, c, s.calls[c]), c)
  {
    if c in s.pending {
      LandEffect(s, c);
    }
    hide Land;
  }

  lemma FailCause(s: State, c: CallId, retryable: bool, cancelled: bool, lands: bool)
    requires c in s.calls && !IsDone(s, c)
    ensures var s' := StepFail(s, c, s.calls[c], retryable, cancelled);
            IsDone(s', c) ==> s'.calls[c].phase.outcome == Failed
    ensures !IsDone(StepSettle(s, c, s.calls[c], lands), c)
  {
    EndEffect(s, c);
    if c in s.pending {
      LandEffect(s, c);
    }
    hide EndTransaction, Land;
  }

  lemma ResolveCause(s: State, c: CallId, readable: bool)
    requires c in s.calls && !IsDone(s, c)
    ensures var s' := StepResolve(s, c, s.calls[c], readable);
            IsDone(s', c) ==> var o := s'.calls[c].phase.outcome;
                              && (o.Created? || o.Mutated? || o == Ambiguous)
                              && Occasion(s, Resolve(c, readable), c, o)
  {
  }

  lemma AnswerStep(s: State, a: Action, c: CallId)
    requires a.c == c && c in s.calls && !IsDone(s, c) && CallOk(s, c, s.calls[c]) && IsDone(Next(s, a), c)
    ensures var o := Next(s, a).calls[c].phase.outcome;
            Cause(s.tables, s.calls[c].id, s.calls[c].op, o) && Occasion(s, a, c, o)
  {
    hide CallOk, StepLookup, StepPrecheck, StepLockScope, StepRecheck, StepLockRow;
    match a
    case Lookup(_) => LookupCause(s, c);
    case Precheck(_) => LookupCause(s, c);
    case LockScope(_) => LookupCause(s, c);
    case Recheck(_) => RecheckCause(s, c);
    case LockRow(_) => LockRowCause(s, c);
    case Begin(_, _, _) =>
    case CommitAcknowledged(_) => hide StepCommitAcknowledged; CommitCause(s, c);
    case CommitLost(_) => hide StepCommitLost; CommitCause(s, c);
    case Fail(_, retryable, cancelled) => hide StepFail; FailCause(s, c, retryable, cancelled, false);
    case Settle(_, lands) => hide StepSettle; FailCause(s, c, false, false, lands);
    case Resolve(_, readable) => hide StepResolve; ResolveCause(s, c, readable);
  }

  /** In every run each answer has its cause at the instant at which it is given. */
  lemma {:induction false} AnswerHasCause(actions: seq<Action>, n: nat, c: CallId) returns (k: nat)
    requires n <= |actions| && IsDone(At(actions, n), c)
    ensures k < n && c in At(actions, k).calls && !IsDone(At(actions, k), c)
    ensures var s, call := At(actions, k), At(actions, n).calls[c];
            Cause(s.tables, call.id, call.op, call.phase.outcome) && Occasion(s, actions[k], c, call.phase.outcome)
  {
    hide Next, CallOk, Cause, Occasion, AcceptanceOk, HistoryOk, MayLand, HasLanded, Commit;
    assert n > 0 by { assert c !in Init().calls; }
    var s, a := At(actions, n - 1), actions[n - 1];
    assert At(actions, n) == Next(s, a);
    if c in s.calls {
      StepOfRun(actions, n - 1, c);
    }
    if IsDone(s, c) {
      k := AnswerHasCause(actions, n - 1, c);
    } else {
      Reachable(actions, n - 1);
      if c !in s.calls {
        NewCallIsOpen(actions, n - 1, c);
      } else {
        assert CallOk(s, c, s.calls[c]);
        OnlyOwnStepsAnswer(actions, n - 1, c);
        AnswerStep(s, a, c);
      }
      k := n - 1;
    }
  }

  lemma NewCallIsOpen(actions: seq<Action>, n: nat, c: CallId)
    requires n < |actions| && c !in At(actions, n).calls
    ensures !IsDone(At(actions, n + 1), c)
  {
    var s, a := At(actions, n), actions[n];
    assert At(actions, n + 1) == Next(s, a);
    if a.c in s.calls {
      hide Next, CallOk, AcceptanceOk, HistoryOk, MayLand, HasLanded, Commit;
      RunPends(actions, n);
      Reachable(actions, n);
      StepOwn(s, a);
    }
  }

  lemma OnlyOwnStepsAnswer(actions: seq<Action>, n: nat, c: CallId)
    requires n < |actions| && c in At(actions, n).calls && !IsDone(At(actions, n), c) && IsDone(At(actions, n + 1), c)
    ensures actions[n].c == c
  {
    hide Next, CallOk, AcceptanceOk, HistoryOk, MayLand, HasLanded, Commit;
    var s, a := At(actions, n), actions[n];
    assert At(actions, n + 1) == Next(s, a);
    hide At;
    if a.c in s.calls {
      OwnOfRun(actions, n);
    } else {
      NewCall(s, a);
    }
  }

  // ---------------------------------------------------------------- counters stay within uint64

  /** Every counter, and every order about to be committed, fits. */
  ghost predicate Fits(s: State) {
    && (forall sc :: NextOrder(s.tables, sc) <= MAX_UINT64)
    && (forall c :: c in s.pending && c in s.calls && s.calls[c].op.CreateOp? ==> s.pending[c].order <= MAX_UINT64)
  }

  lemma PendingOrder(s: State, a: Action)
    requires a.c in s.calls && CallOk(s, a.c, s.calls[a.c]) && Fits(s)
    ensures a.c in Next(s, a).pending && s.calls[a.c].op.CreateOp? ==> Next(s, a).pending[a.c].order <= MAX_UINT64
  {
    EndEffect(s, a.c);
    if a.c in s.pending {
      LandEffect(s, a.c);
    }
    hide EndTransaction, Land, Commit, Decide, MutatedRecord, OutcomeOk, WantOk, HoldsLock;
  }

  lemma CommitFits(t: Tables, r: OrderedRecord, create: bool, sc: Scope)
    requires NextOrder(t, sc) <= MAX_UINT64 && (create ==> r.order <= MAX_UINT64)
    ensures NextOrder(Commit(t, r, create), sc) <= MAX_UINT64
  {
  }

  lemma {:induction false} CountersFit(actions: seq<Action>, n: nat)
    requires n <= |actions|
    ensures Fits(At(actions, n))
  {
    if n > 0 {
      CountersFit(actions, n - 1);
      var s, a := At(actions, n - 1), actions[n - 1];
      var s' := Next(s, a);
      assert At(actions, n) == s';
      hide At, Next, CallOk, AcceptanceOk, HistoryOk, MayLand, HasLanded, Commit, NextOrder;
      if a.c in s.calls {
        OwnOfRun(actions, n - 1);
        PendingOrder(s, a);
        forall sc ensures NextOrder(s'.tables, sc) <= MAX_UINT64 {
          if s'.tables != s.tables {
            CommitFits(s.tables, s.pending[a.c], s.calls[a.c].op.CreateOp?, sc);
          }
        }
      } else {
        RunPends(actions, n - 1);
        NewCall(s, a);
      }
    }
  }

  // ---------------------------------------------------------------- a call that is left alone

  /** What Update or Delete makes of the stored record. */
  function Mutation(r: OrderedRecord, op: Op): OrderedRecord
    requires !op.CreateOp?
  {
    match op
    case UpdateOp(_, value, rank, due) =>
      OrderedRecord(r.id, r.rankingScope, r.revision + 1, r.order, value, rank, due, false)
    case DeleteOp(_) =>
      OrderedRecord(r.id, r.rankingScope, r.revision + 1, r.order, r.value, Rank(false, 0), Due(NotDue, 0), true)
  }

  /** The outcome of Update or Delete, and the tables after it, are fixed by the stored record and the request. */
  ghost predicate MutatesAlone(t: Tables, t': Tables, id: OrderedID, op: Op, o: Outcome)
    requires !op.CreateOp?
  {
    && (o == NotFound <==> id !in t.records)
    && (o == AlreadyDeleted <==> op.UpdateOp? && id in t.records && t.records[id].deleted)
    && (o == Invalid <==> IsLive(t, id) && !ValidRequest(op))
    && (o.RevisionConflict? <==> IsLive(t, id) && ValidRequest(op) && t.records[id].revision != op.expected)
    && (o.RevisionConflict? ==> o.actual == t.records[id].revision)
    && (o == Exhausted <==> IsLive(t, id) && ValidRequest(op) && t.records[id].revision == op.expected == MAX_UINT64)
    && if IsLive(t, id) && ValidRequest(op) && t.records[id].revision == op.expected && op.expected != MAX_UINT64 then
         && o == Mutated(Mutation(t.records[id], op))
         && t'.records == t.records[id := Mutation(t.records[id], op)] && t'.scopes == t.scopes
       else
         && t'.records == t.records && t'.scopes == t.scopes
         && (o.Mutated? ==> op.DeleteOp? && id in t.records && t.records[id].deleted && o.record == t.records[id])
         && (op.DeleteOp? && id in t.records && t.records[id].deleted ==> o.Mutated?)
  }

  /** The outcome of Create, and the tables after it, likewise. */
  ghost predicate CreatesAlone(t: Tables, t': Tables, id: OrderedID, op: Op, o: Outcome)
    requires op.CreateOp?
  {
    var next := NextOrder(t, ScopeOf(id)) + 1;
    && (o.Existing? <==> id in t.records)
    && (o.Existing? ==> o.record == t.records[id])
    && (o == Invalid <==> id !in t.records && !ValidRequest(op))
    && (o == Exhausted <==> id !in t.records && ValidRequest(op) && next > MAX_UINT64)
    && if id !in t.records && ValidRequest(op) && next <= MAX_UINT64 then
         var r := OrderedRecord(id, op.rankingScope, 1, next, op.value, op.rank, op.due, false);
         o == Created(r) && t'.records == t.records[id := r] && t'.scopes == t.scopes[ScopeOf(id) := next]
       else
         t'.records == t.records && t'.scopes == t.scopes && !o.Created?
  }
}
