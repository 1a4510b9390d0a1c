/** What an error of Create, Update or Delete says about the committed history. */
module OrderedOutcomes {
  import opened Common
  import opened OrderedTypes
  import opened OrderedWrites
  import opened OrderedSafety

  /** A call in this phase may have a transaction that can still land. */
  predicate MayLand(phase: Phase) { phase == Staged || phase.Unresolved? || phase == Done(Ambiguous) }

  ghost predicate OnlyOpenCallsPend(s: State) {
    forall c :: c in s.pending ==> c in s.calls && MayLand(s.calls[c].phase)
  }

  /** A phase that a call can have after a transaction of its own has landed. */
  predicate HasLanded(phase: Phase) {
    phase.Unresolved?
    || (phase.Done? && (phase.outcome.Created? || phase.outcome.Mutated? || phase.outcome == Ambiguous))
  }

  lemma EndEffect(s: State, c: CallId)
    requires c in s.calls
    ensures EndTransaction(s, c).pending == s.pending - {c} && EndTransaction(s, c).calls == s.calls
    ensures EndTransaction(s, c).tables == s.tables
  {
  }

  lemma LandEffect(s: State, c: CallId)
    requires c in s.calls && c in s.pending
    ensures Land(s, c).pending == s.pending - {c} && Land(s, c).calls == s.calls
    ensures Land(s, c).tables == Commit(s.tables, s.pending[c], s.calls[c].op.CreateOp?)
  {
  }

  /** What a step of call c does to the pending writes and to the phases. */
  ghost predicate OwnEffect(s: State, s': State, c: CallId) {
    && s'.calls.Keys == s.calls.Keys
    && (forall d :: d in s.calls && d != c ==> s'.calls[d] == s.calls[d])
    && (forall d :: d in s'.pending && d != c ==> d in s.pending && s'.pending[d] == s.pending[d])
    && c in s.calls && c in s'.calls
    && (c in s'.pending ==> MayLand(s'.calls[c].phase))
    && (HasLanded(s.calls[c].phase) ==> HasLanded(s'.calls[c].phase))
    && (s.calls[c].phase.Done? ==> s'.calls[c] == s.calls[c])
    && s'.calls[c].id == s.calls[c].id && s'.calls[c].op == s.calls[c].op
    && (s'.tables != s.tables ==> CommitsOwn(s, s', c) && HasLanded(s'.calls[c].phase))
  }

  /** The tables change by the commit of what call c had pending. */
  ghost predicate CommitsOwn(s: State, s': State, c: CallId) {
    && c in s.calls && c in s.pending && c !in s'.pending
    && s'.tables == Commit(s.tables, s.pending[c], s.calls[c].op.CreateOp?)
  }

  /** The call takes up a new phase over the state x that its statement leaves. */
  lemma TakesUp(s: State, x: State, c: CallId, phase: Phase)
    requires c in s.calls && x.calls == s.calls && !s.calls[c].phase.Done?
    requires forall d :: d in x.pending && d != c ==> d in s.pending && x.pending[d] == s.pending[d]
    requires c in x.pending ==> MayLand(phase)
    requires HasLanded(s.calls[c].phase) ==> HasLanded(phase)
    requires x.tables != s.tables ==> CommitsOwn(s, x, c) && HasLanded(phase)
    ensures OwnEffect(s, SetPhase(x, c, phase), c)
  {
    hide Commit;
  }

  lemma StaysPut(s: State, c: CallId)
    requires c in s.calls && (c in s.pending ==> MayLand(s.calls[c].phase))
    ensures OwnEffect(s, s, c)
  {
  }

  lemma StageEffect(s: State, c: CallId, a: Action)
    requires c in s.calls && a.c == c && (c in s.pending ==> MayLand(s.calls[c].phase))
    requires a.Begin? || a.Lookup? || a.Precheck? || a.LockScope?
    ensures OwnEffect(s, Step(s, c, s.calls[c], a), c)
  {
    StaysPut(s, c);
    hide OwnEffect;
    var s' := Step(s, c, s.calls[c], a);
    var phase := s'.calls[c].phase;
    if phase != s.calls[c].phase {
      if a.LockScope? {
        TakesUp(s, s.(scopeLock := s'.scopeLock), c, phase);
      } else {
        TakesUp(s, s, c, phase);
      }
    }
  }

  lemma RecheckOwn(s: State, c: CallId)
    requires c in s.calls && (c in s.pending ==> MayLand(s.calls[c].phase))
    ensures OwnEffect(s, StepRecheck(s, c, s.calls[c]), c)
  {
    var call := s.calls[c];
    if !call.phase.ScopeLocked? || !call.op.CreateOp? {
      StaysPut(s, c);
    } else if call.id in s.tables.records || call.phase.current == MAX_UINT64 {
      EndEffect(s, c);
      hide EndTransaction, OwnEffect;
      TakesUp(s, EndTransaction(s, c), c, StepRecheck(s, c, call).calls[c].phase);
    } else {
      hide OwnEffect, CreatedRecord;
      TakesUp(s, s.(pending := s.pending[c := CreatedRecord(call.id, call.op, call.phase.current + 1)]), c, Staged);
    }
  }

  lemma LockRowOwn(s: State, c: CallId)
    requires c in s.calls && (c in s.pending ==> MayLand(s.calls[c].phase))
    ensures OwnEffect(s, StepLockRow(s, c, s.calls[c]), c)
  {
    StaysPut(s, c);
    hide Decide, MutatedRecord, OwnEffect;
    var call := s.calls[c];
    if call.phase == Ready && !call.op.CreateOp? && call.id !in s.rowLock {
      if call.id !in s.tables.records {
        TakesUp(s, s, c, Done(NotFound));
      } else {
        var current := s.tables.records[call.id];
        var d := Decide(current, call.op);
        if d.Some? {
          TakesUp(s, s, c, Done(d.value));
        } else {
          TakesUp(s, s.(rowLock := s.rowLock[call.id := c],
                        pending := s.pending[c := MutatedRecord(current, call.op)]), c, Staged);
        }
      }
    }
  }

  lemma CommitOwn(s: State, c: CallId)
    requires c in s.calls && (c in s.pending ==> MayLand(s.calls[c].phase))
    ensures OwnEffect(s, StepCommitAcknowledged(s, c, s.calls[c]), c)
    ensures OwnEffect(s, StepCommitLost(s, c, s.calls[c]), c)
  {
    StaysPut(s, c);
    if s.calls[c].phase == Staged && c in s.pending {
      LandEffect(s, c);
      hide Land, OwnEffect, Commit;
      TakesUp(s, Land(s, c), c, Done(Success(s.calls[c], s.pending[c])));
      TakesUp(s, s, c, Unresolved(s.pending[c]));
    }
  }

  lemma SettleOwn(s: State, c: CallId, lands: bool)
    requires c in s.calls && (c in s.pending ==> MayLand(s.calls[c].phase))
    ensures OwnEffect(s, StepSettle(s, c, s.calls[c], lands), c)
  {
    EndEffect(s, c);
    if c in s.pending {
      LandEffect(s, c);
    }
    hide EndTransaction, Land, Commit;
  }

  lemma FailOwn(s: State, c: CallId, retryable: bool, cancelled: bool)
    requires c in s.calls && (c in s.pending ==> MayLand(s.calls[c].phase))
    ensures OwnEffect(s, StepFail(s, c, s.calls[c], retryable, cancelled), c)
  {
    EndEffect(s, c);
    hide EndTransaction;
  }

  /** A reread that finds the exact post-state finds a transaction that is not in flight any more. */
  lemma ResolveOwn(s: State, c: CallId, readable: bool)
    requires c in s.calls && CallOk(s, c, s.calls[c]) && (c in s.pending ==> MayLand(s.calls[c].phase))
    ensures OwnEffect(s, StepResolve(s, c, s.calls[c], readable), c)
  {
    hide OutcomeOk, HoldsLock;
  }

  lemma StepOwn(s: State, a: Action)
    requires a.c in s.calls && CallOk(s, a.c, s.calls[a.c]) && (a.c in s.pending ==> MayLand(s.calls[a.c].phase))
    ensures OwnEffect(s, Next(s, a), a.c)
  {
    hide OwnEffect, CallOk, StepLookup, StepPrecheck, StepLockScope, StepRecheck, StepLockRow,
        StepCommitAcknowledged, StepCommitLost,
      StepFail, StepSettle, StepResolve;
    match a
    case Recheck(c) => RecheckOwn(s, c);
    case LockRow(c) => LockRowOwn(s, c);
    case CommitAcknowledged(c) => CommitOwn(s, c);
    case CommitLost(c) => CommitOwn(s, c);
    case Settle(c, lands) => SettleOwn(s, c, lands);
    case Fail(c, retryable, cancelled) => FailOwn(s, c, retryable, cancelled);
    case Resolve(c, readable) => ResolveOwn(s, c, readable);
    case _ => StageEffect(s, a.c, a);
  }

  // ---------------------------------------------------------------- runs

  lemma {:induction false} RunPends(actions: seq<Action>, n: nat)
    requires n <= |actions|
    ensures OnlyOpenCallsPend(At(actions, n))
  {
    if n > 0 {
      hide Next, CallOk, MayLand, HasLanded, AcceptanceOk, HistoryOk;
      RunPends(actions, n - 1);
      Reachable(actions, n - 1);
      var s, a := At(actions, n - 1), actions[n - 1];
      assert At(actions, n) == Next(s, a);
      hide At, CommitsOwn;
      if a.c in s.calls {
        StepOwn(s, a);
      } else {
        NewCall(s, a);
      }
    }
  }

  lemma NewCall(s: State, a: Action)
    requires a.c !in s.calls
    ensures Next(s, a).pending == s.pending && Next(s, a).tables == s.tables
    ensures forall d :: d in s.calls ==> d in Next(s, a).calls && Next(s, a).calls[d] == s.calls[d]
  {
  }

  /** One action of a run. */
  lemma OwnOfRun(actions: seq<Action>, k: nat)
    requires k < |actions| && actions[k].c in At(actions, k).calls
    ensures OwnEffect(At(actions, k), At(actions, k + 1), actions[k].c)
    ensures At(actions, k + 1) == Next(At(actions, k), actions[k])
    ensures CallOk(At(actions, k), actions[k].c, At(actions, k).calls[actions[k].c])
  {
    hide Next, CallOk, MayLand, HasLanded, AcceptanceOk, HistoryOk, OwnEffect;
    RunPends(actions, k);
    Reachable(actions, k);
    StepOwn(At(actions, k), actions[k]);
  }

  /** One action, from the view of one call. */
  lemma StepOfRun(actions: seq<Action>, k: nat, c: CallId)
    requires k < |actions| && c in At(actions, k).calls
    ensures c in At(actions, k + 1).calls
    ensures var s, s' := At(actions, k), At(actions, k + 1);
            && (HasLanded(s.calls[c].phase) ==> HasLanded(s'.calls[c].phase))
            && (s.calls[c].phase.Done? ==> s'.calls[c] == s.calls[c])
            && (actions[k].c == c && s'.tables != s.tables ==>
                  MayLand(s.calls[c].phase) && HasLanded(s'.calls[c].phase))
            && (actions[k].c == c && s'.tables != s.tables ==> CommitsOwn(s, s', c))
            && s'.calls[c].id == s.calls[c].id && s'.calls[c].op == s.calls[c].op
  {
    hide Next, Commit, CallOk, MayLand, HasLanded, AcceptanceOk, HistoryOk;
    RunPends(actions, k);
    Reachable(actions, k);
    var s, a := At(actions, k), actions[k];
    assert At(actions, k + 1) == Next(s, a);
    if a.c in s.calls {
      StepOwn(s, a);
    } else {
      NewCall(s, a);
    }
  }

  lemma {:induction false} LandedStays(actions: seq<Action>, k: nat, n: nat, c: CallId)
    requires k <= n <= |actions| && c in At(actions, k).calls
    ensures c in At(actions, n).calls
    ensures HasLanded(At(actions, k).calls[c].phase) ==> HasLanded(At(actions, n).calls[c].phase)
    ensures At(actions, k).calls[c].phase.Done? ==> At(actions, n).calls[c] == At(actions, k).calls[c]
  {
    hide At, HasLanded;
    if k < n {
      LandedStays(actions, k, n - 1, c);
      StepOfRun(actions, n - 1, c);
    }
  }

  /**
   Every outcome but success and ambiguity is definite: at no instant of any run, before or
   after the answer, does a transaction of that call change the tables.
   */
  lemma ErrorsAreDefinite(actions: seq<Action>, n: nat, k: nat, c: CallId)
    requires n <= |actions| && k < |actions| && actions[k].c == c
    requires c in At(actions, n).calls && At(actions, n).calls[c].phase.Done?
    requires var o := At(actions, n).calls[c].phase.outcome; !o.Created? && !o.Mutated? && o != Ambiguous
    ensures At(actions, k + 1).tables == At(actions, k).tables
  {
    hide At;
    if c !in At(actions, k).calls {
      UnknownCallChangesNothing(actions, k);
    } else {
      StepOfRun(actions, k, c);
      if n <= k {
        LandedStays(actions, n, k, c);
      } else {
        LandedStays(actions, k + 1, n, c);
      }
    }
  }

  lemma UnknownCallChangesNothing(actions: seq<Action>, k: nat)
    requires k < |actions| && actions[k].c !in At(actions, k).calls
    ensures At(actions, k + 1).tables == At(actions, k).tables
  {
    hide Next;
    NewCall(At(actions, k), actions[k]);
  }
}
