/**
 Create, Update and Delete of the OrderedIndex as they run: the attempts, their statements and
 the retry loops, with the other calls acting between any two statements.
 */
module OrderedStore {
  import opened Common
  import opened OrderedTypes
  import opened OrderedWrites
  import opened OrderedSafety
  import opened OrderedTheorems
  import opened OrderedOutcomes
  import opened OrderedWriters
  import opened OrderedCauses

  /** What surrounds one statement: the actions of others before it, and how it fails if it does. */
  datatype Turn = Turn(others: seq<Action>, fails: bool, retryable: bool, lost: bool, cancelled: bool)

  /** Settling a lost commit is the server's doing, not the call's. */
  predicate ActsFor(a: Action, c: CallId) { a.c == c && !a.Settle? }

  ghost predicate Foreign(turn: Turn, c: CallId) { forall a :: a in turn.others ==> !ActsFor(a, c) }

  /** How one attempt ended: with an answer, with an unknown commit, or with an error to classify. */
  datatype Attempt = Answered | OutcomeUnknown | Error(retryable: bool)

  /** Neither a record written by the call nor a failure. */
  predicate Refusal(o: Outcome) { !o.Created? && !o.Mutated? && o != Failed && o != Ambiguous }

  predicate InTransaction(phase: Phase) { phase.Ready? || phase.Prechecked? || phase.ScopeLocked? || phase.Staged? }

  lemma EndLeavesOthers(s: State, d: CallId, c: CallId)
    requires d in s.calls && d != c
    ensures EndTransaction(s, d).calls == s.calls
    ensures c in s.pending ==> c in EndTransaction(s, d).pending && EndTransaction(s, d).pending[c] == s.pending[c]
  {
  }

  lemma LandLeavesOthers(s: State, d: CallId, c: CallId)
    requires d in s.calls && d != c && d in s.pending
    ensures Land(s, d).calls == s.calls
    ensures c in s.pending ==> c in Land(s, d).pending && Land(s, d).pending[c] == s.pending[c]
  {
  }

  /** Call c and its staged write are the same in both states. */
  predicate Untouched(s: State, s': State, c: CallId) {
    c in s.calls && c in s'.calls && s'.calls[c] == s.calls[c]
    && (c in s.pending ==> c in s'.pending && s'.pending[c] == s.pending[c])
  }

  lemma CommittingLeavesOthers(s: State, d: CallId, call: Call, c: CallId, lands: bool)
    requires c in s.calls && d in s.calls && d != c
    ensures Untouched(s, StepCommitAcknowledged(s, d, call), c) && Untouched(s, StepCommitLost(s, d, call), c)
    ensures Untouched(s, StepSettle(s, d, call, lands), c)
  {
    EndLeavesOthers(s, d, c);
    if d in s.pending {
      LandLeavesOthers(s, d, c);
    }
    hide EndTransaction, Land, Success;
  }

  lemma FailingLeavesOthers(s: State, d: CallId, call: Call, c: CallId, retryable: bool, cancelled: bool)
    requires c in s.calls && d in s.calls && d != c
    ensures Untouched(s, StepFail(s, d, call, retryable, cancelled), c)
  {
    EndLeavesOthers(s, d, c);
    hide EndTransaction;
  }

  lemma EndingLeavesOthers(s: State, d: CallId, a: Action, c: CallId)
    requires c in s.calls && d in s.calls && d != c && a.c == d
    requires a.CommitAcknowledged? || a.CommitLost? || a.Fail? || a.Settle? || a.Resolve?
    ensures Untouched(s, Step(s, d, s.calls[d], a), c)
  {
    hide StepCommitAcknowledged, StepCommitLost, StepSettle, StepFail, Success;
    CommittingLeavesOthers(s, d, s.calls[d], c, a.Settle? && a.lands);
    FailingLeavesOthers(s, d, s.calls[d], c, a.Fail? && a.retryable, a.Fail? && a.cancelled);
  }

  lemma RecheckLeavesOthers(s: State, d: CallId, call: Call, c: CallId)
    requires c in s.calls && d in s.calls && d != c
    ensures Untouched(s, StepRecheck(s, d, call), c)
  {
    EndLeavesOthers(s, d, c);
    hide EndTransaction, CreatedRecord;
  }

  lemma LockRowLeavesOthers(s: State, d: CallId, call: Call, c: CallId)
    requires c in s.calls && d in s.calls && d != c
    ensures Untouched(s, StepLockRow(s, d, call), c)
  {
    hide Decide, MutatedRecord;
  }

  lemma ReadingLeavesOthers(s: State, d: CallId, call: Call, c: CallId)
    requires c in s.calls && d in s.calls && d != c
    ensures Untouched(s, StepLookup(s, d, call), c) && Untouched(s, StepPrecheck(s, d, call), c)
    ensures Untouched(s, StepLockScope(s, d, call), c)
  {
  }

  lemma WorkingLeavesOthers(s: State, d: CallId, a: Action, c: CallId)
    requires c in s.calls && d in s.calls && d != c && a.c == d
    requires a.Begin? || a.Lookup? || a.Precheck? || a.LockScope? || a.Recheck? || a.LockRow?
    ensures Untouched(s, Step(s, d, s.calls[d], a), c)
  {
    hide StepRecheck, StepLockRow, StepLookup, StepPrecheck, StepLockScope;
    RecheckLeavesOthers(s, d, s.calls[d], c);
    LockRowLeavesOthers(s, d, s.calls[d], c);
    ReadingLeavesOthers(s, d, s.calls[d], c);
  }

  /** The others leave the call where it is, and its staged write too. */
  lemma OthersLeaveCall(s: State, a: Action, c: CallId)
    requires c in s.calls && !ActsFor(a, c)
    ensures c in Next(s, a).calls && Next(s, a).calls[c] == s.calls[c]
    ensures s.calls[c].phase == Staged && c in s.pending ==>
              c in Next(s, a).pending && Next(s, a).pending[c] == s.pending[c]
  {
    if a.c != c && a.c in s.calls {
      hide Step;
      if a.CommitAcknowledged? || a.CommitLost? || a.Fail? || a.Settle? || a.Resolve? {
        EndingLeavesOthers(s, a.c, a, c);
      } else {
        WorkingLeavesOthers(s, a.c, a, c);
      }
    }
  }

  // ---------------------------------------------------------------- how a call is surrounded

  /** Nobody else acts before the statement, and it is answered. */
  predicate Quiet(turn: Turn) { turn.others == [] && !turn.fails && !turn.lost }

  predicate FailsAs(turn: Turn, retryable: bool) { turn.fails && turn.retryable == retryable }

  ghost predicate LeftAlone(turns: nat -> Turn) { forall i :: Quiet(turns(i)) }

  /** The row that the request needs is locked: the counter of the scope, or the record. */
  predicate IsLocked(s: State, id: OrderedID, op: Op) {
    if op.CreateOp? then ScopeOf(id) in s.scopeLock else id in s.rowLock
  }

  /** It was so at an instant of the run from `from` on. */
  ghost predicate WasLocked(trace: seq<Action>, from: nat, id: OrderedID, op: Op) {
    exists n :: from <= n <= |trace| && IsLocked(At(trace, n), id, op)
  }

  lemma LockedStays(trace: seq<Action>, longer: seq<Action>, from: nat, earlier: nat, id: OrderedID, op: Op)
    requires trace <= longer && WasLocked(trace, from, id, op) && earlier <= from
    ensures WasLocked(longer, earlier, id, op)
  {
    var n :| from <= n <= |trace| && IsLocked(At(trace, n), id, op);
    PrefixDecides(trace, longer, n);
  }

  lemma LockedNow(trace: seq<Action>, from: nat, id: OrderedID, op: Op)
    requires from <= |trace| && IsLocked(At(trace, |trace|), id, op)
    ensures WasLocked(trace, from, id, op)
  {
  }

  /** A failure has its cause, and a retryable one is answered only after the last attempt. */
  ghost predicate Explained(o: Outcome, turns: nat -> Turn, trace: seq<Action>, from: nat, call: Call) {
    match o
    case Failed =>
      || (call.attempt + 1 == ATTEMPTS && exists i :: FailsAs(turns(i), true))
      || (exists i :: FailsAs(turns(i), false))
      || (exists i :: turns(i).cancelled)
      || WasLocked(trace, from, call.id, call.op)
    case Ambiguous => exists i :: turns(i).fails || turns(i).lost
    case _ => true
  }

  // ---------------------------------------------------------------- what the own steps do

  /** The locking read of Update and Delete, in an idle row. */
  lemma LockRowAlone(s: State, c: CallId)
    requires c in s.calls && !s.calls[c].op.CreateOp? && s.calls[c].phase == Ready && s.calls[c].id !in s.rowLock
    ensures var s', call := Next(s, LockRow(c)), s.calls[c];
            && s'.tables == s.tables && c in s'.calls
            && if Writable(s.tables, call.id, call.op) then
                 && s'.calls[c].phase == Staged && c in s'.pending
                 && s'.pending[c] == Mutation(s.tables.records[call.id], call.op)
               else
                 s'.calls[c].phase.Done?
                 && MutatesAlone(s.tables, s.tables, call.id, call.op, s'.calls[c].phase.outcome)
  {
  }

  /** The write is accepted: the live record stands at the expected revision, below the ceiling. */
  predicate Writable(t: Tables, id: OrderedID, op: Op)
    requires !op.CreateOp?
  {
    IsLive(t, id) && ValidRequest(op) && t.records[id].revision == op.expected && op.expected != MAX_UINT64
  }

  predicate Creatable(t: Tables, id: OrderedID) { id !in t.records && NextOrder(t, ScopeOf(id)) < MAX_UINT64 }

  /** What Create writes: the next order of the scope. */
  function Creation(t: Tables, id: OrderedID, op: Op): OrderedRecord
    requires op.CreateOp?
  {
    OrderedRecord(id, op.rankingScope, 1, NextOrder(t, ScopeOf(id)) + 1, op.value, op.rank, op.due, false)
  }

  lemma PrecheckAlone(s: State, c: CallId)
    requires c in s.calls && s.calls[c].op.CreateOp? && s.calls[c].phase == Ready
    ensures var s', call := Next(s, Precheck(c)), s.calls[c];
            && s'.tables == s.tables && s'.scopeLock == s.scopeLock && c in s'.calls
            && s'.calls[c].phase ==
               if call.id in s.tables.records then Done(Existing(s.tables.records[call.id])) else Prechecked
  {
  }

  lemma LockScopeAlone(s: State, c: CallId)
    requires c in s.calls && s.calls[c].phase == Prechecked && ScopeOf(s.calls[c].id) !in s.scopeLock
    ensures var s' := Next(s, LockScope(c));
            && s'.tables == s.tables && c in s'.calls
            && s'.calls[c].phase == ScopeLocked(NextOrder(s.tables, ScopeOf(s.calls[c].id)))
  {
  }

  lemma RecheckAlone(s: State, c: CallId)
    requires c in s.calls && s.calls[c].op.CreateOp?
    requires s.calls[c].phase == ScopeLocked(NextOrder(s.tables, ScopeOf(s.calls[c].id))) && Fits(s)
    ensures var s', call := Next(s, Recheck(c)), s.calls[c];
            && s'.tables == s.tables && c in s'.calls
            && if Creatable(s.tables, call.id) then
                 s'.calls[c].phase == Staged && c in s'.pending && s'.pending[c] == Creation(s.tables, call.id, call.op)
               else s'.calls[c].phase ==
                    Done(if call.id in s.tables.records then Existing(s.tables.records[call.id]) else Exhausted)
  {
    EndEffect(s, c);
    hide EndTransaction;
  }

  lemma CommitAlone(s: State, c: CallId)
    requires c in s.calls && s.calls[c].phase == Staged && c in s.pending
    ensures var s', r := Next(s, CommitAcknowledged(c)), s.pending[c];
            && s'.tables.records == s.tables.records[r.id := r]
            && s'.tables.scopes ==
               if s.calls[c].op.CreateOp? then s.tables.scopes[ScopeOf(r.id) := r.order] else s.tables.scopes
  {
    LandEffect(s, c);
    hide Land;
  }


  lemma LookupEffect(s: State, c: CallId)
    requires c in s.calls && s.calls[c].phase == Looking && s.calls[c].op.CreateOp?
    ensures var s', call := Next(s, Lookup(c)), s.calls[c];
            && c in s'.calls && s'.calls[c] == call.(phase := s'.calls[c].phase)
            && (s'.calls[c].phase == Ready || (s'.calls[c].phase.Done? && Refusal(s'.calls[c].phase.outcome)))
  {
  }

  lemma LookupAlone(s: State, c: CallId)
    requires c in s.calls && s.calls[c].phase == Looking && s.calls[c].op.CreateOp?
    ensures var s', call := Next(s, Lookup(c)), s.calls[c];
            && s'.tables == s.tables && s'.scopeLock == s.scopeLock && s'.rowLock == s.rowLock && c in s'.calls
            && s'.calls[c].phase ==
               if call.id in s.tables.records then Done(Existing(s.tables.records[call.id]))
               else if !ValidRequest(call.op) then Done(Invalid)
               else Ready
  {
  }

  lemma CreateEffects(s: State, c: CallId)
    requires c in s.calls && s.calls[c].op.CreateOp?
    ensures s.calls[c].phase == Ready ==>
              var s' := Next(s, Precheck(c));
              && c in s'.calls && s'.calls[c] == s.calls[c].(phase := s'.calls[c].phase)
              && (s'.calls[c].phase == Prechecked || (s'.calls[c].phase.Done? && Refusal(s'.calls[c].phase.outcome)))
    ensures s.calls[c].phase == Prechecked && ScopeOf(s.calls[c].id) !in s.scopeLock ==>
              var s' := Next(s, LockScope(c));
              && c in s'.calls && s'.calls[c] == s.calls[c].(phase := s'.calls[c].phase)
              && s'.calls[c].phase.ScopeLocked?
  {
  }

  lemma RecheckEffect(s: State, c: CallId)
    requires c in s.calls && s.calls[c].op.CreateOp? && s.calls[c].phase.ScopeLocked?
    ensures var s', call := Next(s, Recheck(c)), s.calls[c];
            && c in s'.calls && s'.calls[c] == call.(phase := s'.calls[c].phase)
            && (s'.calls[c].phase == Staged || (s'.calls[c].phase.Done? && Refusal(s'.calls[c].phase.outcome)))
            && (s'.calls[c].phase == Staged ==>
                  c in s'.pending && s'.pending[c] == CreatedRecord(call.id, call.op, call.phase.current + 1))
  {
  }

  lemma LockRowEffect(s: State, c: CallId)
    requires c in s.calls && !s.calls[c].op.CreateOp? && s.calls[c].phase == Ready && s.calls[c].id !in s.rowLock
    ensures var s', call := Next(s, LockRow(c)), s.calls[c];
            && c in s'.calls && s'.calls[c] == call.(phase := s'.calls[c].phase)
            && (s'.calls[c].phase == Staged || s'.calls[c].phase.Done?)
            && (s'.calls[c].phase == Staged ==>
                  && call.id in s.tables.records && Decide(s.tables.records[call.id], call.op).None?
                  && c in s'.pending && s'.pending[c] == MutatedRecord(s.tables.records[call.id], call.op))
            && (s'.calls[c].phase.Done? ==> AnsweredAtOnce(s'.calls[c]))
  {
  }

  lemma CommitEffects(s: State, c: CallId)
    requires c in s.calls && s.calls[c].phase == Staged && c in s.pending
    ensures var s' := Next(s, CommitLost(c));
            c in s'.calls && s'.calls[c] == s.calls[c].(phase := Unresolved(s.pending[c]))
    ensures var s' := Next(s, CommitAcknowledged(c));
            c in s'.calls && s'.calls[c] == s.calls[c].(phase := Done(Success(s.calls[c], s.pending[c])))
  {
    hide Commit;
  }

  lemma FailEffect(s: State, c: CallId, retryable: bool, cancelled: bool)
    requires c in s.calls && InTransaction(s.calls[c].phase) && (s.calls[c].phase == Staged ==> retryable)
    ensures var s', call := Next(s, Fail(c, retryable, cancelled)), s.calls[c];
            && c in s'.calls
            && s'.calls[c] == if retryable && !cancelled && call.attempt + 1 < ATTEMPTS
                              then call.(attempt := call.attempt + 1, phase := Ready) else call.(phase := Done(Failed))
  {
  }

  lemma ResolveEffect(s: State, c: CallId, readable: bool)
    requires c in s.calls && s.calls[c].phase.Unresolved?
    ensures var s', call := Next(s, Resolve(c, readable)), s.calls[c];
            && c in s'.calls && s'.tables == s.tables
            && s'.calls[c] ==
                call.(phase := Done(if readable && call.id in s.tables.records
                                    && s.tables.records[call.id] == call.phase.want
                                                  then Success(call, call.phase.want) else Ambiguous))
  {
  }

  class Store {
    var state: State
    ghost var trace: seq<Action>

    /** The tables are what a run of the machine produced. */
    ghost predicate Valid()
      reads this
    {
      state == At(trace, |trace|)
    }

    constructor ()
      ensures Valid() && trace == []
    {
      state := Init();
      trace := [];
    }

    method Perform(a: Action)
      requires Valid()
      modifies this
      ensures Valid() && trace == old(trace) + [a] && state == Next(old(state), a)
    {
      hide Next;
      state := Next(state, a);
      trace := trace + [a];
      PrefixDecides(old(trace), trace, |old(trace)|);
    }

    method LetOthers(others: seq<Action>, c: CallId)
      requires Valid() && c in state.calls && forall a :: a in others ==> !ActsFor(a, c)
      modifies this
      ensures Valid() && trace == old(trace) + others
      ensures c in state.calls && state.calls[c] == old(state).calls[c]
      ensures state.calls[c].phase == Staged && c in old(state).pending ==>
                c in state.pending && state.pending[c] == old(state).pending[c]
      ensures others == [] ==> state == old(state)
    {
      hide Next, At;
      var i := 0;
      while i < |others|
        invariant i <= |others|
        invariant Valid() && trace == old(trace) + others[..i]
        invariant c in state.calls && state.calls[c] == old(state).calls[c]
        invariant state.calls[c].phase == Staged && c in old(state).pending ==>
                    c in state.pending && state.pending[c] == old(state).pending[c]
        invariant i == 0 ==> state == old(state)
      {
        OthersLeaveCall(state, others[i], c);
        Perform(others[i]);
        i := i + 1;
      }
    }

    /** createOnce up to its commit: the check, the counter row, and the check again. */
    method StageCreate(c: CallId, check: Turn, lock: Turn, recheck: Turn) returns (r: Option<Attempt>)
      requires Valid() && c in state.calls && state.calls[c].phase == Ready && state.calls[c].op.CreateOp?
      requires Foreign(check, c) && Foreign(lock, c) && Foreign(recheck, c)
      modifies this
      ensures Valid() && old(trace) <= trace && c in state.calls
      ensures state.calls[c] == old(state).calls[c].(phase := state.calls[c].phase)
      ensures match r
              case None =>
                state.calls[c].phase == Staged && c in state.pending && Wrote(state.calls[c], state.pending[c])
              case Some(Answered) => state.calls[c].phase.Done? && Refusal(state.calls[c].phase.outcome)
              case Some(Error(_)) => InTransaction(state.calls[c].phase) && state.calls[c].phase != Staged
              case Some(OutcomeUnknown) => false
      ensures r.Some? && r.value.Error? ==>
                var retryable, call := r.value.retryable, state.calls[c];
                || FailsAs(check, retryable) || FailsAs(lock, retryable) || FailsAs(recheck, retryable)
                || (!retryable && WasLocked(trace, |old(trace)|, call.id, call.op))
      ensures var t, call := old(state).tables, old(state).calls[c];
              Quiet(check) && Quiet(lock) && Quiet(recheck) && !IsLocked(old(state), call.id, call.op) ==>
                && state.tables == t
                && (r == None <==> Creatable(t, call.id))
                && (r == None ==> state.pending[c] == Creation(t, call.id, call.op))
                && (r != None ==> r == Some(Answered) && state.calls[c].phase.outcome ==
                                  if call.id in t.records then Existing(t.records[call.id]) else Exhausted)
    {
      hide Next, At, WasLocked, Wrote, CreatedRecord;
      LetOthers(check.others, c);
      if check.fails {
        return Some(Error(check.retryable));
      }
      CreateEffects(state, c);
      PrecheckAlone(state, c);
      Perform(Precheck(c));
      if state.calls[c].phase.Done? {
        return Some(Answered);
      }
      r := LockAndRecheck(c, lock, recheck);
      if r.Some? && r.value.Error? && !r.value.retryable {
        ghost var call := state.calls[c];
        if WasLocked(trace, |old(trace)| + |check.others| + 1, call.id, call.op) {
          LockedStays(trace, trace, |old(trace)| + |check.others| + 1, |old(trace)|, call.id, call.op);
        }
      }
    }

    method LockAndRecheck(c: CallId, lock: Turn, recheck: Turn) returns (r: Option<Attempt>)
      requires Valid() && c in state.calls && state.calls[c].phase == Prechecked && state.calls[c].op.CreateOp?
      requires Foreign(lock, c) && Foreign(recheck, c)
      modifies this
      ensures Valid() && old(trace) <= trace && c in state.calls
      ensures state.calls[c] == old(state).calls[c].(phase := state.calls[c].phase)
      ensures match r
              case None =>
                state.calls[c].phase == Staged && c in state.pending && Wrote(state.calls[c], state.pending[c])
              case Some(Answered) => state.calls[c].phase.Done? && Refusal(state.calls[c].phase.outcome)
              case Some(Error(retryable)) =>
                && InTransaction(state.calls[c].phase) && state.calls[c].phase != Staged
                && (FailsAs(lock, retryable) || FailsAs(recheck, retryable)
                    || (!retryable && WasLocked(trace, |old(trace)|, state.calls[c].id, state.calls[c].op)))
              case Some(OutcomeUnknown) => false
      ensures var t, call := old(state).tables, old(state).calls[c];
              Quiet(lock) && Quiet(recheck) && !IsLocked(old(state), call.id, call.op) ==>
                && state.tables == t
                && (r == None <==> Creatable(t, call.id))
                && (r == None ==> state.pending[c] == Creation(t, call.id, call.op))
                && (r != None ==> r == Some(Answered) && state.calls[c].phase.outcome ==
                                  if call.id in t.records then Existing(t.records[call.id]) else Exhausted)
    {
      hide Next, At, WasLocked;
      LetOthers(lock.others, c);
      if lock.fails {
        return Some(Error(lock.retryable));
      }
      if ScopeOf(state.calls[c].id) in state.scopeLock {
        LockedNow(trace, |old(trace)|, state.calls[c].id, state.calls[c].op);
        return Some(Error(false));
      }
      CreateEffects(state, c);
      LockScopeAlone(state, c);
      Perform(LockScope(c));
      LetOthers(recheck.others, c);
      if recheck.fails {
        return Some(Error(recheck.retryable));
      }
      RecheckEffect(state, c);
      CountersFit(trace, |trace|);
      StillAtTheCounter(trace, c);
      RecheckAlone(state, c);
      Perform(Recheck(c));
      return if state.calls[c].phase.Done? then Some(Answered) else None;
    }

    /** updateOnce and deleteOnce up to their commit. */
    method StageMutation(c: CallId, lock: Turn) returns (r: Option<Attempt>)
      requires Valid() && c in state.calls && state.calls[c].phase == Ready && !state.calls[c].op.CreateOp?
      requires Foreign(lock, c)
      modifies this
      ensures Valid() && old(trace) <= trace && c in state.calls
      ensures state.calls[c] == old(state).calls[c].(phase := state.calls[c].phase)
      ensures match r
              case None =>
                state.calls[c].phase == Staged && c in state.pending && Wrote(state.calls[c], state.pending[c])
              case Some(Answered) => AnsweredAtOnce(state.calls[c])
              case Some(Error(retryable)) =>
                && InTransaction(state.calls[c].phase) && state.calls[c].phase != Staged
                && (FailsAs(lock, retryable)
                    || (!retryable && WasLocked(trace, |old(trace)|, state.calls[c].id, state.calls[c].op)))
              case Some(OutcomeUnknown) => false
      ensures var t, call := old(state).tables, old(state).calls[c];
              Quiet(lock) && !IsLocked(old(state), call.id, call.op) ==>
                && state.tables == t
                && (r == None <==> Writable(t, call.id, call.op))
                && (r == None ==> state.pending[c] == Mutation(t.records[call.id], call.op))
                && (r != None ==>
                      r == Some(Answered) && MutatesAlone(t, t, call.id, call.op, state.calls[c].phase.outcome))
    {
      hide Next, At, MutatedRecord, Decide, WasLocked, MutatesAlone;
      LetOthers(lock.others, c);
      if lock.fails {
        return Some(Error(lock.retryable));
      }
      if state.calls[c].id in state.rowLock {
        LockedNow(trace, |old(trace)|, state.calls[c].id, state.calls[c].op);
        return Some(Error(false));
      }
      LockRowEffect(state, c);
      LockRowAlone(state, c);
      ghost var before := state;
      Perform(LockRow(c));
      if state.calls[c].phase.Done? {
        return Some(Answered);
      }
      MutationWrites(before.tables.records[before.calls[c].id], before.calls[c]);
      return None;
    }

    /** The end of an attempt: the commit, whose failure is retryable or leaves the outcome unknown. */
    method CommitOnce(c: CallId, commit: Turn) returns (r: Attempt)
      requires Valid() && c in state.calls && state.calls[c].phase == Staged && c in state.pending
      requires Wrote(state.calls[c], state.pending[c]) && Foreign(commit, c)
      modifies this
      ensures Valid() && old(trace) <= trace && c in state.calls
      ensures state.calls[c] == old(state).calls[c].(phase := state.calls[c].phase)
      ensures match r
              case Answered => Returned(state.calls[c]) && !Refusal(state.calls[c].phase.outcome)
                               && state.calls[c].phase.outcome != Failed && state.calls[c].phase.outcome != Ambiguous
              case OutcomeUnknown =>
                && state.calls[c].phase.Unresolved? && Wrote(state.calls[c], state.calls[c].phase.want)
                && (commit.fails || commit.lost)
              case Error(retryable) => retryable && InTransaction(state.calls[c].phase) && FailsAs(commit, true)
      ensures Quiet(commit) ==> r == Answered && CommitsPending(old(state), state, c)
    {
      hide Next, At, CreatedRecord;
      LetOthers(commit.others, c);
      if commit.fails && commit.retryable {
        return Error(true);
      }
      CommitEffects(state, c);
      CommitAlone(state, c);
      if commit.fails || commit.lost {
        Perform(CommitLost(c));
        return OutcomeUnknown;
      }
      Perform(CommitAcknowledged(c));
      return Answered;
    }

    /** resolveCreate and resolveMutation: success only for the exact post-state. */
    method ResolveOutcome(c: CallId, read: Turn)
      requires Valid() && c in state.calls && state.calls[c].phase.Unresolved?
      requires Wrote(state.calls[c], state.calls[c].phase.want)
      requires Foreign(read, c)
      modifies this
      ensures Valid() && old(trace) <= trace && c in state.calls
      ensures state.calls[c] == old(state).calls[c].(phase := state.calls[c].phase) && Returned(state.calls[c])
      ensures var call, want := state.calls[c], old(state).calls[c].phase.want;
              call.phase.outcome ==
              if !read.fails && call.id in state.tables.records && state.tables.records[call.id] == want then
                if call.op.CreateOp? then Created(want) else Mutated(want)
              else Ambiguous
    {
      hide Next, At, CreatedRecord;
      LetOthers(read.others, c);
      ResolveEffect(state, c, !read.fails);
      Perform(Resolve(c, !read.fails));
    }

    /** One attempt, with its commit. */
    method AttemptOnce(c: CallId, check: Turn, lock: Turn, recheck: Turn, commit: Turn) returns (r: Attempt)
      requires Valid() && c in state.calls && state.calls[c].phase == Ready
      requires Foreign(check, c) && Foreign(lock, c) && Foreign(recheck, c) && Foreign(commit, c)
      modifies this
      ensures Valid() && old(trace) <= trace && c in state.calls
      ensures state.calls[c] == old(state).calls[c].(phase := state.calls[c].phase)
      ensures match r
              case Answered => Returned(state.calls[c])
              case OutcomeUnknown =>
                && state.calls[c].phase.Unresolved? && Wrote(state.calls[c], state.calls[c].phase.want)
                && (commit.fails || commit.lost)
              case Error(retryable) =>
                && InTransaction(state.calls[c].phase) && (state.calls[c].phase == Staged ==> retryable)
                && (|| FailsAs(check, retryable) || FailsAs(lock, retryable) || FailsAs(recheck, retryable)
                    || FailsAs(commit, retryable)
                    || (!retryable && WasLocked(trace, |old(trace)|, state.calls[c].id, state.calls[c].op)))
      ensures r == Answered ==> state.calls[c].phase.outcome != Failed && state.calls[c].phase.outcome != Ambiguous
      ensures var call := old(state).calls[c];
              Quiet(check) && Quiet(lock) && Quiet(recheck) && Quiet(commit)
              && !IsLocked(old(state), call.id, call.op) ==>
                && r == Answered
                && Decided(old(state).tables, state.tables, call.id, call.op, state.calls[c].phase.outcome)
    {
      hide Next, At, Wrote, WasLocked, Decided, IsStagedAlone, IsLocked;
      var stopped := Stage(c, check, lock, recheck);
      if stopped.Some? {
        return stopped.value;
      }
      ghost var staged := state;
      r := CommitOnce(c, commit);
      if IsStagedAlone(staged, c) && CommitsPending(staged, state, c) {
        AloneCommitted(staged, state, c);
      }
    }

    /** One attempt up to its commit. */
    method Stage(c: CallId, check: Turn, lock: Turn, recheck: Turn) returns (r: Option<Attempt>)
      requires Valid() && c in state.calls && state.calls[c].phase == Ready
      requires Foreign(check, c) && Foreign(lock, c) && Foreign(recheck, c)
      modifies this
      ensures Valid() && old(trace) <= trace && c in state.calls
      ensures state.calls[c] == old(state).calls[c].(phase := state.calls[c].phase)
      ensures match r
              case None =>
                state.calls[c].phase == Staged && c in state.pending && Wrote(state.calls[c], state.pending[c])
              case Some(Answered) => AnsweredAtOnce(state.calls[c])
              case Some(Error(retryable)) =>
                && InTransaction(state.calls[c].phase) && state.calls[c].phase != Staged
                && (|| FailsAs(check, retryable) || FailsAs(lock, retryable) || FailsAs(recheck, retryable)
                    || (!retryable && WasLocked(trace, |old(trace)|, state.calls[c].id, state.calls[c].op)))
              case Some(OutcomeUnknown) => false
      ensures var call := old(state).calls[c];
              Quiet(check) && Quiet(lock) && Quiet(recheck) && !IsLocked(old(state), call.id, call.op) ==>
                && state.tables == old(state).tables
                && if r == None then IsStagedAlone(state, c)
                   else
                     && r == Some(Answered)
                     && Decided(state.tables, state.tables, call.id, call.op, state.calls[c].phase.outcome)
    {
      hide Next, At, Wrote, WasLocked, MutatesAlone, CreatesAlone;
      CountersFit(trace, |trace|);
      ghost var call := state.calls[c];
      ghost var alone := Quiet(check) && Quiet(lock) && Quiet(recheck) && !IsLocked(state, call.id, call.op);
      if call.id in state.tables.records {
        StoredRecordsAreVersions(trace, |trace|, |trace|, call.id);
      }
      if state.calls[c].op.CreateOp? {
        r := StageCreate(c, check, lock, recheck);
      } else {
        r := StageMutation(c, check);
      }
      if r == Some(Answered) && alone {
        AloneRefused(old(state).tables, state.tables, state.calls[c]);
      }
    }

    /** The loop that Create, Update and Delete share in shape: four attempts at most. */
    method Attempts(c: CallId, turns: nat -> Turn) returns (outcome: Outcome)
      requires Valid() && c in state.calls && state.calls[c].phase == Ready && state.calls[c].attempt == 0
      requires forall i :: Foreign(turns(i), c)
      modifies this
      ensures Valid() && old(trace) <= trace && c in state.calls
      ensures state.calls[c] == old(state).calls[c].(phase := Done(outcome), attempt := state.calls[c].attempt)
      ensures Returned(state.calls[c]) && state.calls[c].attempt < ATTEMPTS
      ensures Explained(outcome, turns, trace, |old(trace)|, state.calls[c])
      ensures var call := old(state).calls[c];
              LeftAlone(turns) && !IsLocked(old(state), call.id, call.op) ==>
                Decided(old(state).tables, state.tables, call.id, call.op, outcome)
    {
      hide Next, At, Wrote, WasLocked, Decided, IsLocked;
      var call := state.calls[c];
      var attempt := 0;
      while attempt < ATTEMPTS
        invariant attempt < ATTEMPTS
        invariant Valid() && old(trace) <= trace
        invariant c in state.calls && state.calls[c] == call.(attempt := attempt)
        invariant attempt == 0 ==> state == old(state)
        invariant attempt > 0 ==> exists i :: FailsAs(turns(i), true)
        decreases ATTEMPTS - attempt
      {
        ghost var before := trace;
        var last := turns(5 * attempt + 4);
        var error := AttemptOnce(c, turns(5 * attempt), turns(5 * attempt + 1), turns(5 * attempt + 2),
                                 turns(5 * attempt + 3));
        if error == Answered {
          return state.calls[c].phase.outcome;
        }
        if error == OutcomeUnknown {
          ResolveOutcome(c, last);
          return state.calls[c].phase.outcome;
        }
        if WasLocked(trace, |before|, call.id, call.op) {
          LockedStays(trace, trace + [Fail(c, error.retryable, last.cancelled)],
                      |before|, |old(trace)|, call.id, call.op);
        }
        FailEffect(state, c, error.retryable, last.cancelled);
        Perform(Fail(c, error.retryable, last.cancelled));
        if error.retryable && !last.cancelled && attempt + 1 < ATTEMPTS {
          attempt := attempt + 1;
          continue;
        }
        return Failed;
      }
      assert false;
    }

    /** Create: the lookup before any transaction, the validation, and then the attempts. */
    method Create(c: CallId, id: OrderedID, op: Op, lookup: Turn, turns: nat -> Turn) returns (outcome: Outcome)
      requires Valid() && c !in state.calls && op.CreateOp?
      requires Foreign(lookup, c) && forall i :: Foreign(turns(i), c)
      modifies this
      ensures Valid() && old(trace) <= trace
      ensures Finished(state, c, id, op, outcome)
      ensures outcome.Created? || outcome.Existing? ==> IsVersion(state.tables, outcome.record)
      ensures lookup.fails || Explained(outcome, turns, trace, |old(trace)|, state.calls[c])
      ensures Quiet(lookup) && LeftAlone(turns) && !IsLocked(old(state), id, op) ==>
                CreatesAlone(old(state).tables, state.tables, id, op, outcome)
    {
      hide Next, At, Wrote, IsVersion, WasLocked;
      Begins(state, c, id, op);
      Perform(Begin(c, id, op));
      LetOthers(lookup.others, c);
      if lookup.fails {
        LookupFails(state, c);
        Perform(Fail(c, lookup.retryable, lookup.cancelled));
        return Failed;
      }
      LookupEffect(state, c);
      LookupAlone(state, c);
      CountersFit(trace, |trace|);
      Perform(Lookup(c));
      if state.calls[c].phase.Done? {
        outcome := state.calls[c].phase.outcome;
      } else {
        ghost var entered := trace;
        outcome := Attempts(c, turns);
        if WasLocked(trace, |entered|, id, op) {
          LockedStays(trace, trace, |entered|, |old(trace)|, id, op);
        }
      }
      if outcome.Created? || outcome.Existing? {
        OutcomesAreVersions(trace, |trace|, |trace|, c);
      }
    }

    /** Update and Delete. */
    method Mutate(c: CallId, id: OrderedID, op: Op, turns: nat -> Turn) returns (outcome: Outcome)
      requires Valid() && c !in state.calls && !op.CreateOp?
      requires forall i :: Foreign(turns(i), c)
      modifies this
      ensures Valid() && old(trace) <= trace
      ensures Finished(state, c, id, op, outcome)
      ensures outcome.Mutated? ==> IsVersion(state.tables, outcome.record)
      ensures Explained(outcome, turns, trace, |old(trace)|, state.calls[c])
      ensures LeftAlone(turns) && !IsLocked(old(state), id, op) ==>
                MutatesAlone(old(state).tables, state.tables, id, op, outcome)
    {
      hide Next, At, Wrote, IsVersion, WasLocked;
      Begins(state, c, id, op);
      Perform(Begin(c, id, op));
      ghost var entered := trace;
      outcome := Attempts(c, turns);
      if WasLocked(trace, |entered|, id, op) {
        LockedStays(trace, trace, |entered|, |old(trace)|, id, op);
      }
      if outcome.Mutated? {
        OutcomesAreVersions(trace, |trace|, |trace|, c);
      }
    }
  }

  /** The record in hand is stored, and with a create the counter of its scope goes to its order. */
  ghost predicate CommitsPending(s: State, s': State, c: CallId) {
    && c in s.calls && c in s.pending && c in s'.calls
    && s'.calls[c].phase ==
       Done(if s.calls[c].op.CreateOp? then Created(s.pending[c]) else Mutated(s.pending[c]))
    && var r := s.pending[c];
       && s'.tables.records == s.tables.records[r.id := r]
       && s'.tables.scopes ==
          if s.calls[c].op.CreateOp? then s.tables.scopes[ScopeOf(r.id) := r.order] else s.tables.scopes
  }

  /** What an attempt decides alone; a create has been validated before. */
  ghost predicate Decided(t: Tables, t': Tables, id: OrderedID, op: Op, o: Outcome) {
    if op.CreateOp? then ValidRequest(op) ==> CreatesAlone(t, t', id, op, o) else MutatesAlone(t, t', id, op, o)
  }

  lemma AloneRefused(t: Tables, t': Tables, call: Call)
    requires call.phase.Done? && t' == t
    requires if call.op.CreateOp? then
               && !Creatable(t, call.id) && NextOrder(t, ScopeOf(call.id)) <= MAX_UINT64
               && call.phase.outcome == if call.id in t.records then Existing(t.records[call.id]) else Exhausted
             else MutatesAlone(t, t, call.id, call.op, call.phase.outcome)
    ensures Decided(t, t', call.id, call.op, call.phase.outcome)
  {
  }

  /** What is about to be committed is what the stored record and the request ask for. */
  ghost predicate IsStagedAlone(s: State, c: CallId) {
    && c in s.calls && c in s.pending
    && var call := s.calls[c];
       if call.op.CreateOp? then
         Creatable(s.tables, call.id) && s.pending[c] == Creation(s.tables, call.id, call.op)
       else
         Writable(s.tables, call.id, call.op) && s.pending[c] == Mutation(s.tables.records[call.id], call.op)
         && s.tables.records[call.id].id == call.id
  }

  lemma AloneCommitted(s: State, s': State, c: CallId)
    requires CommitsPending(s, s', c) && IsStagedAlone(s, c)
    ensures Decided(s.tables, s'.tables, s.calls[c].id, s.calls[c].op, s'.calls[c].phase.outcome)
  {
  }

  /** A call that holds the counter row still knows its value. */
  lemma StillAtTheCounter(trace: seq<Action>, c: CallId)
    requires var s := At(trace, |trace|); c in s.calls && s.calls[c].phase.ScopeLocked?
    ensures var s := At(trace, |trace|); s.calls[c].phase == ScopeLocked(NextOrder(s.tables, ScopeOf(s.calls[c].id)))
  {
    hide At, OutcomeOk, WantOk, HoldsLock, AcceptanceOk, HistoryOk;
    Reachable(trace, |trace|);
    assert CallOk(At(trace, |trace|), c, At(trace, |trace|).calls[c]);
  }

  lemma Begins(s: State, c: CallId, id: OrderedID, op: Op)
    requires c !in s.calls
    ensures var s' := Next(s, Begin(c, id, op));
            && c in s'.calls && s'.calls[c] == Call(id, op, 0, if op.CreateOp? then Looking else Ready)
            && s'.tables == s.tables && s'.scopeLock == s.scopeLock && s'.rowLock == s.rowLock
  {
  }

  lemma LookupFails(s: State, c: CallId)
    requires c in s.calls && s.calls[c].phase == Looking
    ensures forall retryable, cancelled ::
              var s' := Next(s, Fail(c, retryable, cancelled));
              c in s'.calls && s'.calls[c] == s.calls[c].(phase := Done(Failed))
  {
  }

  /** An answer given before anything was written; a Delete that finds a tombstone returns it. */
  ghost predicate AnsweredAtOnce(call: Call) {
    && call.phase.Done?
    && (Refusal(call.phase.outcome)
        || (call.op.DeleteOp? && call.phase.outcome.Mutated? && call.phase.outcome.record.deleted))
  }

  ghost predicate Returned(call: Call) { call.phase.Done? && Succeeds(call, call.phase.outcome) }

  ghost predicate Finished(s: State, c: CallId, id: OrderedID, op: Op, outcome: Outcome) {
    c in s.calls && s.calls[c].id == id && s.calls[c].op == op && s.calls[c].phase == Done(outcome)
    && Succeeds(s.calls[c], outcome)
  }
}
