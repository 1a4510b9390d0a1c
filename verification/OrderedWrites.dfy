/**
 Create, Update and Delete of the OrderedIndex as a state machine: any number of calls,
 interleaved statement by statement.  Reads see committed rows only.  A create holds the
 counter row of its scope, an update or delete holds the record row, from the locking
 statement until the transaction ends.  A commit whose acknowledgement is lost stays in
 flight, with its lock, until it lands or is dropped.  `Next` is total: an action that is
 not enabled changes nothing.
 */
module OrderedWrites {
  import opened Common
  import opened OrderedTypes

  type CallId = nat

  datatype Op =
    | CreateOp(rankingScope: Bytes, value: Option<Bytes>, rank: Rank, due: Due)
    | UpdateOp(expected: nat, value: Option<Bytes>, rank: Rank, due: Due)
    | DeleteOp(expected: nat)

  datatype Outcome =
    | Created(record: OrderedRecord)
    | Existing(record: OrderedRecord)
    | Mutated(record: OrderedRecord)
    | NotFound
    | AlreadyDeleted
    | Invalid
    | RevisionConflict(actual: nat)
    | Exhausted
    | Failed
    | Ambiguous

  datatype Phase =
    | Looking
    | Ready
    | Prechecked
    | ScopeLocked(current: nat)
    | Staged
    | Unresolved(want: OrderedRecord)
    | Done(outcome: Outcome)

  datatype Call = Call(id: OrderedID, op: Op, attempt: nat, phase: Phase)

  /**
   `accepted` and `history` are bookkeeping: the identities of a scope in commit order, and
   the committed versions of an identity.
   */
  datatype Tables = Tables(
    scopes: map<Scope, nat>, records: map<OrderedID, OrderedRecord>,
    accepted: map<Scope, seq<OrderedID>>, history: map<OrderedID, seq<OrderedRecord>>)

  datatype State = State(
    tables: Tables, scopeLock: map<Scope, CallId>, rowLock: map<OrderedID, CallId>,
    pending: map<CallId, OrderedRecord>, calls: map<CallId, Call>)

  datatype Action =
    | Begin(c: CallId, id: OrderedID, op: Op)
    | Lookup(c: CallId)
    | Precheck(c: CallId)
    | LockScope(c: CallId)
    | Recheck(c: CallId)
    | LockRow(c: CallId)
    | CommitAcknowledged(c: CallId)
    | CommitLost(c: CallId)
    | Fail(c: CallId, retryable: bool, cancelled: bool)
    | Settle(c: CallId, lands: bool)
    | Resolve(c: CallId, readable: bool)

  function NextOrder(t: Tables, sc: Scope): nat { if sc in t.scopes then t.scopes[sc] else 0 }

  function AcceptedIn(t: Tables, sc: Scope): seq<OrderedID> { if sc in t.accepted then t.accepted[sc] else [] }

  function VersionsOf(t: Tables, id: OrderedID): seq<OrderedRecord> { if id in t.history then t.history[id] else [] }

  // ---------------------------------------------------------------- what a transaction writes

  function CreatedRecord(id: OrderedID, op: Op, order: nat): OrderedRecord
    requires op.CreateOp?
  {
    OrderedRecord(id, op.rankingScope, 1, order, op.value, op.rank, op.due, false)
  }

  function MutatedRecord(current: OrderedRecord, op: Op): OrderedRecord
    requires !op.CreateOp?
  {
    if op.UpdateOp? then current.(revision := current.revision + 1, value := op.value, rank := op.rank, due := op.due)
    else current.(revision := current.revision + 1, deleted := true, rank := Rank(false, 0), due := Due(NotDue, 0))
  }

  /** The decision of updateOnce and deleteOnce under the row lock, in the order of their checks. */
  function Decide(current: OrderedRecord, op: Op): Option<Outcome>
    requires !op.CreateOp?
  {
    if current.deleted then Some(if op.UpdateOp? then AlreadyDeleted else Mutated(current))
    else if op.UpdateOp? && (!ValidValue(op.value) || !ValidDue(op.due)) then Some(Invalid)
    else if current.revision != op.expected then Some(RevisionConflict(current.revision))
    else if current.revision == MAX_UINT64 then Some(Exhausted)
    else None
  }

  /** The effect of a commit: record, counter and history move together. */
  function Commit(t: Tables, r: OrderedRecord, create: bool): Tables {
    var t' := t.(records := t.records[r.id := r], history := t.history[r.id := VersionsOf(t, r.id) + [r]]);
    if create then
      t'.(scopes := t.scopes[ScopeOf(r.id) := r.order],
      accepted := t.accepted[ScopeOf(r.id) := AcceptedIn(t, ScopeOf(r.id)) + [r.id]])
    else t'
  }

  // ---------------------------------------------------------------- steps

  function SetPhase(s: State, c: CallId, phase: Phase): State
    requires c in s.calls
  {
    s.(calls := s.calls[c := s.calls[c].(phase := phase)])
  }

  /** The transaction of call c is over: its write and its locks are gone. */
  function EndTransaction(s: State, c: CallId): State
    requires c in s.calls
  {
    var sc, id := ScopeOf(s.calls[c].id), s.calls[c].id;
    s.(pending := s.pending - {c},
    scopeLock := if sc in s.scopeLock && s.scopeLock[sc] == c then s.scopeLock - {sc} else s.scopeLock,
    rowLock := if id in s.rowLock && s.rowLock[id] == c then s.rowLock - {id} else s.rowLock)
  }

  function Land(s: State, c: CallId): State
    requires c in s.calls && c in s.pending
  {
    EndTransaction(s.(tables := Commit(s.tables, s.pending[c], s.calls[c].op.CreateOp?)), c)
  }

  function Success(call: Call, r: OrderedRecord): Outcome { if call.op.CreateOp? then Created(r) else Mutated(r) }

  function StepLookup(s: State, c: CallId, call: Call): State
    requires c in s.calls
  {
    if call.phase != Looking || !call.op.CreateOp? then s
    else if call.id in s.tables.records then SetPhase(s, c, Done(Existing(s.tables.records[call.id])))
    else if !ValidName(call.op.rankingScope) || !ValidValue(call.op.value) || !ValidDue(call.op.due) then
      SetPhase(s, c, Done(Invalid))
    else SetPhase(s, c, Ready)
  }

  function StepPrecheck(s: State, c: CallId, call: Call): State
    requires c in s.calls
  {
    if call.phase != Ready || !call.op.CreateOp? then s
    else if call.id in s.tables.records then SetPhase(s, c, Done(Existing(s.tables.records[call.id])))
    else SetPhase(s, c, Prechecked)
  }

  function StepLockScope(s: State, c: CallId, call: Call): State
    requires c in s.calls
  {
    if call.phase != Prechecked || ScopeOf(call.id) in s.scopeLock then s
    else
      SetPhase(s.(scopeLock := s.scopeLock[ScopeOf(call.id) := c]), c,
               ScopeLocked(NextOrder(s.tables, ScopeOf(call.id))))
  }

  function StepRecheck(s: State, c: CallId, call: Call): State
    requires c in s.calls
  {
    if !call.phase.ScopeLocked? || !call.op.CreateOp? then s
    else if call.id in s.tables.records then
      SetPhase(EndTransaction(s, c), c, Done(Existing(s.tables.records[call.id])))
    else if call.phase.current == MAX_UINT64 then SetPhase(EndTransaction(s, c), c, Done(Exhausted))
    else SetPhase(s.(pending := s.pending[c := CreatedRecord(call.id, call.op, call.phase.current + 1)]), c, Staged)
  }

  function StepLockRow(s: State, c: CallId, call: Call): State
    requires c in s.calls
  {
    if call.phase != Ready || call.op.CreateOp? || call.id in s.rowLock then s
    else if call.id !in s.tables.records then SetPhase(s, c, Done(NotFound))
    else
      var current := s.tables.records[call.id];
      var d := Decide(current, call.op);
      if d.Some? then SetPhase(s, c, Done(d.value))
      else
        SetPhase(s.(rowLock := s.rowLock[call.id := c], pending := s.pending[c := MutatedRecord(current, call.op)]),
                 c, Staged)
  }

  function StepCommitAcknowledged(s: State, c: CallId, call: Call): State
    requires c in s.calls
  {
    if call.phase != Staged || c !in s.pending then s
    else SetPhase(Land(s, c), c, Done(Success(call, s.pending[c])))
  }

  function StepCommitLost(s: State, c: CallId, call: Call): State
    requires c in s.calls
  {
    if call.phase != Staged || c !in s.pending then s else SetPhase(s, c, Unresolved(s.pending[c]))
  }

  /**
   A definite failure before the commit, or a retryable one at it; retryable ones start over while
   attempts remain.
   */
  function StepFail(s: State, c: CallId, call: Call, retryable: bool, cancelled: bool): State
    requires c in s.calls
  {
    if call.phase == Looking then SetPhase(s, c, Done(Failed))
    else if call.phase.Unresolved? || call.phase.Done? || (call.phase == Staged && !retryable) then s
    else if retryable && !cancelled && call.attempt + 1 < ATTEMPTS then
      var s' := EndTransaction(s, c);
      s'.(calls := s'.calls[c := call.(attempt := call.attempt + 1, phase := Ready)])
    else SetPhase(EndTransaction(s, c), c, Done(Failed))
  }

  function StepSettle(s: State, c: CallId, call: Call, lands: bool): State
    requires c in s.calls
  {
    if call.phase == Staged || c !in s.pending then s
    else if lands then Land(s, c)
    else EndTransaction(s, c)
  }

  /** resolveCreate and resolveMutation: only the exact post-state is a success. */
  function StepResolve(s: State, c: CallId, call: Call, readable: bool): State
    requires c in s.calls
  {
    if !call.phase.Unresolved? then s
    else if readable && call.id in s.tables.records && s.tables.records[call.id] == call.phase.want then
      SetPhase(s, c, Done(Success(call, s.tables.records[call.id])))
    else SetPhase(s, c, Done(Ambiguous))
  }

  function Step(s: State, c: CallId, call: Call, a: Action): State
    requires c in s.calls
  {
    match a
    case Begin(_, _, _) => s
    case Lookup(_) => StepLookup(s, c, call)
    case Precheck(_) => StepPrecheck(s, c, call)
    case LockScope(_) => StepLockScope(s, c, call)
    case Recheck(_) => StepRecheck(s, c, call)
    case LockRow(_) => StepLockRow(s, c, call)
    case CommitAcknowledged(_) => StepCommitAcknowledged(s, c, call)
    case CommitLost(_) => StepCommitLost(s, c, call)
    case Fail(_, retryable, cancelled) => StepFail(s, c, call, retryable, cancelled)
    case Settle(_, lands) => StepSettle(s, c, call, lands)
    case Resolve(_, readable) => StepResolve(s, c, call, readable)
  }

  function Next(s: State, a: Action): State {
    if a.c in s.calls then Step(s, a.c, s.calls[a.c], a)
    else if a.Begin? then s.(calls := s.calls[a.c := Call(a.id, a.op, 0, if a.op.CreateOp? then Looking else Ready)])
    else s
  }

  function Init(): State { State(Tables(map[], map[], map[], map[]), map[], map[], map[], map[]) }

  /** The state after the first `n` actions. */
  function At(actions: seq<Action>, n: nat): State
    requires n <= |actions|
    decreases n
  {
    if n == 0 then Init() else Next(At(actions, n - 1), actions[n - 1])
  }
}
