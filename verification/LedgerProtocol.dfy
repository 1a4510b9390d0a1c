/**
 The append-only ledger as a state machine: any number of Append calls and Deletes,
 interleaved statement by statement.  Reads see committed rows only.  A transaction owns the
 scope row of its name from its locking read until it ends.  A commit whose acknowledgement
 is lost stays in flight, with its lock, until it lands or is dropped, possibly after the
 call has returned.  `Next` is total: an action that is not enabled changes nothing.
 */
module LedgerProtocol {
  import opened Common

  type Name = string
  type CallId = nat

  /** The primary key of ledger_records. */
  datatype RecordKey = RecordKey(name: Name, number: nat)

  datatype Result = Appended | Conflict | Ambiguous | ContextEnded | Failed | InvalidName

  /** `reread` tells the answers of resolveAppend from the others. */
  datatype Phase = Ready | Locked | Written | Unresolved | Returned(result: Result, reread: bool)

  /** `begunAt` is bookkeeping: how long the history was when the call began. */
  datatype Call = Call(name: Name, expected: uint64, payload: Bytes, attempt: nat, phase: Phase, begunAt: nat)

  /** The transaction that owns the scope row of a name. */
  datatype Transaction = Transaction(owner: CallId, written: bool, abandoned: bool)

  /** Bookkeeping: what was committed, in order. */
  datatype Event =
    | Committed(owner: CallId, name: Name, number: nat, payload: Bytes)
    | Deleted(name: Name)

  datatype State = State(
    scopes: map<Name, nat>, records: map<RecordKey, Bytes>, active: map<Name, Transaction>,
    calls: map<CallId, Call>, history: seq<Event>)

  datatype Action =
    | Append(id: CallId, name: Name, expected: uint64, payload: Bytes)
    | LockScope(id: CallId)
    | WriteRecord(id: CallId)
    | AttemptFailed(id: CallId, retryable: bool, ended: bool)
    | CommitAcknowledged(id: CallId)
    | CommitLost(id: CallId)
    | Settle(name: Name, lands: bool)
    | Reread(id: CallId)
    | RereadFailed(id: CallId)
    | Delete(name: Name)

  /** Stands for storage.ValidateName, which is not part of this model. */
  predicate ValidName(name: Name) { name != "" }

  /** The tip that the locking read sees: the insert before it makes an absent scope 0. */
  function Tip(s: State, name: Name): nat { if name in s.scopes then s.scopes[name] else 0 }

  function SetPhase(s: State, id: CallId, phase: Phase): State
    requires id in s.calls
  {
    s.(calls := s.calls[id := s.calls[id].(phase := phase)])
  }

  predicate OwnsLock(s: State, id: CallId, name: Name) { name in s.active && s.active[name].owner == id }

  function Unlock(s: State, name: Name): State { s.(active := s.active - {name}) }

  /** Record, tip and history move together when a transaction commits. */
  function Land(s: State, id: CallId, c: Call): State {
    s.(scopes := s.scopes[c.name := c.expected + 1],
    records := s.records[RecordKey(c.name, c.expected + 1) := c.payload],
    active := s.active - {c.name},
    history := s.history + [Committed(id, c.name, c.expected + 1, c.payload)])
  }

  /** The tail of the loop body: what follows a definite failure of one attempt. */
  function AfterFailure(c: Call, retryable: bool, ended: bool): Call {
    if retryable && !ended && c.attempt + 1 < ATTEMPTS then c.(attempt := c.attempt + 1, phase := Ready)
    else c.(phase := Returned(if ended then ContextEnded else Failed, false))
  }

  function StepFailed(s: State, id: CallId, c: Call, retryable: bool, ended: bool): State {
    var s' := if OwnsLock(s, id, c.name) then Unlock(s, c.name) else s;
    s'.(calls := s.calls[id := AfterFailure(c, retryable, ended)])
  }

  function StepLock(s: State, id: CallId, c: Call): State
    requires id in s.calls
  {
    if c.phase != Ready || c.name in s.active then s
    else if Tip(s, c.name) != c.expected then SetPhase(s, id, Returned(Conflict, false))
    else SetPhase(s.(active := s.active[c.name := Transaction(id, false, false)]), id, Locked)
  }

  /** The two writes.  A sequence outside bigint or a taken primary key is a definite failure. */
  function StepWrite(s: State, id: CallId, c: Call): State
    requires id in s.calls
  {
    if c.phase != Locked || !OwnsLock(s, id, c.name) then s
    else if c.expected + 1 > MAX_INT64 || RecordKey(c.name, c.expected + 1) in s.records then
      StepFailed(s, id, c, false, false)
    else SetPhase(s.(active := s.active[c.name := Transaction(id, true, false)]), id, Written)
  }

  function StepCommit(s: State, id: CallId, c: Call, acknowledged: bool): State
    requires id in s.calls
  {
    if c.phase != Written || !OwnsLock(s, id, c.name) then s
    else if acknowledged then SetPhase(Land(s, id, c), id, Returned(Appended, false))
    else SetPhase(s.(active := s.active[c.name := Transaction(id, true, true)]), id, Unresolved)
  }

  function StepSettle(s: State, name: Name, lands: bool): State {
    if name !in s.active || !s.active[name].abandoned then s
    else if lands && s.active[name].owner in s.calls then Land(s, s.active[name].owner, s.calls[s.active[name].owner])
    else Unlock(s, name)
  }

  /** resolveAppend, when its read is answered. */
  function Resolution(s: State, c: Call): Result {
    var key := RecordKey(c.name, c.expected + 1);
    if key in s.records && s.records[key] == c.payload then Appended
    else if key in s.records then Conflict
    else Ambiguous
  }

  /**
   DELETE of the scope row with its cascade.  It sees committed rows only, so a scope that an open
   append has just inserted is none to it; it waits while a transaction owns a committed row.
   */
  function StepDelete(s: State, name: Name): State {
    if name !in s.scopes || name in s.active then s
    else
      s.(scopes := s.scopes - {name},
      records := map k | k in s.records && k.name != name :: s.records[k],
      history := s.history + [Deleted(name)])
  }

  function Step(s: State, id: CallId, c: Call, a: Action): State
    requires id in s.calls
  {
    match a
    case LockScope(_) => StepLock(s, id, c)
    case WriteRecord(_) => StepWrite(s, id, c)
    case AttemptFailed(_, retryable, ended) =>
      if c.phase == Ready || c.phase == Locked || (c.phase == Written && retryable) then
        StepFailed(s, id, c, retryable, ended)
      else s
    case CommitAcknowledged(_) => StepCommit(s, id, c, true)
    case CommitLost(_) => StepCommit(s, id, c, false)
    case Reread(_) => if c.phase == Unresolved then SetPhase(s, id, Returned(Resolution(s, c), true)) else s
    case RereadFailed(_) => if c.phase == Unresolved then SetPhase(s, id, Returned(Ambiguous, true)) else s
    case _ => s
  }

  function Begin(s: State, name: Name, expected: uint64, payload: Bytes): Call {
    Call(name, expected, payload, 0, if ValidName(name) then Ready else Returned(InvalidName, false), |s.history|)
  }

  function Next(s: State, a: Action): State {
    match a
    case Append(id, name, expected, payload) =>
      if id in s.calls then s else s.(calls := s.calls[id := Begin(s, name, expected, payload)])
    case Settle(name, lands) => StepSettle(s, name, lands)
    case Delete(name) => StepDelete(s, name)
    case _ => if a.id in s.calls then Step(s, a.id, s.calls[a.id], a) else s
  }

  function Init(): State { State(map[], map[], map[], map[], []) }

  /** The state after a whole sequence of actions. */
  function Run(s: State, actions: seq<Action>): State
    decreases |actions|
  {
    if actions == [] then s else Next(Run(s, actions[..|actions| - 1]), actions[|actions| - 1])
  }
}
