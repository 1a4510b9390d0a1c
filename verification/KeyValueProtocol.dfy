/**
 The revisioned key-value table as a state machine.  A Put is a single statement, so it takes
 effect at one instant, or never; when its answer is lost the statement may still be in flight
 and take effect after the call has returned.  `Next` is total: an action that is not enabled
 changes nothing.
 */
module KeyValueProtocol {
  import opened Common

  type Key = string
  type CallId = nat

  datatype Entry = Entry(revision: nat, value: Bytes)

  /** What the server answers to the statement of a Put. */
  datatype Answer = Wrote(revision: nat) | NoRow | Error

  /** `Cause` is the error of the lost statement, handed back to the caller. */
  datatype Result = Stored(revision: nat) | Conflict | Cause | Failed | InvalidName

  datatype Phase = Sent | Executed(answer: Answer) | Unresolved | Returned(result: Result, reread: bool)

  /** `begunAt` is bookkeeping: how long the history was when the call began. */
  datatype Call = Call(key: Key, expected: uint64, value: Option<Bytes>, phase: Phase, begunAt: nat)

  /** Bookkeeping: the committed changes, in order. */
  datatype Event =
    | Written(owner: CallId, key: Key, entry: Entry)
    | Deleted(key: Key)

  datatype State = State(rows: map<Key, Entry>, inFlight: set<CallId>, calls: map<CallId, Call>, history: seq<Event>)

  datatype Action =
    | Put(id: CallId, key: Key, expected: uint64, value: Option<Bytes>)
    | Execute(id: CallId)
    | Reply(id: CallId)
    | Lose(id: CallId)
    | Drop(id: CallId)
    | Reread(id: CallId)
    | RereadFailed(id: CallId)
    | Delete(key: Key)

  /** Stands for storage.ValidateName, which is not part of this model. */
  predicate ValidName(key: Key) { key != "" }

  /** A nil value is stored as an empty one. */
  function Blob(value: Option<Bytes>): Bytes { if value.Some? then value.value else [] }

  /** putOnce: insert at revision 1, or advance the expected revision by one. */
  function Statement(rows: map<Key, Entry>, c: Call): Answer {
    if c.expected == 0 then if c.key in rows then NoRow else Wrote(1)
    else if c.expected > MAX_INT64 then Error
    else if c.key !in rows || rows[c.key].revision != c.expected then NoRow
    else if c.expected + 1 > MAX_INT64 then Error
    else Wrote(c.expected + 1)
  }

  function SetPhase(s: State, id: CallId, phase: Phase): State
    requires id in s.calls
  {
    s.(calls := s.calls[id := s.calls[id].(phase := phase)])
  }

  function StepExecute(s: State, id: CallId, c: Call): State
    requires id in s.calls
  {
    if id !in s.inFlight then s
    else
      var answer := Statement(s.rows, c);
      var s' := SetPhase(s.(inFlight := s.inFlight - {id}), id, if c.phase == Sent then Executed(answer) else c.phase);
      if !answer.Wrote? then s'
      else
        var entry := Entry(answer.revision, Blob(c.value));
        s'.(rows := s.rows[c.key := entry], history := s.history + [Written(id, c.key, entry)])
  }

  function StepReply(s: State, id: CallId, c: Call): State
    requires id in s.calls
  {
    match c.phase
    case Executed(Wrote(r)) => SetPhase(s, id, Returned(Stored(r), false))
    case Executed(NoRow) => SetPhase(s, id, Returned(Conflict, false))
    case Executed(Error) => SetPhase(s, id, Unresolved)
    case _ => s
  }

  /** resolvePut, when its read is answered; the addition is that of uint64. */
  function Resolution(rows: map<Key, Entry>, c: Call): Result {
    var next := (c.expected + 1) % (MAX_UINT64 + 1);
    if c.key in rows && rows[c.key].revision == next && rows[c.key].value == Blob(c.value) then
      Stored(rows[c.key].revision)
    else if c.key !in rows || rows[c.key].revision == c.expected then Cause
    else Conflict
  }

  function Step(s: State, id: CallId, c: Call, a: Action): State
    requires id in s.calls
  {
    match a
    case Execute(_) => StepExecute(s, id, c)
    case Reply(_) => StepReply(s, id, c)
    case Lose(_) => if c.phase == Sent || c.phase.Executed? then SetPhase(s, id, Unresolved) else s
    case Drop(_) => if c.phase == Sent then s else s.(inFlight := s.inFlight - {id})
    case Reread(_) => if c.phase == Unresolved then SetPhase(s, id, Returned(Resolution(s.rows, c), true)) else s
    case RereadFailed(_) => if c.phase == Unresolved then SetPhase(s, id, Returned(Failed, true)) else s
    case _ => s
  }

  function Begin(s: State, key: Key, expected: uint64, value: Option<Bytes>): Call {
    Call(key, expected, value, if ValidName(key) then Sent else Returned(InvalidName, false), |s.history|)
  }

  function Next(s: State, a: Action): State {
    match a
    case Put(id, key, expected, value) =>
      if id in s.calls then s
      else
        s.(calls := s.calls[id := Begin(s, key, expected, value)],
        inFlight := if ValidName(key) then s.inFlight + {id} else s.inFlight)
    case Delete(key) => s.(rows := s.rows - {key}, history := s.history + [Deleted(key)])
    case _ => if a.id in s.calls then Step(s, a.id, s.calls[a.id], a) else s
  }

  function Init(): State { State(map[], {}, map[], []) }

  /** The state after a whole sequence of actions. */
  function Run(s: State, actions: seq<Action>): State
    decreases |actions|
  {
    if actions == [] then s else Next(Run(s, actions[..|actions| - 1]), actions[|actions| - 1])
  }
}
