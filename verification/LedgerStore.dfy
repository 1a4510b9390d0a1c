/**
 The Append loop, the Read loop and the cursor of the ledger as they run, against the state
 machine and its invariant.  Between any two statements of a call the other clients act.
 */
module LedgerStore {
  import opened Common
  import opened LedgerProtocol
  import opened LedgerSafety
  import opened LedgerTheorems

  /**
   What surrounds one statement of a call: the actions of others before it, whether it then
   fails, with a retryable code or not, whether the context has ended by then, and, for the
   commit, whether its acknowledgement is lost.
   */
  datatype Turn = Turn(others: seq<Action>, fails: bool, retryable: bool, ended: bool, lost: bool)

  /** The action is a step of call `id`. */
  predicate ActsFor(a: Action, id: CallId) { !a.Settle? && !a.Delete? && a.id == id }

  ghost predicate Foreign(turn: Turn, id: CallId) { forall a :: a in turn.others ==> !ActsFor(a, id) }

  /** How one attempt ended. */
  datatype Attempt = Success | Conflicting | OutcomeUnknown | Error(retryable: bool)

  lemma OthersLeaveCall(s: State, a: Action, id: CallId)
    requires id in s.calls && !ActsFor(a, id)
    ensures id in Next(s, a).calls && Next(s, a).calls[id] == s.calls[id]
  {
  }

  /** Nobody else acts before the statement, and it is answered. */
  predicate Quiet(turn: Turn) { turn.others == [] && !turn.fails && !turn.lost }

  /** The failure of a turn, as the loop will classify it. */
  predicate FailsAs(turn: Turn, retryable: bool) { turn.fails && turn.retryable == retryable }

  /** At an instant of the run from `from` on, another call owned the scope row of the name. */
  ghost predicate WasBusy(trace: seq<Action>, from: nat, name: Name, id: CallId) {
    exists n :: from <= n <= |trace| && IsBusy(Run(Init(), trace[..n]), name, id)
  }

  predicate IsBusy(s: State, name: Name, id: CallId) { name in s.active && s.active[name].owner != id }

  lemma BusyStays(trace: seq<Action>, longer: seq<Action>, from: nat, earlier: nat, name: Name, id: CallId)
    requires trace <= longer && WasBusy(trace, from, name, id) && earlier <= from
    ensures WasBusy(longer, earlier, name, id)
  {
    var n :| from <= n <= |trace| && IsBusy(Run(Init(), trace[..n]), name, id);
    assert longer[..n] == trace[..n];
  }

  /** The scope row is owned at this very instant, and not by a call that has not locked it. */
  lemma BusyNow(trace: seq<Action>, id: CallId)
    requires var s := Run(Init(), trace);
             id in s.calls && s.calls[id].phase == Ready && s.calls[id].name in s.active
    ensures WasBusy(trace, |trace|, Run(Init(), trace).calls[id].name, id)
  {
    hide Run, Replay, Stores, EventOk;
    Reachable(trace);
    var s := Run(Init(), trace);
    assert CallOk(s, id, s.calls[id]);
    assert trace[..|trace|] == trace;
  }

  /** The sequence that a call is about to take is free: the primary key is never violated. */
  lemma KeyIsFree(trace: seq<Action>, id: CallId)
    requires var s := Run(Init(), trace); id in s.calls && s.calls[id].phase == Locked
    ensures var s := Run(Init(), trace); RecordKey(s.calls[id].name, s.calls[id].expected + 1) !in s.records
  {
    hide Run, Replay, EventOk;
    Reachable(trace);
    var s := Run(Init(), trace);
    var c := s.calls[id];
    assert CallOk(s, id, c) && TransactionOk(s, c.name, s.active[c.name]);
    assert Stores(s, c.name, Replay(s.history, c.name));
  }

  /** The logs after a commit: one is longer by the payload, the others are as they were. */
  ghost predicate LogsAppend(s: State, s': State, name: Name, payload: Bytes) {
    forall other :: Log(s', other) == if other == name then Log(s, name) + [payload] else Log(s, other)
  }

  lemma LandAppends(trace: seq<Action>, id: CallId)
    requires var s := Run(Init(), trace); id in s.calls && s.calls[id].phase == Written
    ensures var s := Run(Init(), trace); var c := s.calls[id];
            LogsAppend(s, Next(s, CommitAcknowledged(id)), c.name, c.payload)
  {
    StillOwned(trace, id);
    Reachable(trace);
    var s := Run(Init(), trace);
    hide Run, Replay, EventOk, Log;
    var c, s' := s.calls[id], Next(s, CommitAcknowledged(id));
    assert TransactionOk(s, c.name, s.active[c.name]);
    NextKeeps(s, CommitAcknowledged(id));
    forall other ensures Log(s', other) == if other == c.name then Log(s, c.name) + [c.payload] else Log(s, other) {
      LogIsReplay(s, other);
      LogIsReplay(s', other);
      Extend(s.history, Committed(id, c.name, c.expected + 1, c.payload), other, id);
    }
  }

  /** Nobody acts while the call runs, every statement is answered, and its context lives on. */
  ghost predicate LeftAlone(turns: nat -> Turn) { forall i :: Quiet(turns(i)) && !turns(i).ended }

  /** A failure has its cause, and a retryable one is answered only after the last attempt. */
  ghost predicate Explained(result: Result, turns: nat -> Turn, trace: seq<Action>, from: nat, c: Call, id: CallId) {
    match result
    case Failed =>
      || (c.attempt + 1 == ATTEMPTS && exists i :: FailsAs(turns(i), true))
      || (exists i :: FailsAs(turns(i), false))
      || WasBusy(trace, from, c.name, id)
      || c.expected >= MAX_INT64
    case ContextEnded => exists i :: turns(i).ended
    case Ambiguous => exists i :: turns(i).fails || turns(i).lost
    case _ => true
  }

  /** What Append does when it is left alone, and what it answers. */
  ghost predicate ComparesAndAppends(s: State, s': State, name: Name, expected: nat, payload: Bytes, result: Result) {
    && (result == Conflict <==> Tip(s, name) != expected)
    && (result == Appended <==> Tip(s, name) == expected < MAX_INT64)
    && (result == Failed <==> Tip(s, name) == expected >= MAX_INT64)
    && (result == Appended ==> LogsAppend(s, s', name, payload))
    && (result != Appended ==> SameTables(s, s'))
  }

  /** What one attempt does when it is left alone. */
  ghost predicate AttemptsAlone(s: State, s': State, c: Call, r: Attempt) {
    && (r == Conflicting <==> Tip(s, c.name) != c.expected)
    && (r == Success <==> Tip(s, c.name) == c.expected < MAX_INT64)
    && (r == Success ==> LogsAppend(s, s', c.name, c.payload))
    && (r != Success ==> SameTables(s, s'))
    && (r.Error? ==> !r.retryable) && r != OutcomeUnknown
  }

  lemma AloneDecides(s: State, s': State, s'': State, c: Call, r: Attempt)
    requires AttemptsAlone(s, s', c, r) && (if r.Error? then SameTables(s', s'') else s'' == s')
    ensures ComparesAndAppends(s, s'', c.name, c.expected, c.payload,
                               match r case Success => Appended case Conflicting => Conflict case _ => Failed)
    ensures r.Error? ==> !r.retryable
  {
    hide LogsAppend;
  }

  lemma NeverUnknown(s: State, s': State, c: Call)
    ensures !AttemptsAlone(s, s', c, OutcomeUnknown)
  {
  }

  /** The cause of the answer of one attempt. */
  ghost predicate IsExplained(result: Result, lock: Turn, write: Turn, commit: Turn, last: Turn, trace: seq<Action>,
                              from: nat, c: Call, id: CallId) {
    match result
    case Failed =>
      || (c.attempt + 1 == ATTEMPTS && (FailsAs(lock, true) || FailsAs(write, true) || FailsAs(commit, true)))
      || FailsAs(lock, false) || FailsAs(write, false) || FailsAs(commit, false)
      || WasBusy(trace, from, c.name, id)
      || c.expected >= MAX_INT64
    case ContextEnded => last.ended
    case Ambiguous => commit.fails || commit.lost
    case _ => true
  }

  lemma ExplainsAll(result: Result, turns: nat -> Turn, n: nat, trace: seq<Action>, from: nat, earlier: nat, c: Call,
                    id: CallId)
    requires earlier <= from
    requires IsExplained(result, turns(n), turns(n + 1), turns(n + 2), turns(n + 3), trace, from, c, id)
    ensures Explained(result, turns, trace, earlier, c, id)
  {
    hide WasBusy;
    if WasBusy(trace, from, c.name, id) {
      BusyStays(trace, trace, from, earlier, c.name, id);
    }
  }

  lemma SameStart(s: State, t: State, s': State, name: Name, expected: nat, payload: Bytes, result: Result)
    requires SameTables(s, t)
    ensures ComparesAndAppends(t, s', name, expected, payload, result) ==>
              ComparesAndAppends(s, s', name, expected, payload, result)
  {
    hide LogsAppend;
    if LogsAppend(t, s', name, payload) {
      SameLogs(s, t, name, payload, s');
    }
  }

  lemma BeginEffect(s: State, id: CallId, name: Name, expected: uint64, payload: Bytes)
    requires id !in s.calls
    ensures var s' := Next(s, LedgerProtocol.Append(id, name, expected, payload));
            id in s'.calls && s'.calls[id] == Begin(s, name, expected, payload)
            && SameTables(s, s') && s'.active == s.active
  {
  }

  lemma FailureEffect(s: State, id: CallId, retryable: bool, ended: bool)
    requires id in s.calls
    requires s.calls[id].phase in {Ready, Locked} || (s.calls[id].phase == Written && retryable)
    ensures var s' := Next(s, AttemptFailed(id, retryable, ended));
            id in s'.calls && s'.calls[id] == AfterFailure(s.calls[id], retryable, ended) && SameTables(s, s')
  {
  }

  lemma LockEffect(s: State, id: CallId)
    requires id in s.calls && s.calls[id].phase == Ready && s.calls[id].name !in s.active
    ensures SameTables(s, Next(s, LockScope(id)))
    ensures var s', c := Next(s, LockScope(id)), s.calls[id];
            id in s'.calls
            && s'.calls[id] == c.(phase := if Tip(s, c.name) == c.expected then Locked else Returned(Conflict, false))
  {
  }

  lemma WriteEffect(s: State, id: CallId)
    requires id in s.calls && s.calls[id].phase == Locked && OwnsLock(s, id, s.calls[id].name)
    requires s.calls[id].expected + 1 <= MAX_INT64
    requires RecordKey(s.calls[id].name, s.calls[id].expected + 1) !in s.records
    ensures SameTables(s, Next(s, WriteRecord(id)))
    ensures var s' := Next(s, WriteRecord(id)); id in s'.calls && s'.calls[id] == s.calls[id].(phase := Written)
  {
  }

  lemma CommitEffect(s: State, id: CallId)
    requires id in s.calls && s.calls[id].phase == Written && OwnsLock(s, id, s.calls[id].name)
    ensures var s' := Next(s, CommitLost(id)); id in s'.calls && s'.calls[id] == s.calls[id].(phase := Unresolved)
    ensures var s' := Next(s, CommitAcknowledged(id));
            id in s'.calls && s'.calls[id] == s.calls[id].(phase := Returned(Appended, false))
            && HoldsPayload(s', s'.calls[id])
  {
  }

  lemma SameLogs(s: State, t: State, name: Name, payload: Bytes, t': State)
    requires LogsAppend(t, t', name, payload)
    ensures s.scopes == t.scopes && s.records == t.records ==> LogsAppend(s, t', name, payload)
  {
    if s.scopes == t.scopes && s.records == t.records {
      forall other ensures Log(s, other) == Log(t, other) {
      }
    }
  }

  lemma OtherLogsStay(s: State, name: Name)
    ensures forall other :: other != name ==> Log(StepDelete(s, name), other) == Log(s, other)
  {
    forall other | other != name ensures Log(StepDelete(s, name), other) == Log(s, other) {
      assert forall n: nat :: RecordKey(other, n) in StepDelete(s, name).records <==> RecordKey(other, n) in s.records;
    }
  }

  /** Every delete in the history of a run is one of its actions. */
  lemma {:induction false} DeletesAreActions(s: State, more: seq<Action>, name: Name)
    requires Delete(name) !in more
    ensures |Run(s, more).history| >= |s.history|
    ensures forall i :: |s.history| <= i < |Run(s, more).history| ==> Run(s, more).history[i] != Deleted(name)
    decreases |more|
  {
    if more != [] {
      DeletesAreActions(s, more[..|more| - 1], name);
      OneEventPerStep(Run(s, more[..|more| - 1]), more[|more| - 1]);
    }
  }

  lemma OneEventPerStep(s: State, a: Action)
    ensures s.history <= Next(s, a).history
    ensures forall i :: |s.history| <= i < |Next(s, a).history| && Next(s, a).history[i].Deleted? ==>
              a == Delete(Next(s, a).history[i].name)
  {
  }

  class Store {
    var state: State
    ghost var trace: seq<Action>

    /** The tables are what a run of the machine produced. */
    ghost predicate Valid()
      reads this
    {
      state == Run(Init(), trace)
    }

    constructor ()
      ensures Valid() && trace == []
    {
      state := Init();
      trace := [];
    }

    method Perform(a: Action)
      requires Valid()
      modifies this
      ensures Valid() && trace == old(trace) + [a] && state == Next(old(state), a)
    {
      state := Next(state, a);
      trace := trace + [a];
      assert trace[..|trace| - 1] == old(trace);
    }

    /** Other clients run; the call is not touched. */
    method LetOthers(others: seq<Action>, id: CallId)
      requires Valid() && id in state.calls && forall a :: a in others ==> !ActsFor(a, id)
      modifies this
      ensures Valid() && trace == old(trace) + others
      ensures id in state.calls && state.calls[id] == old(state).calls[id]
      ensures others == [] ==> state == old(state)
    {
      var i := 0;
      while i < |others|
        invariant i <= |others|
        invariant Valid() && trace == old(trace) + others[..i]
        invariant id in state.calls && state.calls[id] == old(state).calls[id]
        invariant i == 0 ==> state == old(state)
      {
        OthersLeaveCall(state, others[i], id);
        Perform(others[i]);
        i := i + 1;
      }
    }

    /**
     appendOnce.  On an error the transaction may still be open; Append rolls it back when it
     classifies the error.  A scope row that someone else owns ends in a lock timeout.
     */
    method AppendOnce(id: CallId, lock: Turn, write: Turn, commit: Turn) returns (r: Attempt)
      requires Valid() && id in state.calls && state.calls[id].phase == Ready
      requires Foreign(lock, id) && Foreign(write, id) && Foreign(commit, id)
      modifies this
      ensures Valid() && old(trace) <= trace
      ensures id in state.calls && state.calls[id] == old(state).calls[id].(phase := state.calls[id].phase)
      ensures match r
              case Success => state.calls[id].phase == Returned(Appended, false) && HoldsPayload(state, state.calls[id])
              case Conflicting => state.calls[id].phase == Returned(Conflict, false)
              case OutcomeUnknown => state.calls[id].phase == Unresolved
              case Error(retryable) =>
                state.calls[id].phase in {Ready, Locked} || (state.calls[id].phase == Written && retryable)
      // Every error has its cause: a failed turn, a busy scope row, or the ceiling of a sequence.
      ensures r.Error? ==>
                || FailsAs(lock, r.retryable) || FailsAs(write, r.retryable) || FailsAs(commit, r.retryable)
                || (!r.retryable && WasBusy(trace, |old(trace)|, state.calls[id].name, id))
                || (!r.retryable && state.calls[id].expected >= MAX_INT64)
      ensures r == OutcomeUnknown ==> commit.fails || commit.lost
      // Left alone, an attempt is compare-and-append.
      ensures var c := old(state).calls[id];
              Quiet(lock) && Quiet(write) && Quiet(commit) && c.name !in old(state).active ==>
                AttemptsAlone(old(state), state, c, r)
    {
      hide Next, HoldsPayload, Run, LogsAppend, WasBusy, Log, Valid;
      var c := state.calls[id];
      var stopped := LockTip(id, lock);
      if stopped.Some? {
        return stopped.value;
      }
      ghost var locked := trace;
      stopped := WriteBoth(id, write);
      if stopped.Some? {
        return stopped.value;
      }
      ghost var written := state;
      r := CommitAppend(id, commit);
      if r == Success && commit.others == [] {
        SameLogs(old(state), written, c.name, c.payload, state);
      }
    }

    /** The insert of the scope, the locking read, and the check against the expected tip. */
    method LockTip(id: CallId, lock: Turn) returns (r: Option<Attempt>)
      requires Valid() && id in state.calls && state.calls[id].phase == Ready && Foreign(lock, id)
      modifies this
      ensures Valid() && old(trace) <= trace
      ensures id in state.calls && state.calls[id] == old(state).calls[id].(phase := state.calls[id].phase)
      ensures match r
              case None => state.calls[id].phase == Locked
              case Some(Conflicting) => state.calls[id].phase == Returned(Conflict, false)
              case Some(Error(retryable)) =>
                state.calls[id].phase == Ready
                && (FailsAs(lock, retryable)
                    || (!retryable && WasBusy(trace, |old(trace)|, state.calls[id].name, id)))
              case _ => false
      ensures var c := old(state).calls[id];
              Quiet(lock) && c.name !in old(state).active ==>
                && SameTables(old(state), state)
                && (r == None <==> Tip(old(state), c.name) == c.expected)
                && (r == Some(Conflicting) <==> Tip(old(state), c.name) != c.expected)
    {
      hide Next, Run, WasBusy;
      LetOthers(lock.others, id);
      var name := state.calls[id].name;
      if lock.fails {
        return Some(Error(lock.retryable));
      }
      if name in state.active {
        BusyNow(trace, id);
        BusyStays(trace, trace, |trace|, |old(trace)|, name, id);
        return Some(Error(false));
      }
      LockEffect(state, id);
      Perform(LockScope(id));
      return if state.calls[id].phase == Locked then None else Some(Conflicting);
    }

    /** The record and the new tip. */
    method WriteBoth(id: CallId, write: Turn) returns (r: Option<Attempt>)
      requires Valid() && id in state.calls && state.calls[id].phase == Locked && Foreign(write, id)
      modifies this
      ensures Valid() && old(trace) <= trace
      ensures id in state.calls && state.calls[id] == old(state).calls[id].(phase := state.calls[id].phase)
      ensures match r
              case None => state.calls[id].phase == Written
              case Some(Error(retryable)) =>
                state.calls[id].phase == Locked
                && (FailsAs(write, retryable) || (!retryable && state.calls[id].expected >= MAX_INT64))
              case _ => false
      ensures Quiet(write) ==>
                SameTables(old(state), state) && (r == None <==> old(state).calls[id].expected < MAX_INT64)
    {
      hide Next, Run;
      LetOthers(write.others, id);
      if write.fails {
        return Some(Error(write.retryable));
      }
      var c := state.calls[id];
      KeyIsFree(trace, id);
      if c.expected + 1 > MAX_INT64 || RecordKey(c.name, c.expected + 1) in state.records {
        return Some(Error(false));
      }
      StillOwned(trace, id);
      WriteEffect(state, id);
      Perform(WriteRecord(id));
      return None;
    }

    /** The commit: acknowledged, aborted with a retryable code, or of unknown outcome. */
    method CommitAppend(id: CallId, commit: Turn) returns (r: Attempt)
      requires Valid() && id in state.calls && state.calls[id].phase == Written && Foreign(commit, id)
      modifies this
      ensures Valid() && old(trace) <= trace
      ensures id in state.calls && state.calls[id] == old(state).calls[id].(phase := state.calls[id].phase)
      ensures match r
              case Success => state.calls[id].phase == Returned(Appended, false) && HoldsPayload(state, state.calls[id])
              case OutcomeUnknown => state.calls[id].phase == Unresolved && (commit.fails || commit.lost)
              case Error(retryable) => state.calls[id].phase == Written && retryable && FailsAs(commit, true)
              case Conflicting => false
      ensures Quiet(commit) ==> r == Success
      ensures r == Success && commit.others == [] ==>
                var c := old(state).calls[id]; LogsAppend(old(state), state, c.name, c.payload)
    {
      hide Next, HoldsPayload, Run, LogsAppend;
      LetOthers(commit.others, id);
      StillOwned(trace, id);
      CommitEffect(state, id);
      if commit.fails && commit.retryable {
        return Error(true);
      }
      if commit.fails || commit.lost {
        Perform(CommitLost(id));
        return OutcomeUnknown;
      }
      LandAppends(trace, id);
      Perform(CommitAcknowledged(id));
      return Success;
    }

    /** Append: the name is checked, and then the attempts are made. */
    method Append(id: CallId, name: Name, expected: uint64, payload: Bytes, turns: nat -> Turn) returns (result: Result)
      requires Valid() && id !in state.calls
      requires forall i :: Foreign(turns(i), id)
      modifies this
      ensures Valid() && old(trace) <= trace
      ensures HasReturned(state, id, result)
      ensures var c := state.calls[id]; c.name == name && c.expected == expected && c.payload == payload
      ensures result == Appended ==> HoldsPayload(state, state.calls[id])
      ensures result !in {Appended, Ambiguous} && LedgerProtocol.Delete(name) !in trace[|old(trace)|..] ==>
                Clean(state, id, state.calls[id])
      ensures result == InvalidName <==> !ValidName(name)
      ensures state.calls[id].attempt < ATTEMPTS
      ensures Explained(result, turns, trace, |old(trace)|, state.calls[id], id)
      ensures ValidName(name) && name !in old(state).active && LeftAlone(turns) ==>
                ComparesAndAppends(old(state), state, name, expected, payload, result)
    {
      hide WasBusy, HoldsPayload, Clean, Run, Next, Log;
      BeginEffect(state, id, name, expected, payload);
      Perform(LedgerProtocol.Append(id, name, expected, payload));
      if !ValidName(name) {
        Definite(trace, id);
        return InvalidName;
      }
      ghost var begun := trace;
      result := Attempts(id, turns);
      if LedgerProtocol.Delete(name) !in trace[|old(trace)|..] {
        NotForgotten(old(trace), trace, id);
        Definite(trace, id);
      }
      if WasBusy(trace, |begun|, name, id) {
        BusyStays(trace, trace, |begun|, |old(trace)|, name, id);
      }
      SameStart(old(state), Run(Init(), begun), state, name, expected, payload, result);
    }

    /** The loop of Append: four attempts at most, and its end is never reached. */
    method Attempts(id: CallId, turns: nat -> Turn) returns (result: Result)
      requires Valid() && id in state.calls && state.calls[id].phase == Ready && state.calls[id].attempt == 0
      requires forall i :: Foreign(turns(i), id)
      modifies this
      ensures Valid() && old(trace) <= trace
      ensures HasReturned(state, id, result) && result != InvalidName && state.calls[id].attempt < ATTEMPTS
      ensures var c, c' := old(state).calls[id], state.calls[id]; c' == c.(attempt := c'.attempt, phase := c'.phase)
      ensures result == Appended ==> HoldsPayload(state, state.calls[id])
      ensures Explained(result, turns, trace, |old(trace)|, state.calls[id], id)
      ensures var c := old(state).calls[id];
              c.name !in old(state).active && LeftAlone(turns) ==>
                ComparesAndAppends(old(state), state, c.name, c.expected, c.payload, result)
    {
      hide WasBusy, HoldsPayload, Run, Next, ComparesAndAppends, IsExplained;
      var c := state.calls[id];
      var attempt := 0;
      while attempt < ATTEMPTS
        invariant attempt < ATTEMPTS
        invariant Valid() && old(trace) <= trace
        invariant id in state.calls && state.calls[id] == c.(attempt := attempt)
        invariant attempt == 0 ==> state == old(state)
        invariant attempt > 0 ==> exists i :: FailsAs(turns(i), true)
        decreases ATTEMPTS - attempt
      {
        ghost var before := trace;
        var n := 4 * attempt;
        var answer := Try(id, turns(n), turns(n + 1), turns(n + 2), turns(n + 3));
        if answer.Some? {
          ExplainsAll(answer.value, turns, n, trace, |before|, |old(trace)|, state.calls[id], id);
          return answer.value;
        }
        attempt := attempt + 1;
      }
      assert false;
    }

    /** One attempt and what the loop makes of its error; no answer means that the loop goes on. */
    method Try(id: CallId, lock: Turn, write: Turn, commit: Turn, last: Turn) returns (r: Option<Result>)
      requires Valid() && id in state.calls && state.calls[id].phase == Ready && state.calls[id].attempt < ATTEMPTS
      requires Foreign(lock, id) && Foreign(write, id) && Foreign(commit, id) && Foreign(last, id)
      modifies this
      ensures Valid() && old(trace) <= trace && id in state.calls
      ensures var c, c' := old(state).calls[id], state.calls[id];
              match r
              case None =>
                && c' == c.(attempt := c.attempt + 1) && c'.attempt < ATTEMPTS
                && (FailsAs(lock, true) || FailsAs(write, true) || FailsAs(commit, true))
              case Some(result) =>
                && HasReturned(state, id, result) && result != InvalidName && c' == c.(phase := c'.phase)
                && (result == Appended ==> HoldsPayload(state, c'))
                && IsExplained(result, lock, write, commit, last, trace, |old(trace)|, c', id)
      ensures var c := old(state).calls[id];
              c.name !in old(state).active && Quiet(lock) && Quiet(write) && Quiet(commit) && !last.ended ==>
                r.Some? && ComparesAndAppends(old(state), state, c.name, c.expected, c.payload, r.value)
    {
      hide WasBusy, HoldsPayload, Run, Next, AttemptsAlone, ComparesAndAppends;
      ghost var c := state.calls[id];
      var error := AppendOnce(id, lock, write, commit);
      ghost var tried, attempted := trace, state;
      if error == Success || error == Conflicting {
        if AttemptsAlone(old(state), state, c, error) {
          AloneDecides(old(state), state, state, c, error);
        }
        return Some(if error == Success then Appended else Conflict);
      }
      if error == OutcomeUnknown {
        assert !AttemptsAlone(old(state), state, c, error) by { NeverUnknown(old(state), state, c); }
        var result := Resolve(id, last);
        return Some(result);
      }
      r := Classify(id, error.retryable, last.ended);
      if WasBusy(tried, |old(trace)|, c.name, id) {
        BusyStays(tried, trace, |old(trace)|, |old(trace)|, c.name, id);
      }
      if AttemptsAlone(old(state), attempted, c, error) {
        AloneDecides(old(state), attempted, state, c, error);
      }
    }

    /** A retryable error starts over while attempts remain and the context lives. */
    method Classify(id: CallId, retryable: bool, ended: bool) returns (r: Option<Result>)
      requires Valid() && id in state.calls && state.calls[id].attempt < ATTEMPTS
      requires state.calls[id].phase in {Ready, Locked} || (state.calls[id].phase == Written && retryable)
      modifies this
      ensures Valid() && old(trace) <= trace && SameTables(old(state), state)
      ensures var c := old(state).calls[id];
              var again := retryable && !ended && c.attempt + 1 < ATTEMPTS;
              && r == (if again then None else if ended then Some(ContextEnded) else Some(Failed))
              && id in state.calls
              && state.calls[id] ==
                 if again then c.(attempt := c.attempt + 1, phase := Ready)
                 else c.(phase := Returned(r.value, false))
    {
      hide Run, Next;
      var again := retryable && !ended && state.calls[id].attempt + 1 < ATTEMPTS;
      FailureEffect(state, id, retryable, ended);
      Perform(AttemptFailed(id, retryable, ended));
      if again {
        return None;
      }
      return Some(if ended then ContextEnded else Failed);
    }

    /** Others run. */
    method PerformAll(others: seq<Action>)
      requires Valid()
      modifies this
      ensures Valid() && trace == old(trace) + others
      ensures others == [] ==> state == old(state)
    {
      hide Next, Run;
      var i := 0;
      while i < |others|
        invariant i <= |others| && Valid() && trace == old(trace) + others[..i]
        invariant i == 0 ==> state == old(state)
      {
        Perform(others[i]);
        i := i + 1;
      }
    }

    /**
     Delete.  The statement fails when another transaction owns the committed scope row, or when its
     answer is lost, before or after it ran; then one read decides.  A nil error means that no record
     was committed at an instant of the call; an append that is still open may commit one afterwards.
     */
    method Delete(name: Name, statement: Turn, read: Turn) returns (r: Deletion)
      requires Valid()
      modifies this
      ensures Valid() && old(trace) <= trace
      ensures r == NotAName <==> !ValidName(name)
      ensures r == NotAName ==> trace == old(trace)
      ensures r == Gone ==> exists n :: |old(trace)| <= n <= |trace| && Log(Run(Init(), trace[..n]), name) == []
      ensures r == StillThere ==> name in state.scopes
      ensures r == Unknown ==> read.fails
      // The read decides only after a statement that failed or had to wait.
      ensures r == StillThere || r == Unknown ==>
                statement.fails || exists n :: |old(trace)| <= n <= |trace| && name in Run(Init(), trace[..n]).active
      ensures ValidName(name) && Quiet(statement) && name !in old(state).active ==> r == Gone && name !in state.scopes
      ensures statement.others == read.others == [] ==>
                forall other :: other != name ==> Log(state, other) == Log(old(state), other)
    {
      if !ValidName(name) {
        return NotAName;
      }
      PerformAll(statement.others);
      assert trace[..|trace|] == trace;
      ghost var sent := trace;
      var waits := name in state.scopes && name in state.active;
      var fails := statement.fails || waits;
      if !waits && (!statement.fails || statement.lost) {
        OtherLogsStay(state, name);
        Perform(LedgerProtocol.Delete(name));
      }
      assert trace[..|trace|] == trace;
      if !fails {
        return Gone;
      }
      PerformAll(read.others);
      assert trace[..|trace|] == trace && trace[..|sent|] == sent;
      if read.fails {
        return Unknown;
      }
      return if name in state.scopes then StillThere else Gone;
    }

    /** resolveAppend: one read, whose failure is ambiguous. */
    method Resolve(id: CallId, read: Turn) returns (result: Result)
      requires Valid() && id in state.calls && state.calls[id].phase == Unresolved && Foreign(read, id)
      modifies this
      ensures Valid() && old(trace) <= trace
      ensures id in state.calls && state.calls[id] == old(state).calls[id].(phase := Returned(result, true))
      ensures result in {Appended, Conflict, Ambiguous}
      ensures result == Appended <==> !read.fails && HoldsPayload(state, state.calls[id])
      ensures var c := state.calls[id];
              result == Ambiguous <==> read.fails || RecordKey(c.name, c.expected + 1) !in state.records
    {
      LetOthers(read.others, id);
      var c := state.calls[id];
      var key := RecordKey(c.name, c.expected + 1);
      if read.fails || key !in state.records {
        Perform(if read.fails then RereadFailed(id) else Reread(id));
        return Ambiguous;
      }
      Perform(Reread(id));
      return if state.records[key] == c.payload then Appended else Conflict;
    }
  }

  /** `StillThere` hands back the error of the failed statement. */
  datatype Deletion = Gone | StillThere | Unknown | NotAName

  /** A call between its locking read and its commit owns the scope row. */
  lemma StillOwned(trace: seq<Action>, id: CallId)
    requires var s := Run(Init(), trace); id in s.calls && s.calls[id].phase in {Locked, Written}
    ensures var s := Run(Init(), trace); OwnsLock(s, id, s.calls[id].name)
  {
    Reachable(trace);
    var s := Run(Init(), trace);
    assert CallOk(s, id, s.calls[id]);
  }

  lemma Definite(trace: seq<Action>, id: CallId)
    requires var s := Run(Init(), trace);
             id in s.calls && s.calls[id].phase.Returned?
             && (s.calls[id].phase.reread ==> !Forgotten(s.history, s.calls[id]))
    ensures var s := Run(Init(), trace);
            s.calls[id].phase.result !in {Appended, Ambiguous} ==> Clean(s, id, s.calls[id])
  {
    Reachable(trace);
    var s := Run(Init(), trace);
    assert CallOk(s, id, s.calls[id]);
  }

  lemma NotForgotten(before: seq<Action>, trace: seq<Action>, id: CallId)
    requires before <= trace && id in Run(Init(), trace).calls
    requires var c := Run(Init(), trace).calls[id];
             c.begunAt == |Run(Init(), before).history| && Delete(c.name) !in trace[|before|..]
    ensures !Forgotten(Run(Init(), trace).history, Run(Init(), trace).calls[id])
  {
    hide Run;
    assert trace == before + trace[|before|..];
    RunJoins(Init(), before, trace[|before|..]);
    DeletesAreActions(Run(Init(), before), trace[|before|..], Run(Init(), trace).calls[id].name);
  }

  // ---------------------------------------------------------------- reading

  datatype Record = Record(number: nat, payload: Bytes)

  /** What SELECT ... WHERE name = $1 AND seq >= $2 ORDER BY seq answers. */
  ghost predicate IsResultSet(s: State, name: Name, from: nat, rows: seq<Record>) {
    && (forall i :: 0 <= i < |rows| ==> rows[i].number >= from && RecordKey(name, rows[i].number) in s.records
                                        && s.records[RecordKey(name, rows[i].number)] == rows[i].payload)
    && (forall i, j :: 0 <= i < j < |rows| ==> rows[i].number < rows[j].number)
    && (forall k :: k in s.records && k.name == name && k.number >= from ==>
          exists i :: 0 <= i < |rows| && rows[i].number == k.number)
  }

  /** The suffix of a log that starts at sequence `from`. */
  function Suffix(entries: seq<Bytes>, from: nat): (rows: seq<Record>)
    requires from >= 1
    ensures |rows| == if from > |entries| then 0 else |entries| + 1 - from
  {
    seq(if from > |entries| then 0 else |entries| + 1 - from,
        (i: int) requires 0 <= i < |entries| + 1 - from => Record(from + i, entries[from + i - 1]))
  }

  /** Row i of a result set is the record numbered from + i. */
  lemma {:induction false} RowsAreContiguous(s: State, name: Name, from: nat, rows: seq<Record>, i: nat)
    requires Stores(s, name, Replay(s.history, name)) && from >= 1 && IsResultSet(s, name, from, rows) && i < |rows|
    ensures rows[i].number == from + i
  {
    hide Replay;
    if i > 0 {
      RowsAreContiguous(s, name, from, rows, i - 1);
    }
    if rows[i].number > from + i {
      assert RecordKey(name, rows[i].number) in s.records;
      assert RecordKey(name, from + i) in s.records;
      var j :| 0 <= j < |rows| && rows[j].number == from + i;
    }
  }

  lemma ResultSetIsSuffix(s: State, name: Name, from: nat, rows: seq<Record>)
    requires Inv(s) && from >= 1 && IsResultSet(s, name, from, rows)
    ensures rows == Suffix(Log(s, name), from)
  {
    hide Replay, CallOk, TransactionOk, EventOk;
    assert Stores(s, name, Replay(s.history, name));
    var all := Suffix(Log(s, name), from);
    forall i | 0 <= i < |rows| ensures rows[i].number == from + i && i < |all| && rows[i] == all[i] {
      RowsAreContiguous(s, name, from, rows, i);
    }
    var following := RecordKey(name, from + |rows|);
    assert following in s.records <==> following.number <= Tip(s, name);
    assert |rows| > 0 ==> rows[|rows| - 1].number == from + |rows| - 1;
    assert |rows| == |all|;
  }

  class Cursor {
    var records: seq<Record>
    var position: nat
    var closed: bool

    /** What later calls of Next will yield before EOF. */
    function Remaining(): seq<Record>
      reads this
    {
      if closed || position >= |records| then [] else records[position..]
    }

    constructor (fetched: seq<Record>)
      ensures Remaining() == fetched && !closed
    {
      records, position, closed := fetched, 0, false;
    }

    /** None is EOF, and once there is nothing left it is EOF forever. */
    method Next() returns (r: Option<Record>)
      modifies this
      ensures old(Remaining()) == [] ==> r == None && Remaining() == []
      ensures old(Remaining()) != [] ==> r == Some(old(Remaining())[0]) && Remaining() == old(Remaining())[1..]
      ensures closed == old(closed)
    {
      if closed || position >= |records| {
        return None;
      }
      r := Some(records[position]);
      position := position + 1;
    }

    method Close()
      modifies this
      ensures Remaining() == [] && closed
    {
      closed := true;
    }
  }

  /**
   Read: the fetched rows of one statement become a cursor over the log from `from` on; a failed
   fetch yields none.
   */
  method Read(s: State, name: Name, from: uint64, rows: seq<Record>, fails: Option<nat>) returns (c: Option<Cursor>)
    requires Inv(s) && IsResultSet(s, name, if from < 1 then 1 else from, rows)
    ensures c.Some? <==> ValidName(name) && (fails.None? || fails.value > |rows|)
    ensures c.Some? ==> fresh(c.value) && c.value.Remaining() == Suffix(Log(s, name), if from < 1 then 1 else from)
  {
    if !ValidName(name) {
      return None;
    }
    var start := from;
    if start < 1 {
      start := 1;
    }
    var records: seq<Record>, i := [], 0;
    while i < |rows|
      invariant i <= |rows| && records == rows[..i]
      invariant fails.Some? ==> fails.value >= i
    {
      if fails == Some(i) {
        return None;
      }
      records := records + [rows[i]];
      i := i + 1;
    }
    if fails == Some(i) {
      return None;
    }
    ResultSetIsSuffix(s, name, start, rows);
    var cursor := new Cursor(records);
    c := Some(cursor);
  }
}
