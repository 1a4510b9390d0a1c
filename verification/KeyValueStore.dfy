/** Get, Put and Delete of the key-value table as they run, against the state machine and its invariant. */
module KeyValueStore {
  import opened Common
  import opened KeyValueProtocol
  import opened KeyValueSafety
  import opened KeyValueTheorems

  /** What surrounds a statement: the actions of others before it, and whether its answer arrives. */
  datatype Turn = Turn(others: seq<Action>, lost: bool, executedFirst: bool)

  datatype Reading = Found(entry: Entry) | Absent | Unreadable | BadKey

  /** `StillThere` hands back the error of the lost statement. */
  datatype Deletion = Gone | StillThere | Unknown | NotAKey

  /** The action is a step of call `id`. */
  predicate ActsFor(a: Action, id: CallId) { !a.Delete? && a.id == id }

  ghost predicate Foreign(turn: Turn, id: CallId) { forall a :: a in turn.others ==> !ActsFor(a, id) }

  /** A nil value is stored as an empty one. */
  function EntryFor(expected: nat, value: Option<Bytes>): Entry {
    Entry(expected + 1, match value case None => [] case Some(bytes) => bytes)
  }

  /** Nobody else acts before the statement, and it is answered. */
  predicate Quiet(turn: Turn) { turn.others == [] && !turn.lost }

  /** What Put does when it is left alone, and what it answers; revisions beyond bigint cannot be written. */
  ghost predicate ComparesAndPuts(s: State, s': State, key: Key, expected: nat, value: Option<Bytes>, result: Result) {
    && (result.Stored? <==> Expects(s.rows, key, expected) && expected < MAX_INT64)
    && (result.Stored? ==> result.revision == expected + 1 && s'.rows == s.rows[key := EntryFor(expected, value)])
    && (!result.Stored? ==> s'.rows == s.rows)
    && (result == Conflict <==> !Expects(s.rows, key, expected) && (expected <= MAX_INT64 || key in s.rows))
    && (result == Cause <==> expected >= MAX_INT64
                             && if expected > MAX_INT64 then key !in s.rows else Expects(s.rows, key, expected))
  }

  /** At an instant of the run the call was under way and its key held the entry. */
  ghost predicate WasHeld(trace: seq<Action>, id: CallId, key: Key, entry: Entry) {
    exists k :: 0 <= k <= |trace| && HeldDuring(Run(Init(), trace[..k]), id, key, entry)
  }

  lemma OthersLeaveCall(s: State, a: Action, id: CallId)
    requires id in s.calls && !ActsFor(a, id)
    ensures id in Next(s, a).calls && Next(s, a).calls[id] == s.calls[id]
    ensures id in Next(s, a).inFlight <==> id in s.inFlight
  {
  }

  lemma RefusalIsClean(trace: seq<Action>, id: CallId)
    requires id in Run(Init(), trace).calls
    ensures var s := Run(Init(), trace);
            s.calls[id].phase.Returned? && !s.calls[id].phase.reread && !s.calls[id].phase.result.Stored? ==>
                Clean(s, id)
  {
    hide Run;
    Reachable(trace);
    assert CallOk(Run(Init(), trace), id, Run(Init(), trace).calls[id]);
  }

  lemma ExecuteAndReply(s: State, id: CallId)
    requires id in s.calls && id in s.inFlight && s.calls[id].phase == Sent
    ensures var s', c := Next(Next(s, Execute(id)), Reply(id)), s.calls[id];
            && id in s'.calls && s'.calls[id] == c.(phase := s'.calls[id].phase)
            && if Expects(s.rows, c.key, c.expected) && c.expected < MAX_INT64 then
                 && s'.calls[id].phase == Returned(Stored(c.expected + 1), false)
                 && s'.rows == s.rows[c.key := EntryFor(c.expected, c.value)]
               else
                 && s'.rows == s.rows
                 && s'.calls[id].phase ==
                    if c.expected > MAX_INT64 || Expects(s.rows, c.key, c.expected) then Unresolved
                                          else Returned(Conflict, false)
  {
  }

  /** A stored revision is positive and within bigint. */
  lemma RevisionsFit(trace: seq<Action>, key: Key)
    ensures var rows := Run(Init(), trace).rows; key in rows ==> 0 < rows[key].revision <= MAX_INT64
  {
    hide Run, Versions, CallOk, EventOk;
    Reachable(trace);
    assert Chain(Run(Init(), trace).rows, key, Versions(Run(Init(), trace).history, key));
  }

  lemma HeldAt(trace: seq<Action>, k: nat, id: CallId, key: Key, entry: Entry)
    requires k <= |trace| && HeldDuring(Run(Init(), trace[..k]), id, key, entry)
    ensures WasHeld(trace, id, key, entry)
  {
  }

  class Store {
    var state: State
    ghost var trace: seq<Action>

    /** The table is what a run of the machine produced. */
    ghost predicate Valid()
      reads this
    {
      state == Run(Init(), trace)
    }

    constructor ()
      ensures Valid() && trace == []
    {
      state := Init();
      trace := [];
    }

    method Perform(a: Action)
      requires Valid()
      modifies this
      ensures Valid() && trace == old(trace) + [a] && state == Next(old(state), a)
    {
      state := Next(state, a);
      trace := trace + [a];
      assert trace[..|trace| - 1] == old(trace);
    }

    /** Other clients run; the call is not touched. */
    method LetOthers(others: seq<Action>, id: CallId)
      requires Valid() && id in state.calls && forall a :: a in others ==> !ActsFor(a, id)
      modifies this
      ensures Valid() && trace == old(trace) + others
      ensures id in state.calls && state.calls[id] == old(state).calls[id]
      ensures id in state.inFlight <==> id in old(state).inFlight
      ensures others == [] ==> state == old(state)
    {
      var i := 0;
      while i < |others|
        invariant i <= |others|
        invariant Valid() && trace == old(trace) + others[..i]
        invariant id in state.calls && state.calls[id] == old(state).calls[id]
        invariant id in state.inFlight <==> id in old(state).inFlight
        invariant i == 0 ==> state == old(state)
      {
        OthersLeaveCall(state, others[i], id);
        Perform(others[i]);
        i := i + 1;
      }
    }

    /** Others run. */
    method PerformAll(others: seq<Action>)
      requires Valid()
      modifies this
      ensures Valid() && trace == old(trace) + others
      ensures others == [] ==> state == old(state)
    {
      hide Next, Run;
      var i := 0;
      while i < |others|
        invariant i <= |others| && Valid() && trace == old(trace) + others[..i]
        invariant i == 0 ==> state == old(state)
      {
        Perform(others[i]);
        i := i + 1;
      }
    }

    /** Get: the last version, or why there is none. */
    method Get(key: Key, fails: bool) returns (r: Reading)
      requires Valid()
      ensures r == BadKey <==> !ValidName(key)
      ensures r == Unreadable <==> ValidName(key) && fails
      ensures r == Absent <==> ValidName(key) && !fails && Versions(state.history, key) == []
      ensures r.Found? ==> var versions := Versions(state.history, key);
                           versions != [] && r.entry == versions[|versions| - 1] && r.entry.revision == |versions|
    {
      if !ValidName(key) {
        return BadKey;
      }
      if fails {
        return Unreadable;
      }
      Reachable(trace);
      assert Chain(state.rows, key, Versions(state.history, key));
      return if key in state.rows then Found(state.rows[key]) else Absent;
    }

    /**
     Delete.  The statement is answered, or its answer is lost before or after it ran and one read
     decides; a nil error means that the key was absent at an instant of the call.
     */
    method Delete(key: Key, statement: Turn, read: Turn) returns (r: Deletion)
      requires Valid()
      modifies this
      ensures Valid() && old(trace) <= trace
      ensures r == NotAKey <==> !ValidName(key)
      ensures r == NotAKey ==> trace == old(trace)
      ensures r == Gone ==> exists n :: |old(trace)| <= n <= |trace| && key !in Run(Init(), trace[..n]).rows
      ensures ValidName(key) && Quiet(statement) ==> r == Gone && key !in state.rows
      ensures r == StillThere ==> statement.lost && key in state.rows
      ensures r == Unknown ==> statement.lost && read.lost
      ensures statement.others == read.others == [] ==>
                forall k :: k != key ==>
                    (k in state.rows <==> k in old(state).rows)
                    && (k in state.rows ==> state.rows[k] == old(state).rows[k])
    {
      if !ValidName(key) {
        return NotAKey;
      }
      PerformAll(statement.others);
      if !statement.lost || statement.executedFirst {
        Perform(KeyValueProtocol.Delete(key));
      }
      if !statement.lost {
        assert trace[..|trace|] == trace;
        return Gone;
      }
      PerformAll(read.others);
      if read.lost {
        return Unknown;
      }
      if key in state.rows {
        return StillThere;
      }
      assert trace[..|trace|] == trace;
      return Gone;
    }

    /** putOnce: the statement runs and is answered, or its answer is lost, before or after it ran. */
    method PutOnce(id: CallId, turn: Turn)
      requires Valid() && id in state.calls && id in state.inFlight && state.calls[id].phase == Sent
      requires Foreign(turn, id)
      modifies this
      ensures Valid() && old(trace) <= trace
      ensures id in state.calls && state.calls[id] == old(state).calls[id].(phase := state.calls[id].phase)
      ensures turn.lost ==> state.calls[id].phase == Unresolved
      ensures !turn.lost ==> match state.calls[id].phase
                             case Unresolved => id !in state.inFlight
                             case Returned(r, reread) => !reread && (r == Conflict || r.Stored?)
                             case _ => false
      ensures Quiet(turn) ==>
                var c, rows := old(state).calls[id], old(state).rows;
                if Expects(rows, c.key, c.expected) && c.expected < MAX_INT64 then
                  && state.calls[id].phase == Returned(Stored(c.expected + 1), false)
                  && state.rows == rows[c.key := EntryFor(c.expected, c.value)]
                else
                  && state.rows == rows
                  && state.calls[id].phase ==
                     if c.expected > MAX_INT64 || Expects(rows, c.key, c.expected) then Unresolved
                     else Returned(Conflict, false)
    {
      hide Run;
      LetOthers(turn.others, id);
      if turn.lost {
        if turn.executedFirst {
          Perform(Execute(id));
        }
        Perform(Lose(id));
      } else {
        ExecuteAndReply(state, id);
        Perform(Execute(id));
        Perform(Reply(id));
      }
    }

    /** Put: a definite answer is returned, everything else is resolved by one read. */
    method Put(id: CallId, key: Key, expected: uint64, value: Option<Bytes>, statement: Turn, read: Turn)
      returns (result: Result)
      requires Valid() && id !in state.calls
      requires Foreign(statement, id) && Foreign(read, id)
      modifies this
      ensures Valid() && old(trace) <= trace
      ensures HasReturned(state, id, result)
      ensures var c := state.calls[id]; c.key == key && c.expected == expected && c.value == value
      ensures result.Stored? ==> result.revision == expected + 1
                                 && WasHeld(trace, id, key, Entry(expected + 1, Blob(value)))
      ensures !state.calls[id].phase.reread && !result.Stored? ==> Clean(state, id)
      ensures state.calls[id].phase.reread && !statement.lost ==> id !in state.inFlight
      ensures result == InvalidName <==> !ValidName(key)
      ensures result == Failed ==> read.lost
      ensures ValidName(key) && Quiet(statement) && Quiet(read) ==>
                ComparesAndPuts(old(state), state, key, expected, value, result)
    {
      hide Run, Clean, HeldDuring, WasHeld;
      Perform(KeyValueProtocol.Put(id, key, expected, value));
      if !ValidName(key) {
        RefusalIsClean(trace, id);
        return InvalidName;
      }
      PutOnce(id, statement);
      if state.calls[id].phase.Returned? {
        result := state.calls[id].phase.result;
      } else {
        result := Resolve(id, read);
      }
      RefusalIsClean(trace, id);
      RevisionsFit(old(trace), key);
      if result.Stored? {
        ghost var k := SuccessWasHeld(trace, id);
        assert WasHeld(trace, id, key, Entry(expected + 1, Blob(value))) by {
          HeldAt(trace, k, id, key, Entry(expected + 1, Blob(value)));
        }
      }
    }

    /** resolvePut, in the order of its branches. */
    method Resolve(id: CallId, read: Turn) returns (result: Result)
      requires Valid() && id in state.calls && state.calls[id].phase == Unresolved && Foreign(read, id)
      modifies this
      ensures Valid() && old(trace) <= trace
      ensures id in state.calls && state.calls[id] == old(state).calls[id].(phase := Returned(result, true))
      ensures result != InvalidName && (id in old(state).inFlight <==> id in state.inFlight)
      ensures result == Failed <==> read.lost
      ensures !read.lost ==>
                var c := state.calls[id];
                && (result == Cause <==> c.key !in state.rows || state.rows[c.key].revision == c.expected)
                && (result.Stored? <==> c.key in state.rows && state.rows[c.key] == EntryFor(c.expected, c.value))
                && (result.Stored? ==> result.revision == c.expected + 1)
      ensures read.others == [] ==> state.rows == old(state).rows
    {
      LetOthers(read.others, id);
      RevisionsFit(trace, state.calls[id].key);
      var c := state.calls[id];
      if read.lost {
        Perform(RereadFailed(id));
        return Failed;
      }
      var present := c.key in state.rows;
      var revision := if present then state.rows[c.key].revision else 0;
      Perform(Reread(id));
      if present && revision == (c.expected + 1) % (MAX_UINT64 + 1) && state.rows[c.key].value == Blob(c.value) {
        return Stored(revision);
      }
      if !present || revision == c.expected {
        return Cause;
      }
      return Conflict;
    }
  }
}
