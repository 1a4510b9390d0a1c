/** What every step of the key-value table keeps: rows are the last versions, revisions count versions. */
module KeyValueSafety {
  import opened Common
  import opened KeyValueProtocol

  // ---------------------------------------------------------------- versions

  /** The entries written to a key since it was last deleted. */
  function Versions(history: seq<Event>, key: Key): seq<Entry>
    decreases |history|
  {
    if history == [] then []
    else
      var before, e := Versions(history[..|history| - 1], key), history[|history| - 1];
      if e.key != key then before else if e.Written? then before + [e.entry] else []
  }

  /** The stored row is the last version, and version k has revision k + 1. */
  ghost predicate Chain(rows: map<Key, Entry>, key: Key, versions: seq<Entry>) {
    && (key in rows <==> versions != [])
    && (key in rows ==> rows[key] == versions[|versions| - 1])
    && (forall k :: 0 <= k < |versions| ==> versions[k].revision == k + 1 <= MAX_INT64)
  }

  predicate IsWriteOf(e: Event, id: CallId) { e.Written? && e.owner == id }

  predicate WrittenBy(history: seq<Event>, id: CallId) {
    exists i :: 0 <= i < |history| && IsWriteOf(history[i], id)
  }

  /** The event that stores what the call asked for, whoever wrote it. */
  predicate IsRecordOf(e: Event, c: Call) { e.Written? && e.key == c.key && e.entry == Entry(c.expected + 1,
                       Blob(c.value)) }

  predicate Recorded(history: seq<Event>, c: Call) { exists i :: 0 <= i < |history| && IsRecordOf(history[i], c) }

  predicate Forgotten(history: seq<Event>, c: Call) {
    exists i :: c.begunAt <= i < |history| && history[i] == Deleted(c.key)
  }

  /** Nothing of this call has been written, and nothing of it can still be written. */
  predicate Clean(s: State, id: CallId) { !WrittenBy(s.history, id) && id !in s.inFlight }

  ghost predicate CallOk(s: State, id: CallId, c: Call) {
    && c.begunAt <= |s.history|
    && (id in s.inFlight ==> !WrittenBy(s.history, id))
    && match c.phase
       case Sent => id in s.inFlight
       case Executed(Wrote(r)) => id !in s.inFlight && r == c.expected + 1 && WrittenBy(s.history, id)
       case Executed(_) => Clean(s, id)
       case Unresolved => true
       case Returned(Stored(r), reread) =>
         r == c.expected + 1 && (if reread then Recorded(s.history, c) else WrittenBy(s.history, id))
       case Returned(r, reread) => reread || Clean(s, id)
  }

  /** A write carries what its call asked for and advanced exactly the revision that the call expected. */
  ghost predicate EventOk(history: seq<Event>, calls: map<CallId, Call>, i: nat)
    requires i < |history|
  {
    var e := history[i];
    e.Written? ==>
      && e.owner in calls
      && e.key == calls[e.owner].key
      && e.entry == Entry(calls[e.owner].expected + 1, Blob(calls[e.owner].value))
      && |Versions(history[..i], e.key)| == calls[e.owner].expected
      && calls[e.owner].begunAt <= i
      && forall j :: 0 <= j < |history| && IsWriteOf(history[j], e.owner) ==> j == i
  }

  ghost predicate Inv(s: State) {
    && (forall key :: Chain(s.rows, key, Versions(s.history, key)))
    && (forall id :: id in s.inFlight ==> id in s.calls)
    && (forall id :: id in s.calls ==> CallOk(s, id, s.calls[id]))
    && (forall i :: 0 <= i < |s.history| ==> EventOk(s.history, s.calls, i))
  }

  lemma Extend(history: seq<Event>, e: Event, key: Key, id: CallId)
    ensures Versions(history + [e], key) ==
            var before := Versions(history, key);
            if e.key != key then before else if e.Written? then before + [e.entry] else []
    ensures WrittenBy(history + [e], id) <==> WrittenBy(history, id) || IsWriteOf(e, id)
  {
    var h := history + [e];
    assert h[..|h| - 1] == history;
    if WrittenBy(history, id) {
      var i :| 0 <= i < |history| && IsWriteOf(history[i], id);
      assert IsWriteOf(h[i], id);
    }
    assert IsWriteOf(h[|history|], id) == IsWriteOf(e, id);
  }

  lemma RecordedStays(history: seq<Event>, e: Event, c: Call)
    requires Recorded(history, c)
    ensures Recorded(history + [e], c)
  {
    var i :| 0 <= i < |history| && IsRecordOf(history[i], c);
    assert IsRecordOf((history + [e])[i], c);
  }

  /** Every version was written by somebody. */
  lemma {:induction false} VersionWasWritten(history: seq<Event>, key: Key, k: nat) returns (i: nat)
    requires k < |Versions(history, key)|
    ensures i < |history| && history[i].Written? && history[i].key == key
    ensures history[i].entry == Versions(history, key)[k]
    decreases |history|
  {
    var n := |history| - 1;
    var before := Versions(history[..n], key);
    if history[n].key == key && k == |before| {
      i := n;
    } else {
      i := VersionWasWritten(history[..n], key, k);
    }
  }

  /** A reread that finds the value at expected + 1 finds somebody's write of it. */
  lemma FoundIsRecorded(s: State, id: CallId)
    requires Inv(s) && id in s.calls && Resolution(s.rows, s.calls[id]).Stored?
    ensures Recorded(s.history, s.calls[id])
  {
    hide CallOk, EventOk, Versions;
    var c := s.calls[id];
    ResolutionIsExact(s, id);
    var versions := Versions(s.history, c.key);
    assert Chain(s.rows, c.key, versions);
    var i := VersionWasWritten(s.history, c.key, |versions| - 1);
    assert IsRecordOf(s.history[i], c);
  }

  // ---------------------------------------------------------------- steps

  lemma EventsKept(s: State, e: Event, calls: map<CallId, Call>)
    requires Inv(s)
    requires forall id :: id in s.calls ==> id in calls && calls[id] == s.calls[id].(phase := calls[id].phase)
    requires e.Written? ==> !WrittenBy(s.history, e.owner)
    ensures forall i :: 0 <= i < |s.history| ==> EventOk(s.history + [e], calls, i)
    ensures forall i :: 0 <= i < |s.history| ==> EventOk(s.history, calls, i)
  {
    hide Versions, CallOk, Chain;
    var h := s.history + [e];
    forall i | 0 <= i < |s.history| ensures EventOk(h, calls, i) && EventOk(s.history, calls, i) {
      assert EventOk(s.history, s.calls, i);
      assert h[..i] == s.history[..i];
      if h[i].Written? {
        assert IsWriteOf(s.history[i], h[i].owner);
        forall j | 0 <= j < |h| && IsWriteOf(h[j], h[i].owner) ensures j == i {
          if j < |s.history| {
            assert IsWriteOf(s.history[j], h[i].owner);
          }
        }
      }
    }
  }

  /** A step of one call that writes nothing. */
  lemma QuietKeeps(s: State, s': State, id: CallId)
    requires Inv(s) && id in s.calls && s'.rows == s.rows && s'.history == s.history
    requires s'.inFlight == s.inFlight || s'.inFlight == s.inFlight - {id}
    requires id in s'.calls && s'.calls == s.calls[id := s.calls[id].(phase := s'.calls[id].phase)]
    requires CallOk(s', id, s'.calls[id])
    ensures Inv(s')
  {
    hide Versions, Chain;
    EventsKept(s, Deleted(""), s'.calls);
    hide EventOk;
    forall other | other in s'.calls ensures CallOk(s', other, s'.calls[other]) {
      if other != id {
        assert CallOk(s, other, s.calls[other]);
      }
    }
  }

  lemma WriteChain(s: State, id: CallId, key: Key)
    requires Inv(s) && id in s.calls && Statement(s.rows, s.calls[id]).Wrote?
    ensures var c := s.calls[id]; var entry := Entry(c.expected + 1, Blob(c.value));
            && Statement(s.rows, c) == Wrote(c.expected + 1) && |Versions(s.history, c.key)| == c.expected
            && Chain(s.rows[c.key := entry], key, Versions(s.history + [Written(id, c.key, entry)], key))
  {
    hide CallOk, EventOk, Versions;
    var c := s.calls[id];
    assert Chain(s.rows, c.key, Versions(s.history, c.key));
    assert Chain(s.rows, key, Versions(s.history, key));
    Extend(s.history, Written(id, c.key, Entry(c.expected + 1, Blob(c.value))), key, id);
  }

  lemma ExecuteKeeps(s: State, id: CallId)
    requires Inv(s) && id in s.calls
    ensures Inv(StepExecute(s, id, s.calls[id]))
  {
    hide Versions, Chain, Statement;
    var c := s.calls[id];
    var s', answer := StepExecute(s, id, c), Statement(s.rows, c);
    if id in s.inFlight {
      assert CallOk(s, id, c);
      if !answer.Wrote? {
        QuietKeeps(s, s', id);
      } else {
        var e := Written(id, c.key, Entry(c.expected + 1, Blob(c.value)));
        forall key ensures Chain(s'.rows, key, Versions(s'.history, key)) {
          WriteChain(s, id, key);
        }
        WriteChain(s, id, c.key);
        WriteEvents(s, s', id, e);
        WriteCalls(s, s', id, e);
      }
    }
  }

  lemma WriteEvents(s: State, s': State, id: CallId, e: Event)
    requires Inv(s) && id in s.calls && !WrittenBy(s.history, id)
    requires e == Written(id, s.calls[id].key, Entry(s.calls[id].expected + 1, Blob(s.calls[id].value)))
    requires |Versions(s.history, e.key)| == s.calls[id].expected
    requires s'.history == s.history + [e]
    requires id in s'.calls && s'.calls == s.calls[id := s.calls[id].(phase := s'.calls[id].phase)]
    ensures forall i :: 0 <= i < |s'.history| ==> EventOk(s'.history, s'.calls, i)
  {
    hide Versions, Chain;
    EventsKept(s, e, s'.calls);
    assert CallOk(s, id, s.calls[id]);
    var n := |s.history|;
    assert s'.history[..n] == s.history;
    assert forall j :: 0 <= j < n ==> !IsWriteOf(s.history[j], id);
    assert EventOk(s'.history, s'.calls, n);
  }

  lemma WriteCalls(s: State, s': State, id: CallId, e: Event)
    requires Inv(s) && id in s.inFlight && s'.inFlight == s.inFlight - {id} && IsWriteOf(e, id)
    requires s'.history == s.history + [e] && id in s'.calls
    requires var c := s.calls[id];
             var phase := if c.phase == Sent then Executed(Wrote(c.expected + 1)) else c.phase;
             s'.calls == s.calls[id := c.(phase := phase)]
    ensures forall other :: other in s'.calls ==> CallOk(s', other, s'.calls[other])
  {
    hide Versions, Chain, EventOk;
    forall other | other in s'.calls ensures CallOk(s', other, s'.calls[other]) {
      assert CallOk(s, other, s.calls[other]);
      Extend(s.history, e, e.key, other);
      if Recorded(s.history, s.calls[other]) {
        RecordedStays(s.history, e, s.calls[other]);
      }
    }
  }

  lemma DeleteKeeps(s: State, deleted: Key)
    requires Inv(s)
    ensures Inv(Next(s, Delete(deleted)))
  {
    hide Versions;
    var s', e := Next(s, Delete(deleted)), Deleted(deleted);
    EventsKept(s, e, s.calls);
    hide EventOk;
    forall key ensures Chain(s'.rows, key, Versions(s'.history, key)) {
      Extend(s.history, e, key, 0);
      assert Chain(s.rows, key, Versions(s.history, key));
    }
    forall id | id in s'.calls ensures CallOk(s', id, s'.calls[id]) {
      assert CallOk(s, id, s.calls[id]);
      Extend(s.history, e, deleted, id);
      if Recorded(s.history, s.calls[id]) {
        RecordedStays(s.history, e, s.calls[id]);
      }
    }
  }

  lemma BeginKeeps(s: State, a: Action)
    requires Inv(s) && a.Put? && a.id !in s.calls
    ensures Inv(Next(s, a))
  {
    hide Versions, Chain;
    var s' := Next(s, a);
    EventsKept(s, Deleted(""), s'.calls);
    assert !WrittenBy(s.history, a.id) by {
      forall i | 0 <= i < |s.history| ensures !IsWriteOf(s.history[i], a.id) {
        assert EventOk(s.history, s.calls, i);
      }
    }
    forall id | id in s'.calls ensures CallOk(s', id, s'.calls[id]) {
      if id != a.id {
        assert CallOk(s, id, s.calls[id]);
      }
    }
  }

  /** The wrapped sum is never a stored revision unless it is the true sum. */
  lemma ResolutionIsExact(s: State, id: CallId)
    requires Inv(s) && id in s.calls
    ensures var c := s.calls[id];
            Resolution(s.rows, c).Stored? <==> c.key in s.rows && s.rows[c.key] == Entry(c.expected + 1, Blob(c.value))
    ensures var r := Resolution(s.rows, s.calls[id]); r.Stored? ==> r.revision == s.calls[id].expected + 1
  {
    hide Versions, CallOk, EventOk;
    var c := s.calls[id];
    assert Chain(s.rows, c.key, Versions(s.history, c.key));
  }

  lemma CallStepKeeps(s: State, a: Action)
    requires Inv(s) && !a.Put? && !a.Delete? && !a.Execute? && a.id in s.calls
    ensures Inv(Next(s, a))
  {
    hide Versions, Chain, EventOk, Resolution;
    var s' := Next(s, a);
    assert CallOk(s, a.id, s.calls[a.id]);
    ResolutionIsExact(s, a.id);
    if Resolution(s.rows, s.calls[a.id]).Stored? {
      FoundIsRecorded(s, a.id);
    }
    if s' != s {
      assert s'.calls == s.calls[a.id := s.calls[a.id].(phase := s'.calls[a.id].phase)];
      QuietKeeps(s, s', a.id);
    }
  }

  lemma NextKeeps(s: State, a: Action)
    requires Inv(s)
    ensures Inv(Next(s, a))
  {
    hide Inv;
    match a
    case Put(id, _, _, _) => if id !in s.calls { BeginKeeps(s, a); }
    case Delete(key) => DeleteKeeps(s, key);
    case Execute(id) => if id in s.calls { ExecuteKeeps(s, id); }
    case _ => if a.id in s.calls { CallStepKeeps(s, a); }
  }

  lemma {:induction false} RunKeeps(s: State, actions: seq<Action>)
    requires Inv(s)
    ensures Inv(Run(s, actions))
    decreases |actions|
  {
    hide Inv, Next;
    if actions != [] {
      RunKeeps(s, actions[..|actions| - 1]);
      NextKeeps(Run(s, actions[..|actions| - 1]), actions[|actions| - 1]);
    }
  }

  lemma Reachable(actions: seq<Action>)
    ensures Inv(Run(Init(), actions))
  {
    RunKeeps(Init(), actions);
  }
}
