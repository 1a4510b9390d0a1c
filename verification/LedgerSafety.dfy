/** What every step of the ledger keeps: the tables are the replayed history, and calls and locks agree with it. */
module LedgerSafety {
  import opened Common
  import opened LedgerProtocol

  // ---------------------------------------------------------------- the log as a sequence

  /** The simple ledger: a sequence of payloads, extended by commits and emptied by deletes. */
  function Replay(history: seq<Event>, name: Name): seq<Bytes>
    decreases |history|
  {
    if history == [] then []
    else
      var before, e := Replay(history[..|history| - 1], name), history[|history| - 1];
      if e.name != name then before else if e.Committed? then before + [e.payload] else []
  }

  /** The stored rows of a name are the records 1 up to its tip, and nothing else. */
  ghost predicate Stores(s: State, name: Name, entries: seq<Bytes>) {
    && Tip(s, name) == |entries|
    && (forall k: RecordKey :: k.name == name ==> (k in s.records <==> 1 <= k.number <= |entries|))
    && (forall k: RecordKey :: k.name == name && k in s.records ==> s.records[k] == entries[k.number - 1])
  }

  predicate IsCommitOf(e: Event, id: CallId) { e.Committed? && e.owner == id }

  predicate CommittedBy(history: seq<Event>, id: CallId) {
    exists i :: 0 <= i < |history| && IsCommitOf(history[i], id)
  }

  /** A delete of the call's name took effect after the call began. */
  predicate Forgotten(history: seq<Event>, c: Call) {
    exists i :: c.begunAt <= i < |history| && history[i] == Deleted(c.name)
  }

  /** The event that stores what the call asked for, whoever committed it. */
  predicate IsRecordOf(e: Event, c: Call) {
    e.Committed? && e.name == c.name && e.number == c.expected + 1 && e.payload == c.payload
  }

  predicate Recorded(history: seq<Event>, c: Call) { exists i :: 0 <= i < |history| && IsRecordOf(history[i], c) }

  // ---------------------------------------------------------------- invariant

  /** Nothing of this call is stored, and nothing of it can still be stored. */
  predicate Clean(s: State, id: CallId, c: Call) { !CommittedBy(s.history, id) && !OwnsLock(s, id, c.name) }

  ghost predicate CallOk(s: State, id: CallId, c: Call) {
    && c.begunAt <= |s.history|
    && c.attempt < ATTEMPTS
    && match c.phase
       case Ready => Clean(s, id, c)
       case Locked => OwnsLock(s, id, c.name)
       case Written => OwnsLock(s, id, c.name)
       case Unresolved => true
       case Returned(Ambiguous, reread) => reread
       case Returned(Appended, reread) =>
         !OwnsLock(s, id, c.name) && (if reread then Recorded(s.history, c) else CommittedBy(s.history, id))
       case Returned(r, reread) =>
         Clean(s, id, c) || (r == Conflict && reread && !OwnsLock(s, id, c.name) && Forgotten(s.history, c))
  }

  predicate PhaseOfOwner(t: Transaction, phase: Phase) {
    if t.abandoned then t.written && (phase == Unresolved || phase == Returned(Ambiguous, true))
    else phase == if t.written then Written else Locked
  }

  /** The owner of a scope row still has the tip it checked. */
  ghost predicate TransactionOk(s: State, name: Name, t: Transaction) {
    && t.owner in s.calls
    && s.calls[t.owner].name == name
    && s.calls[t.owner].expected == Tip(s, name)
    && (t.written ==> s.calls[t.owner].expected < MAX_INT64)
    && !CommittedBy(s.history, t.owner)
    && PhaseOfOwner(t, s.calls[t.owner].phase)
  }

  /** A committed event carries what its call asked for, and extended the log it was committed to. */
  ghost predicate EventOk(history: seq<Event>, calls: map<CallId, Call>, i: nat)
    requires i < |history|
  {
    var e := history[i];
    e.Committed? ==>
      && e.owner in calls
      && e.name == calls[e.owner].name
      && e.number == calls[e.owner].expected + 1
      && e.payload == calls[e.owner].payload
      && e.number == |Replay(history[..i], e.name)| + 1
      && calls[e.owner].begunAt <= i
      && forall j :: 0 <= j < |history| && IsCommitOf(history[j], e.owner) ==> j == i
  }

  ghost predicate Inv(s: State) {
    && (forall name :: Stores(s, name, Replay(s.history, name)))
    && (forall name :: name in s.active ==> TransactionOk(s, name, s.active[name]))
    && (forall id :: id in s.calls ==> CallOk(s, id, s.calls[id]))
    && (forall i :: 0 <= i < |s.history| ==> EventOk(s.history, s.calls, i))
  }

  // ---------------------------------------------------------------- histories

  lemma Extend(history: seq<Event>, e: Event, name: Name, id: CallId)
    ensures Replay(history + [e], name) ==
            var before := Replay(history, name);
            if e.name != name then before else if e.Committed? then before + [e.payload] else []
    ensures CommittedBy(history + [e], id) <==> CommittedBy(history, id) || IsCommitOf(e, id)
  {
    var h := history + [e];
    assert h[..|h| - 1] == history;
    if CommittedBy(history, id) {
      var i :| 0 <= i < |history| && IsCommitOf(history[i], id);
      assert IsCommitOf(h[i], id);
    }
    assert IsCommitOf(h[|history|], id) == IsCommitOf(e, id);
  }

  lemma ForgottenStays(history: seq<Event>, e: Event, c: Call)
    requires Forgotten(history, c)
    ensures Forgotten(history + [e], c)
  {
    var i :| c.begunAt <= i < |history| && history[i] == Deleted(c.name);
    assert (history + [e])[i] == Deleted(c.name);
  }

  lemma RecordedStays(history: seq<Event>, e: Event, c: Call)
    requires Recorded(history, c)
    ensures Recorded(history + [e], c)
  {
    var i :| 0 <= i < |history| && IsRecordOf(history[i], c);
    assert IsRecordOf((history + [e])[i], c);
  }

  /** Every entry of the log was committed under its sequence. */
  lemma {:induction false} EntryWasCommitted(history: seq<Event>, calls: map<CallId, Call>, n: nat, name: Name, k: nat)
    returns (i: nat)
    requires n <= |history| && k < |Replay(history[..n], name)|
    requires forall j :: 0 <= j < |history| ==> EventOk(history, calls, j)
    ensures i < n && history[i].Committed? && history[i].name == name && history[i].number == k + 1
    ensures history[i].payload == Replay(history[..n], name)[k]
  {
    assert history[..n][..n - 1] == history[..n - 1];
    var before, e := Replay(history[..n - 1], name), history[n - 1];
    if e.name == name && k == |before| {
      i := n - 1;
      assert EventOk(history, calls, i);
    } else {
      i := EntryWasCommitted(history, calls, n - 1, name, k);
    }
  }

  /** A reread that finds the payload finds the record of somebody's commit. */
  lemma FoundIsRecorded(s: State, c: Call)
    requires Inv(s) && Resolution(s, c) == Appended
    ensures Recorded(s.history, c)
  {
    hide CallOk, TransactionOk, EventOk, Replay;
    assert Stores(s, c.name, Replay(s.history, c.name));
    assert s.history[..|s.history|] == s.history;
    var i := EntryWasCommitted(s.history, s.calls, |s.history|, c.name, c.expected);
    assert IsRecordOf(s.history[i], c);
  }

  /** What is committed stays in the log, at its place, until its name is deleted. */
  lemma {:induction false} ReplayKeeps(history: seq<Event>, i: nat)
    requires i < |history| && history[i].Committed?
    requires history[i].number == |Replay(history[..i], history[i].name)| + 1
    requires forall j :: i < j < |history| ==> history[j] != Deleted(history[i].name)
    ensures |Replay(history, history[i].name)| >= history[i].number
    ensures Replay(history, history[i].name)[history[i].number - 1] == history[i].payload
    decreases |history|
  {
    var before := history[..|history| - 1];
    if i < |before| {
      assert before[..i] == history[..i];
      ReplayKeeps(before, i);
    } else {
      assert history[..i] == before;
    }
  }

  // ---------------------------------------------------------------- steps that commit nothing

  /** The calls of s' are those of s, with other phases and perhaps more of them. */
  ghost predicate SameCalls(s: State, s': State) {
    forall id :: id in s.calls ==>
      id in s'.calls && s'.calls[id] == s.calls[id].(phase := s'.calls[id].phase, attempt := s'.calls[id].attempt)
  }

  ghost predicate SameTables(s: State, s': State) {
    s'.scopes == s.scopes && s'.records == s.records && s'.history == s.history
  }

  lemma TablesKept(s: State, s': State)
    requires Inv(s) && SameTables(s, s') && SameCalls(s, s')
    ensures forall name :: Stores(s', name, Replay(s'.history, name))
    ensures forall i :: 0 <= i < |s'.history| ==> EventOk(s'.history, s'.calls, i)
  {
    hide Replay, CallOk, TransactionOk;
    forall name ensures Stores(s', name, Replay(s'.history, name)) {
      assert Stores(s, name, Replay(s.history, name));
    }
    forall i | 0 <= i < |s'.history| ensures EventOk(s'.history, s'.calls, i) {
      assert EventOk(s.history, s.calls, i);
    }
  }

  /** A step of one call that commits nothing keeps the facts about every other call. */
  ghost predicate OnlyMoves(s: State, s': State, id: CallId) {
    && SameTables(s, s') && SameCalls(s, s')
    && id in s.calls
    && s'.calls == s.calls[id := s'.calls[id]]
    && (s'.active == s.active || s'.active == s.active - {s.calls[id].name}
        || (s.calls[id].name in s'.active && s'.active[s.calls[id].name].owner == id
            && s'.active == s.active[s.calls[id].name := s'.active[s.calls[id].name]]))
  }

  lemma OtherCallKept(s: State, s': State, id: CallId, other: CallId)
    requires OnlyMoves(s, s', id) && other in s.calls && other != id && CallOk(s, other, s.calls[other])
    requires s.calls[id].name in s.active && s'.active != s.active ==> s.active[s.calls[id].name].owner == id
    ensures CallOk(s', other, s'.calls[other])
  {
    hide CommittedBy, Forgotten, Recorded;
  }

  lemma OtherTransactionKept(s: State, s': State, id: CallId, name: Name)
    requires OnlyMoves(s, s', id) && name in s.active && TransactionOk(s, name, s.active[name])
    requires name in s'.active && s'.active[name] == s.active[name] && s'.active[name].owner != id
    ensures TransactionOk(s', name, s'.active[name])
  {
  }

  lemma OthersKept(s: State, s': State, id: CallId)
    requires Inv(s) && OnlyMoves(s, s', id)
    requires s.calls[id].name in s.active && s'.active != s.active ==> s.active[s.calls[id].name].owner == id
    requires CallOk(s', id, s'.calls[id])
    requires OwnsLock(s', id, s.calls[id].name) ==> TransactionOk(s', s.calls[id].name, s'.active[s.calls[id].name])
    ensures Inv(s')
  {
    hide Replay, Stores, EventOk, CallOk;
    TablesKept(s, s');
    forall other | other in s'.calls ensures CallOk(s', other, s'.calls[other]) {
      if other != id {
        OtherCallKept(s, s', id, other);
      }
    }
    forall name | name in s'.active ensures TransactionOk(s', name, s'.active[name]) {
      if name != s.calls[id].name || s'.active[name].owner != id {
        assert TransactionOk(s, name, s.active[name]);
        OtherTransactionKept(s, s', id, name);
      }
    }
  }

  lemma ConflictKeeps(s: State, id: CallId)
    requires Inv(s) && id in s.calls && s.calls[id].phase == Ready
    ensures Inv(SetPhase(s, id, Returned(Conflict, false)))
  {
    hide Replay, Stores, EventOk;
    assert CallOk(s, id, s.calls[id]);
    OthersKept(s, SetPhase(s, id, Returned(Conflict, false)), id);
  }

  lemma LockKeeps(s: State, id: CallId)
    requires Inv(s) && id in s.calls
    ensures Inv(StepLock(s, id, s.calls[id]))
  {
    hide Replay, Stores, EventOk;
    var c := s.calls[id];
    if c.phase == Ready && c.name !in s.active {
      if Tip(s, c.name) != c.expected {
        ConflictKeeps(s, id);
      } else {
        assert CallOk(s, id, c);
        OthersKept(s, StepLock(s, id, c), id);
      }
    }
  }

  lemma FailedKeeps(s: State, id: CallId, retryable: bool, ended: bool)
    requires Inv(s) && id in s.calls && s.calls[id].phase in {Ready, Locked, Written}
    ensures Inv(StepFailed(s, id, s.calls[id], retryable, ended))
  {
    hide Replay, Stores, EventOk;
    var s' := StepFailed(s, id, s.calls[id], retryable, ended);
    assert CallOk(s, id, s.calls[id]);
    if s.calls[id].name in s.active {
      assert TransactionOk(s, s.calls[id].name, s.active[s.calls[id].name]);
    }
    OthersKept(s, s', id);
  }

  lemma WriteKeeps(s: State, id: CallId)
    requires Inv(s) && id in s.calls
    ensures Inv(StepWrite(s, id, s.calls[id]))
  {
    hide Replay, Stores, EventOk;
    var s' := StepWrite(s, id, s.calls[id]);
    if s.calls[id].phase == Locked && OwnsLock(s, id, s.calls[id].name) {
      assert TransactionOk(s, s.calls[id].name, s.active[s.calls[id].name]);
      if s'.calls[id].phase == Written {
        OthersKept(s, s', id);
      } else {
        FailedKeeps(s, id, false, false);
      }
    }
  }

  lemma CommitLostKeeps(s: State, id: CallId)
    requires Inv(s) && id in s.calls
    ensures Inv(StepCommit(s, id, s.calls[id], false))
  {
    hide Replay, Stores, EventOk;
    var s' := StepCommit(s, id, s.calls[id], false);
    if s' != s {
      assert TransactionOk(s, s.calls[id].name, s.active[s.calls[id].name]);
      OthersKept(s, s', id);
    }
  }

  /** A reread that finds another payload proves, unless the name was deleted, that nothing of the call is stored. */
  lemma ForeignRecordIsProof(s: State, id: CallId)
    requires Inv(s) && id in s.calls
    requires Resolution(s, s.calls[id]) != Ambiguous
    ensures !OwnsLock(s, id, s.calls[id].name)
    ensures Resolution(s, s.calls[id]) == Conflict ==> Clean(s, id, s.calls[id]) || Forgotten(s.history, s.calls[id])
  {
    hide CallOk, Replay;
    var c := s.calls[id];
    var key := RecordKey(c.name, c.expected + 1);
    assert Stores(s, c.name, Replay(s.history, c.name));
    assert c.name in s.active ==> TransactionOk(s, c.name, s.active[c.name]);
    if CommittedBy(s.history, id) && !Forgotten(s.history, c) {
      var i :| 0 <= i < |s.history| && IsCommitOf(s.history[i], id);
      assert EventOk(s.history, s.calls, i);
      ReplayKeeps(s.history, i);
    }
  }

  lemma RereadKeeps(s: State, id: CallId, answered: bool)
    requires Inv(s) && id in s.calls && s.calls[id].phase == Unresolved
    ensures Inv(SetPhase(s, id, Returned(if answered then Resolution(s, s.calls[id]) else Ambiguous, true)))
  {
    hide Replay, Stores, EventOk, Resolution;
    var r := if answered then Resolution(s, s.calls[id]) else Ambiguous;
    var s' := SetPhase(s, id, Returned(r, true));
    if r != Ambiguous {
      ForeignRecordIsProof(s, id);
    }
    if r == Appended {
      FoundIsRecorded(s, s.calls[id]);
    }
    assert CallOk(s, id, s.calls[id]);
    assert Resolution(s, s.calls[id]) in {Appended, Conflict, Ambiguous} by { ResolutionRange(s, s.calls[id]); }
    if OwnsLock(s, id, s.calls[id].name) {
      assert TransactionOk(s, s.calls[id].name, s.active[s.calls[id].name]);
    }
    OthersKept(s, s', id);
  }

  lemma ResolutionRange(s: State, c: Call)
    ensures Resolution(s, c) in {Appended, Conflict, Ambiguous}
  {
  }

  lemma BeginKeeps(s: State, a: Action)
    requires Inv(s) && a.Append? && a.id !in s.calls
    ensures Inv(Next(s, a))
  {
    hide Replay, Stores;
    var s' := Next(s, a);
    TablesKept(s, s');
    assert !CommittedBy(s.history, a.id) by {
      forall i | 0 <= i < |s.history| ensures !IsCommitOf(s.history[i], a.id) {
        assert EventOk(s.history, s.calls, i);
      }
    }
    forall id | id in s'.calls ensures CallOk(s', id, s'.calls[id]) {
      if id != a.id {
        assert CallOk(s, id, s.calls[id]);
      } else if a.name in s.active {
        assert TransactionOk(s, a.name, s.active[a.name]);
      }
    }
    forall name | name in s'.active ensures TransactionOk(s', name, s'.active[name]) {
      assert TransactionOk(s, name, s.active[name]);
    }
  }

  // ---------------------------------------------------------------- commits and deletes

  lemma EventsKept(s: State, e: Event, calls: map<CallId, Call>)
    requires Inv(s) && SameCalls(s, s.(calls := calls))
    requires e.Committed? ==> !CommittedBy(s.history, e.owner)
    ensures forall i :: 0 <= i < |s.history| ==> EventOk(s.history + [e], calls, i)
  {
    hide Replay, CallOk, TransactionOk, Stores;
    var h := s.history + [e];
    forall i | 0 <= i < |s.history| ensures EventOk(h, calls, i) {
      assert EventOk(s.history, s.calls, i);
      assert h[..i] == s.history[..i];
      if h[i].Committed? {
        assert IsCommitOf(s.history[i], h[i].owner);
        forall j | 0 <= j < |h| && IsCommitOf(h[j], h[i].owner) ensures j == i {
          if j < |s.history| {
            assert IsCommitOf(s.history[j], h[i].owner);
          }
        }
      }
    }
  }

  /** The commit of transaction `id`; the call may be waiting for it or long gone. */
  lemma LandStores(s: State, id: CallId, name: Name)
    requires Inv(s) && id in s.calls && OwnsLock(s, id, s.calls[id].name) && s.active[s.calls[id].name].written
    ensures var s' := Land(s, id, s.calls[id]); Stores(s', name, Replay(s'.history, name))
  {
    hide CallOk, Replay, EventOk;
    var c := s.calls[id];
    var s', e := Land(s, id, c), Committed(id, c.name, c.expected + 1, c.payload);
    assert TransactionOk(s, c.name, s.active[c.name]);
    Extend(s.history, e, name, id);
    assert Stores(s, name, Replay(s.history, name));
  }

  lemma LandEvent(s: State, id: CallId)
    requires Inv(s) && id in s.calls && OwnsLock(s, id, s.calls[id].name) && s.active[s.calls[id].name].written
    ensures var s' := Land(s, id, s.calls[id]); forall i :: 0 <= i < |s'.history| ==> EventOk(s'.history, s'.calls, i)
  {
    hide Replay;
    var c := s.calls[id];
    var s', e := Land(s, id, c), Committed(id, c.name, c.expected + 1, c.payload);
    assert TransactionOk(s, c.name, s.active[c.name]);
    assert CallOk(s, id, c);
    assert Stores(s, c.name, Replay(s.history, c.name));
    EventsKept(s, e, s.calls);
    var n := |s.history|;
    assert s'.history[..n] == s.history;
    assert forall j :: 0 <= j < n ==> !IsCommitOf(s.history[j], id);
    assert EventOk(s'.history, s'.calls, n);
  }

  /** Commits and deletes do not disturb the calls and transactions of others. */
  lemma BystanderKept(s: State, s': State, e: Event, id: CallId)
    requires Inv(s) && id in s.calls && s'.calls == s.calls
    requires s'.history == s.history + [e] && s'.active == s.active - {e.name}
    requires IsCommitOf(e, id) ==> s.calls[id].phase == Unresolved || s.calls[id].phase == Returned(Ambiguous, true)
    requires e.name in s.active ==> IsCommitOf(e, s.active[e.name].owner)
    ensures CallOk(s', id, s.calls[id])
  {
    hide Replay, Stores, EventOk;
    var c := s.calls[id];
    assert CallOk(s, id, c);
    Extend(s.history, e, c.name, id);
    if Forgotten(s.history, c) {
      ForgottenStays(s.history, e, c);
    }
    if Recorded(s.history, c) {
      RecordedStays(s.history, e, c);
    }
    hide CommittedBy, Forgotten, Recorded;
    if c.phase == Locked || c.phase == Written {
      assert c.name != e.name;
    }
  }

  lemma TransactionsKept(s: State, s': State, e: Event, name: Name)
    requires Inv(s) && name in s'.active
    requires s'.calls == s.calls && s'.history == s.history + [e] && s'.active == s.active - {e.name}
    requires Tip(s', name) == Tip(s, name)
    requires e.Committed? ==> e.owner in s.calls && s.calls[e.owner].name == e.name
    ensures TransactionOk(s', name, s'.active[name])
  {
    hide Replay, Stores, EventOk, CallOk;
    assert TransactionOk(s, name, s.active[name]);
    Extend(s.history, e, name, s.active[name].owner);
  }

  /** An abandoned transaction lands. */
  lemma LandKeeps(s: State, id: CallId)
    requires Inv(s) && id in s.calls && OwnsLock(s, id, s.calls[id].name) && s.active[s.calls[id].name].abandoned
    ensures Inv(Land(s, id, s.calls[id]))
  {
    hide Replay, Stores, EventOk, CallOk;
    var c := s.calls[id];
    var s', e := Land(s, id, c), Committed(id, c.name, c.expected + 1, c.payload);
    assert TransactionOk(s, c.name, s.active[c.name]);
    forall name ensures Stores(s', name, Replay(s'.history, name)) {
      LandStores(s, id, name);
    }
    LandEvent(s, id);
    forall other | other in s'.calls ensures CallOk(s', other, s'.calls[other]) {
      BystanderKept(s, s', e, other);
    }
    forall name | name in s'.active ensures TransactionOk(s', name, s'.active[name]) {
      TransactionsKept(s, s', e, name);
    }
  }

  /** An acknowledged commit is a lost one that lands before anyone looks. */
  lemma AcknowledgedIsLostAndLanded(s: State, id: CallId)
    requires id in s.calls && s.calls[id].phase == Written && OwnsLock(s, id, s.calls[id].name)
    ensures var lost := StepCommit(s, id, s.calls[id], false);
            StepCommit(s, id, s.calls[id], true) ==
                SetPhase(Land(lost, id, lost.calls[id]), id, Returned(Appended, false))
  {
    var c := s.calls[id];
    var lost := StepCommit(s, id, c, false);
    assert s.active - {c.name} == lost.active - {c.name};
    assert s.calls[id := c.(phase := Returned(Appended, false))] ==
             lost.calls[id := c.(phase := Returned(Appended, false))];
  }

  lemma CommitKeeps(s: State, id: CallId)
    requires Inv(s) && id in s.calls
    ensures Inv(StepCommit(s, id, s.calls[id], true))
  {
    hide Replay, Stores, EventOk, Inv;
    if s.calls[id].phase == Written && OwnsLock(s, id, s.calls[id].name) {
      var lost := StepCommit(s, id, s.calls[id], false);
      CommitLostKeeps(s, id);
      AcknowledgedIsLostAndLanded(s, id);
      LandKeeps(lost, id);
      Extend(lost.history, Committed(id, s.calls[id].name, s.calls[id].expected + 1, s.calls[id].payload),
             s.calls[id].name, id);
      AcknowledgeKeeps(Land(lost, id, lost.calls[id]), id);
    }
  }

  lemma AcknowledgeKeeps(s: State, id: CallId)
    requires Inv(s) && id in s.calls && s.calls[id].name !in s.active && s.calls[id].phase == Unresolved
    requires CommittedBy(s.history, id)
    ensures Inv(SetPhase(s, id, Returned(Appended, false)))
  {
    hide Replay, Stores, EventOk;
    assert CallOk(s, id, s.calls[id]);
    OthersKept(s, SetPhase(s, id, Returned(Appended, false)), id);
  }

  lemma SettleKeeps(s: State, name: Name, lands: bool)
    requires Inv(s)
    ensures Inv(StepSettle(s, name, lands))
  {
    hide Replay, Stores, EventOk, Land;
    if name in s.active && s.active[name].abandoned {
      assert TransactionOk(s, name, s.active[name]);
      var id := s.active[name].owner;
      if lands {
        LandKeeps(s, id);
      } else {
        assert CallOk(s, id, s.calls[id]);
        OthersKept(s, Unlock(s, name), id);
      }
    }
  }

  lemma DeleteStores(s: State, deleted: Name, name: Name)
    requires Inv(s) && deleted in s.scopes && deleted !in s.active
    ensures var s' := StepDelete(s, deleted); Stores(s', name, Replay(s'.history, name))
  {
    hide CallOk, Replay, EventOk;
    Extend(s.history, Deleted(deleted), name, 0);
    assert Stores(s, name, Replay(s.history, name));
  }

  lemma DeleteKeeps(s: State, deleted: Name)
    requires Inv(s)
    ensures Inv(StepDelete(s, deleted))
  {
    hide Replay, Stores, CallOk;
    if deleted in s.scopes && deleted !in s.active {
      var s', e := StepDelete(s, deleted), Deleted(deleted);
      assert s.active - {deleted} == s.active;
      forall name ensures Stores(s', name, Replay(s'.history, name)) {
        DeleteStores(s, deleted, name);
      }
      EventsKept(s, e, s.calls);
      forall other | other in s'.calls ensures CallOk(s', other, s'.calls[other]) {
        BystanderKept(s, s', e, other);
      }
      forall name | name in s'.active ensures TransactionOk(s', name, s'.active[name]) {
        TransactionsKept(s, s', e, name);
      }
    }
  }

  lemma NextKeeps(s: State, a: Action)
    requires Inv(s)
    ensures Inv(Next(s, a))
  {
    hide Inv;
    match a
    case Append(id, name, _, _) => if id !in s.calls { BeginKeeps(s, a); }
    case LockScope(id) => if id in s.calls { LockKeeps(s, id); }
    case WriteRecord(id) => if id in s.calls { WriteKeeps(s, id); }
    case AttemptFailed(id, retryable, ended) =>
      if id in s.calls && s.calls[id].phase in {Ready, Locked, Written} { FailedKeeps(s, id, retryable, ended); }
    case CommitAcknowledged(id) => if id in s.calls { CommitKeeps(s, id); }
    case CommitLost(id) => if id in s.calls { CommitLostKeeps(s, id); }
    case Settle(name, lands) => SettleKeeps(s, name, lands);
    case Reread(id) => if id in s.calls && s.calls[id].phase == Unresolved { RereadKeeps(s, id, true); }
    case RereadFailed(id) => if id in s.calls && s.calls[id].phase == Unresolved { RereadKeeps(s, id, false); }
    case Delete(name) => DeleteKeeps(s, name);
  }

  lemma {:induction false} RunKeeps(s: State, actions: seq<Action>)
    requires Inv(s)
    ensures Inv(Run(s, actions))
    decreases |actions|
  {
    hide Inv, Next;
    if actions != [] {
      RunKeeps(s, actions[..|actions| - 1]);
      NextKeeps(Run(s, actions[..|actions| - 1]), actions[|actions| - 1]);
    }
  }

  lemma Reachable(actions: seq<Action>)
    ensures Inv(Run(Init(), actions))
  {
    RunKeeps(Init(), actions);
  }
}
