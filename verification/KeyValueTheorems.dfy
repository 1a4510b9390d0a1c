/** The main results about the key-value table, over every run from an empty table. */
module KeyValueTheorems {
  import opened Common
  import opened KeyValueProtocol
  import opened KeyValueSafety

  // ---------------------------------------------------------------- the chain of revisions

  /**
   Between deletes the revisions of a key are 1, 2, 3, ...: the i-th event, a write, has the
   revision after those already written since the last delete, and the row is the last one.
   */
  lemma RevisionsAreConsecutive(actions: seq<Action>, i: nat, key: Key)
    requires i < |Run(Init(), actions).history|
    ensures var s := Run(Init(), actions);
            && (s.history[i].Written? ==>
                  s.history[i].entry.revision == |Versions(s.history[..i], s.history[i].key)| + 1)
            && Chain(s.rows, key, Versions(s.history, key))
  {
    hide Run, Versions, Chain;
    Reachable(actions);
    var s := Run(Init(), actions);
    assert EventOk(s.history, s.calls, i);
  }

  lemma {:induction false} VersionsGrow(history: seq<Event>, i: nat, key: Key)
    requires i <= |history| && forall k :: i <= k < |history| ==> history[k] != Deleted(key)
    ensures |Versions(history[..i], key)| <= |Versions(history, key)|
    decreases |history|
  {
    if i == |history| {
      assert history[..i] == history;
    } else {
      var before := history[..|history| - 1];
      assert before[..i] == history[..i];
      VersionsGrow(before, i, key);
    }
  }

  /** Between deletes no revision of a key has two writers: a later write has a greater revision. */
  lemma OneWriterPerRevision(actions: seq<Action>, i: nat, j: nat)
    requires var h := Run(Init(), actions).history;
             && i < j < |h| && h[i].Written? && h[j].Written? && h[i].key == h[j].key
             && forall k :: i < k < j ==> h[k] != Deleted(h[i].key)
    ensures var h := Run(Init(), actions).history; h[i].entry.revision < h[j].entry.revision
  {
    hide Run, Chain;
    var h := Run(Init(), actions).history;
    RevisionsAreConsecutive(actions, i, h[i].key);
    RevisionsAreConsecutive(actions, j, h[i].key);
    assert h[..i + 1][..i] == h[..i] && h[..j][..i + 1] == h[..i + 1];
    VersionsGrow(h[..j], i + 1, h[i].key);
  }

  /** One call writes at most once. */
  lemma OneWritePerCall(actions: seq<Action>, id: CallId, i: nat, j: nat)
    requires var h := Run(Init(), actions).history; i < |h| && j < |h| && IsWriteOf(h[i], id) && IsWriteOf(h[j], id)
    ensures i == j
  {
    hide Run, Versions, Chain, CallOk;
    Reachable(actions);
    var s := Run(Init(), actions);
    assert EventOk(s.history, s.calls, i);
  }

  // ---------------------------------------------------------------- outcomes

  predicate HasReturned(s: State, id: CallId, result: Result) {
    id in s.calls && s.calls[id].phase.Returned? && s.calls[id].phase.result == result
  }

  /** The call is under way and its key holds exactly what it asked to store. */
  predicate HeldDuring(s: State, id: CallId, key: Key, entry: Entry) {
    && id in s.calls && s.calls[id].key == key && !s.calls[id].phase.Returned?
    && key in s.rows && s.rows[key] == entry
  }

  /** The call has an answer of success, or will get one. */
  predicate Succeeding(s: State, id: CallId) {
    id in s.calls && match s.calls[id].phase
                     case Executed(Wrote(_)) => true
                     case Returned(Stored(_), _) => true
                     case _ => false
  }

  lemma SuccessStep(s: State, a: Action, id: CallId)
    requires Inv(s) && Succeeding(Next(s, a), id) && !Succeeding(s, id)
    ensures var s' := Next(s, a); var c := s'.calls[id]; var entry := Entry(c.expected + 1, Blob(c.value));
            HeldDuring(s, id, c.key, entry) || HeldDuring(s', id, c.key, entry)
  {
    hide Versions, Chain, EventOk, CallOk;
    if id in s.calls {
      ResolutionIsExact(s, id);
      if a == Execute(id) && Statement(s.rows, s.calls[id]).Wrote? {
        WriteChain(s, id, s.calls[id].key);
      }
    }
  }

  lemma RequestIsKept(s: State, a: Action, id: CallId)
    requires id in s.calls
    ensures id in Next(s, a).calls && Next(s, a).calls[id] == s.calls[id].(phase := Next(s, a).calls[id].phase)
  {
  }

  /**
   Put returning r: r is expected + 1, and at an instant during the call the key held
   exactly the value at revision r, also when the answer came from the reread.
   */
  lemma {:induction false} SuccessWasHeld(actions: seq<Action>, id: CallId) returns (k: nat)
    requires Succeeding(Run(Init(), actions), id)
    ensures var s := Run(Init(), actions); var c := s.calls[id];
            && (forall r :: HasReturned(s, id, Stored(r)) ==> r == c.expected + 1)
            && k <= |actions| && HeldDuring(Run(Init(), actions[..k]), id, c.key, Entry(c.expected + 1, Blob(c.value)))
    decreases |actions|
  {
    hide Next, Versions, Chain, EventOk, HeldDuring, Succeeding;
    Reachable(actions);
    assert CallOk(Run(Init(), actions), id, Run(Init(), actions).calls[id]) by { StartsUnborn(actions, id); }
    assert actions != [] by { StartsUnborn(actions, id); }
    var n := |actions| - 1;
    var s := Run(Init(), actions[..n]);
    assert actions[..n + 1] == actions;
    if Succeeding(s, id) {
      StartsUnborn(actions[..n], id);
      RequestIsKept(s, actions[n], id);
      k := SuccessWasHeld(actions[..n], id);
      assert actions[..n][..k] == actions[..k];
    } else {
      Reachable(actions[..n]);
      SuccessStep(s, actions[n], id);
      var c := Run(Init(), actions).calls[id];
      k := if HeldDuring(s, id, c.key, Entry(c.expected + 1, Blob(c.value))) then n else n + 1;
    }
  }

  lemma StartsUnborn(actions: seq<Action>, id: CallId)
    requires Succeeding(Run(Init(), actions), id)
    ensures actions != [] && id in Run(Init(), actions).calls
  {
  }

  // ---------------------------------------------------------------- causes

  /** The key stands where the call expects it: absent for 0, else at that revision. */
  predicate Expects(rows: map<Key, Entry>, key: Key, expected: nat) {
    if expected == 0 then key !in rows else key in rows && rows[key].revision == expected
  }

  /** The server has refused the call, and perhaps it has already been told. */
  predicate IsRefused(s: State, id: CallId) {
    id in s.calls && (s.calls[id].phase == Executed(NoRow) || s.calls[id].phase == Returned(Conflict, false))
  }

  lemma RefusalStep(s: State, a: Action, id: CallId)
    requires IsRefused(Next(s, a), id) && !IsRefused(s, id)
    ensures id in s.calls && s.calls[id].phase == Sent && !Expects(s.rows, s.calls[id].key, s.calls[id].expected)
  {
  }

  /** A conflict that needed no reread: at an instant of the call the key was not where the call expected it. */
  lemma {:induction false} RefusalHadCause(actions: seq<Action>, id: CallId) returns (k: nat)
    requires IsRefused(Run(Init(), actions), id)
    ensures k < |actions|
    ensures var s, c := Run(Init(), actions[..k]), Run(Init(), actions).calls[id];
            id in s.calls && s.calls[id].phase == Sent && !Expects(s.rows, c.key, c.expected)
    decreases |actions|
  {
    hide Next, Expects;
    assert actions != [] by { assert !IsRefused(Init(), id); }
    var n := |actions| - 1;
    var s := Run(Init(), actions[..n]);
    if IsRefused(s, id) {
      RequestIsKept(s, actions[n], id);
      k := RefusalHadCause(actions[..n], id);
      assert actions[..n][..k] == actions[..k];
    } else {
      RefusalStep(s, actions[n], id);
      RequestIsKept(s, actions[n], id);
      k := n;
    }
  }

  /** What the reread saw when it gave its answer. */
  predicate Seen(rows: map<Key, Entry>, c: Call, result: Result) {
    match result
    case Stored(r) => c.key in rows && rows[c.key] == Entry(r, Blob(c.value))
    case Cause => c.key !in rows || rows[c.key].revision == c.expected
    case Conflict => c.key in rows && rows[c.key].revision != c.expected
    case _ => true
  }

  lemma RereadStep(s: State, a: Action, id: CallId)
    requires id !in s.calls || !s.calls[id].phase.Returned?
    requires id in Next(s, a).calls && Next(s, a).calls[id].phase.Returned? && Next(s, a).calls[id].phase.reread
    ensures id in s.calls && Seen(s.rows, s.calls[id], Next(s, a).calls[id].phase.result)
  {
  }

  lemma AnswerIsFinal(s: State, a: Action, id: CallId)
    requires id in s.calls && s.calls[id].phase.Returned?
    ensures id in Next(s, a).calls && Next(s, a).calls[id] == s.calls[id]
  {
  }

  /** Every answer of a reread has its cause at the instant of the read. */
  lemma {:induction false} RereadHadCause(actions: seq<Action>, id: CallId) returns (k: nat)
    requires var s := Run(Init(), actions); id in s.calls && s.calls[id].phase.Returned? && s.calls[id].phase.reread
    ensures k < |actions|
    ensures var s, c := Run(Init(), actions[..k]), Run(Init(), actions).calls[id];
            id in s.calls && !s.calls[id].phase.Returned? && Seen(s.rows, c, c.phase.result)
    decreases |actions|
  {
    hide Next, Seen;
    assert actions != [];
    var n := |actions| - 1;
    var s := Run(Init(), actions[..n]);
    if id in s.calls && s.calls[id].phase.Returned? {
      AnswerIsFinal(s, actions[n], id);
      k := RereadHadCause(actions[..n], id);
      assert actions[..n][..k] == actions[..k];
    } else {
      RereadStep(s, actions[n], id);
      RequestIsKept(s, actions[n], id);
      SeenIsOfTheRequest(s.rows, s.calls[id], Run(Init(), actions).calls[id]);
      k := n;
    }
  }

  lemma SeenIsOfTheRequest(rows: map<Key, Entry>, c: Call, c': Call)
    requires c' == c.(phase := c'.phase)
    ensures forall result :: Seen(rows, c, result) == Seen(rows, c', result)
  {
  }

  /** Success that was answered is the call's own: it wrote the entry itself. */
  lemma AnsweredSuccessIsOwn(actions: seq<Action>, id: CallId)
    requires var s := Run(Init(), actions);
             id in s.calls && s.calls[id].phase.Returned? && s.calls[id].phase.result.Stored?
    requires !Run(Init(), actions).calls[id].phase.reread
    ensures WrittenBy(Run(Init(), actions).history, id)
  {
    hide Run, Versions, Chain, EventOk;
    Reachable(actions);
    assert CallOk(Run(Init(), actions), id, Run(Init(), actions).calls[id]);
  }

  /** Success without an own write comes from a reread, and from another call's write of the same entry. */
  lemma OtherSuccessIsATwins(actions: seq<Action>, id: CallId) returns (i: nat)
    requires var s := Run(Init(), actions);
             id in s.calls && s.calls[id].phase.Returned? && s.calls[id].phase.result.Stored?
    requires !WrittenBy(Run(Init(), actions).history, id)
    ensures var s := Run(Init(), actions);
            && s.calls[id].phase.reread && i < |s.history|
            && IsRecordOf(s.history[i], s.calls[id]) && s.history[i].owner != id
  {
    hide Run, Versions, Chain, EventOk;
    Reachable(actions);
    var s := Run(Init(), actions);
    assert CallOk(s, id, s.calls[id]);
    i :| 0 <= i < |s.history| && IsRecordOf(s.history[i], s.calls[id]);
    assert !IsWriteOf(s.history[i], id);
  }

  lemma CleanStays(s: State, a: Action, id: CallId)
    requires id in s.calls && s.calls[id].phase.Returned? && Clean(s, id)
    ensures Clean(Next(s, a), id) && id in Next(s, a).calls && Next(s, a).calls[id].phase.Returned?
  {
    var s' := Next(s, a);
    if |s'.history| > |s.history| {
      var e := s'.history[|s.history|];
      assert s'.history == s.history + [e];
      Extend(s.history, e, e.key, id);
    }
  }

  lemma {:induction false} CleanForever(s: State, more: seq<Action>, id: CallId)
    requires id in s.calls && s.calls[id].phase.Returned? && Clean(s, id)
    ensures var s' := Run(s, more); id in s'.calls && s'.calls[id].phase.Returned? && Clean(s', id)
    decreases |more|
  {
    hide Next, Clean;
    if more != [] {
      CleanForever(s, more[..|more| - 1], id);
      CleanStays(Run(s, more[..|more| - 1]), more[|more| - 1], id);
    }
  }

  /** A refusal that needed no reread is definite: the call has not written and never will. */
  lemma AnsweredRefusalIsDefinite(actions: seq<Action>, more: seq<Action>, id: CallId)
    requires var s := Run(Init(), actions);
             id in s.calls && s.calls[id].phase.Returned? && !s.calls[id].phase.reread
             && !s.calls[id].phase.result.Stored?
    ensures !WrittenBy(Run(Run(Init(), actions), more).history, id)
  {
    hide Run, Versions, Chain, EventOk;
    Reachable(actions);
    var s := Run(Init(), actions);
    assert CallOk(s, id, s.calls[id]);
    CleanForever(s, more, id);
  }

  /** An entry stays below the current revision, and in a present row, until its key is deleted. */
  lemma WriteIsVisible(s: State, id: CallId)
    requires Inv(s) && id in s.calls && WrittenBy(s.history, id) && !Forgotten(s.history, s.calls[id])
    ensures s.calls[id].key in s.rows && s.rows[s.calls[id].key].revision >= s.calls[id].expected + 1
  {
    hide CallOk;
    var c := s.calls[id];
    var i :| 0 <= i < |s.history| && IsWriteOf(s.history[i], id);
    assert EventOk(s.history, s.calls, i);
    assert s.history[..i + 1][..i] == s.history[..i];
    VersionsGrow(s.history, i + 1, c.key);
    assert Chain(s.rows, c.key, Versions(s.history, c.key));
  }

  /**
   The original error after a reread is definite when the statement has left the wire and the
   key was not deleted during the call.  CauseBeforeLateWrite and CauseAfterDelete show that
   neither condition can be dropped.
   */
  lemma CauseIsDefinite(actions: seq<Action>, more: seq<Action>, id: CallId)
    requires var s := Run(Init(), actions);
             && id in s.calls && s.calls[id].phase == Unresolved
             && HasReturned(Next(s, Reread(id)), id, Cause)
             && id !in s.inFlight && !Forgotten(s.history, s.calls[id])
    ensures !WrittenBy(Run(Next(Run(Init(), actions), Reread(id)), more).history, id)
  {
    hide Run, Versions, Chain, EventOk, CallOk;
    Reachable(actions);
    var s := Run(Init(), actions);
    if WrittenBy(s.history, id) {
      WriteIsVisible(s, id);
    }
    CleanForever(Next(s, Reread(id)), more, id);
  }

  /** What was written keeps its place among the versions until its key is deleted. */
  lemma {:induction false} VersionsKeep(history: seq<Event>, i: nat)
    requires i < |history| && history[i].Written?
    requires forall j :: i < j < |history| ==> history[j] != Deleted(history[i].key)
    ensures var n, versions := |Versions(history[..i], history[i].key)|, Versions(history, history[i].key);
            n < |versions| && versions[n] == history[i].entry
    decreases |history|
  {
    var before := history[..|history| - 1];
    if i < |before| {
      assert before[..i] == history[..i];
      VersionsKeep(before, i);
    } else {
      assert history[..i] == before;
    }
  }

  /** So a row at the revision of an own write holds that write. */
  lemma OwnRevisionIsOwnWrite(s: State, id: CallId)
    requires Inv(s) && id in s.calls && WrittenBy(s.history, id) && !Forgotten(s.history, s.calls[id])
    requires s.calls[id].key in s.rows && s.rows[s.calls[id].key].revision == s.calls[id].expected + 1
    ensures s.rows[s.calls[id].key] == Entry(s.calls[id].expected + 1, Blob(s.calls[id].value))
  {
    hide CallOk, Versions;
    var c := s.calls[id];
    var i :| 0 <= i < |s.history| && IsWriteOf(s.history[i], id);
    assert EventOk(s.history, s.calls, i);
    VersionsKeep(s.history, i);
    assert Chain(s.rows, c.key, Versions(s.history, c.key));
  }

  /**
   The conflict of a reread is definite when, as before, the statement has left the wire and the key
   was not deleted during the call, and the row that the reread found is not past expected + 1.
   RereadConflictAfterOwnWrite and RereadConflictWithoutWrite show that past it nothing is known.
   */
  lemma RereadConflictIsDefinite(actions: seq<Action>, more: seq<Action>, id: CallId)
    requires var s := Run(Init(), actions);
             && id in s.calls && s.calls[id].phase == Unresolved
             && HasReturned(Next(s, Reread(id)), id, Conflict)
             && id !in s.inFlight && !Forgotten(s.history, s.calls[id])
             && s.rows[s.calls[id].key].revision <= s.calls[id].expected + 1
    ensures !WrittenBy(Run(Next(Run(Init(), actions), Reread(id)), more).history, id)
  {
    hide Run, Versions, Chain, EventOk, CallOk;
    Reachable(actions);
    var s := Run(Init(), actions);
    if WrittenBy(s.history, id) {
      WriteIsVisible(s, id);
      OwnRevisionIsOwnWrite(s, id);
      ResolutionIsExact(s, id);
    }
    CleanForever(Next(s, Reread(id)), more, id);
  }

  // ---------------------------------------------------------------- why the conditions are there

  lemma Do(actions: seq<Action>, s: State, a: Action) returns (actions': seq<Action>, s': State)
    requires Run(Init(), actions) == s
    ensures actions' == actions + [a] && s' == Next(s, a) && Run(Init(), actions') == s'
  {
    actions', s' := actions + [a], Next(s, a);
    assert actions'[..|actions|] == actions;
  }

  predicate NothingDeleted(history: seq<Event>) { forall i :: 0 <= i < |history| ==> history[i].Written? }

  /** The revision of a key, 0 for an absent one. */
  function RevisionOf(rows: map<Key, Entry>, key: Key): nat { if key in rows then rows[key].revision else 0 }

  /** A run without deletes whose calls are numbered below `above`, with the key at a revision. */
  ghost predicate Stands(actions: seq<Action>, s: State, key: Key, revision: nat, above: CallId) {
    && Run(Init(), actions) == s && NothingDeleted(s.history) && RevisionOf(s.rows, key) == revision
    && (key in s.rows ==> revision > 0)
    && (forall id :: id in s.calls || id in s.inFlight ==> id < above)
  }

  /** What the writes of others leave alone. */
  predicate SameForZero(s: State, s': State) {
    && (0 in s.calls <==> 0 in s'.calls) && (0 in s.calls ==> s'.calls[0] == s.calls[0])
    && (0 in s.inFlight <==> 0 in s'.inFlight)
    && (WrittenBy(s.history, 0) <==> WrittenBy(s'.history, 0))
  }

  /** A put is sent, and takes effect at once where the key has the expected revision. */
  lemma SendAndWrite(s: State, id: CallId, key: Key, expected: nat, value: Option<Bytes>)
    requires id !in s.calls && id !in s.inFlight && ValidName(key) && expected < MAX_INT64
    requires RevisionOf(s.rows, key) == expected && (key in s.rows ==> expected > 0)
    ensures var c, entry := Call(key, expected, value, Sent, |s.history|), Entry(expected + 1, Blob(value));
            var sent := s.(calls := s.calls[id := c], inFlight := s.inFlight + {id});
            && Next(s, Put(id, key, expected, value)) == sent
            && Next(sent, Execute(id)) ==
                s.(rows := s.rows[key := entry], history := s.history + [Written(id, key, entry)],
                                          calls := s.calls[id := c.(phase := Executed(Wrote(expected + 1)))])
  {
    var sent := s.(calls := s.calls[id := Call(key, expected, value, Sent, |s.history|)],
                   inFlight := s.inFlight + {id});
    assert sent.inFlight - {id} == s.inFlight;
  }

  /** Another call writes the next revision. */
  lemma WritesNext(actions: seq<Action>, s: State, key: Key, revision: nat, above: CallId)
    returns (actions': seq<Action>, s': State)
    requires Stands(actions, s, key, revision, above) && ValidName(key) && revision < MAX_INT64 && above > 0
    ensures Stands(actions', s', key, revision + 1, above + 1) && SameForZero(s, s')
  {
    hide Run, Next;
    assert above !in s.calls && above !in s.inFlight;
    SendAndWrite(s, above, key, revision, None);
    actions', s' := Do(actions, s, Put(above, key, revision, None));
    actions', s' := Do(actions', s', Execute(above));
    Extend(s.history, Written(above, key, Entry(revision + 1, [])), key, 0);
    hide WrittenBy;
  }

  /** Other calls bring the key from one revision to a later one. */
  lemma {:induction false} Climbs(actions: seq<Action>, s: State, key: Key, revision: nat, target: nat, above: CallId)
    returns (actions': seq<Action>, s': State, above': CallId)
    requires Stands(actions, s, key, revision, above) && ValidName(key) && revision <= target <= MAX_INT64 && above > 0
    ensures Stands(actions', s', key, target, above') && SameForZero(s, s') && above' > 0
    decreases target - revision
  {
    hide Stands, SameForZero;
    if revision == target {
      actions', s', above' := actions, s, above;
      assert SameForZero(s, s') by { SameForZeroIsReflexive(s); }
    } else {
      var as1, s1 := WritesNext(actions, s, key, revision, above);
      actions', s', above' := Climbs(as1, s1, key, revision + 1, target, above + 1);
      SameForZeroIsTransitive(s, s1, s');
    }
  }

  lemma SameForZeroIsReflexive(s: State)
    ensures SameForZero(s, s)
  {
  }

  lemma SameForZeroIsTransitive(s: State, s': State, s'': State)
    requires SameForZero(s, s') && SameForZero(s', s'')
    ensures SameForZero(s, s'')
  {
  }

  /** Call 0 finds its expected revision, and its answer is lost: after it wrote, or without it ever running. */
  lemma LosesAnswer(key: Key, expected: nat, mine: Bytes, wrote: bool)
    returns (actions: seq<Action>, s: State, above: CallId)
    requires ValidName(key) && expected < MAX_INT64
    ensures Stands(actions, s, key, if wrote then expected + 1 else expected, above) && above > 0
    ensures 0 in s.calls && 0 !in s.inFlight && (WrittenBy(s.history, 0) <==> wrote)
    ensures var c := s.calls[0];
            c.key == key && c.expected == expected && c.value == Some(mine) && c.phase == Unresolved
  {
    s := Init();
    assert Stands([], s, key, 0, 1) && !WrittenBy(s.history, 0);
    actions, s, above := Climbs([], s, key, 0, expected, 1);
    hide Run, WrittenBy;
    assert 0 !in s.calls && 0 !in s.inFlight;
    SendAndWrite(s, 0, key, expected, Some(mine));
    Extend(s.history, Written(0, key, Entry(expected + 1, mine)), key, 0);
    actions, s := SendsAndLoses(actions, s, key, expected, mine, wrote);
  }

  lemma SendsAndLoses(actions: seq<Action>, s: State, key: Key, expected: nat, mine: Bytes, wrote: bool)
    returns (actions': seq<Action>, s': State)
    requires Run(Init(), actions) == s && ValidName(key) && expected < MAX_INT64 && 0 !in s.calls && 0 !in s.inFlight
    requires RevisionOf(s.rows, key) == expected && (key in s.rows ==> expected > 0)
    ensures Run(Init(), actions') == s' && s'.inFlight == s.inFlight
    ensures s'.calls == s.calls[0 := Call(key, expected, Some(mine), Unresolved, |s.history|)]
    ensures var entry := Entry(expected + 1, mine);
            if wrote then s'.rows == s.rows[key := entry] && s'.history == s.history + [Written(0, key, entry)]
            else s'.rows == s.rows && s'.history == s.history
  {
    hide Run;
    SendAndWrite(s, 0, key, expected, Some(mine));
    actions', s' := Do(actions, s, Put(0, key, expected, Some(mine)));
    if wrote {
      actions', s' := Do(actions', s', Execute(0));
      actions', s' := Do(actions', s', Lose(0));
    } else {
      assert s'.inFlight - {0} == s.inFlight;
      actions', s' := Do(actions', s', Lose(0));
      actions', s' := Do(actions', s', Drop(0));
    }
  }

  /** The answer of a reread that finds the key past expected + 1, without any delete and off the wire. */
  ghost predicate ConflictsBeyond(s: State, key: Key, expected: nat, revision: nat) {
    && HasReturned(s, 0, Conflict) && s.calls[0].expected == expected && s.calls[0].key == key
    && NothingDeleted(s.history) && 0 !in s.inFlight && RevisionOf(s.rows, key) == revision
  }

  lemma FindsLaterRow(key: Key, expected: nat, revision: nat, mine: Bytes, wrote: bool) returns (actions: seq<Action>)
    requires ValidName(key) && expected + 1 < revision <= MAX_INT64
    ensures var s := Run(Init(), actions);
            ConflictsBeyond(s, key, expected, revision) && (WrittenBy(s.history, 0) <==> wrote)
  {
    var s, above;
    actions, s, above := LosesAnswer(key, expected, mine, wrote);
    actions, s, above := Climbs(actions, s, key, if wrote then expected + 1 else expected, revision, above);
    hide Run;
    actions, s := Do(actions, s, Reread(0));
  }

  /** A conflict found past expected + 1 may follow the call's own write: the next writers hide it. */
  lemma RereadConflictAfterOwnWrite(key: Key, expected: nat, revision: nat, mine: Bytes) returns (actions: seq<Action>)
    requires ValidName(key) && expected + 1 < revision <= MAX_INT64
    ensures var s := Run(Init(), actions); ConflictsBeyond(s, key, expected, revision) && WrittenBy(s.history, 0)
  {
    hide Run;
    actions := FindsLaterRow(key, expected, revision, mine, true);
  }

  /** The same conflict may be found though the call never wrote. */
  lemma RereadConflictWithoutWrite(key: Key, expected: nat, revision: nat, mine: Bytes) returns (actions: seq<Action>)
    requires ValidName(key) && expected + 1 < revision <= MAX_INT64
    ensures var s := Run(Init(), actions); ConflictsBeyond(s, key, expected, revision) && !WrittenBy(s.history, 0)
  {
    hide Run;
    actions := FindsLaterRow(key, expected, revision, mine, false);
  }

  /** The original error may be answered before the write takes effect: the statement was still on the wire. */
  lemma CauseBeforeLateWrite(key: Key, value: Bytes) returns (answered: seq<Action>, late: Action)
    requires ValidName(key)
    ensures var s := Run(Init(), answered); HasReturned(s, 0, Cause) && 0 in s.inFlight && !WrittenBy(s.history, 0)
    ensures var s := Run(Init(), answered + [late]);
            HasReturned(s, 0, Cause) && WrittenBy(s.history, 0) && NothingDeleted(s.history)
  {
    var s := Init();
    assert Run(Init(), []) == s;
    hide Run;
    answered, s := Do([], s, Put(0, key, 0, Some(value)));
    answered, s := Do(answered, s, Lose(0));
    answered, s := Do(answered, s, Reread(0));
    late := Execute(0);
    var all;
    all, s := Do(answered, s, late);
    assert IsWriteOf(s.history[0], 0);
  }

  /** It may also be answered after a write that has left the wire, when the key was deleted before the reread. */
  lemma CauseAfterDelete(key: Key, value: Bytes) returns (actions: seq<Action>)
    requires ValidName(key)
    ensures var s := Run(Init(), actions);
            && 0 in s.calls && s.calls[0].phase == Unresolved && 0 !in s.inFlight && WrittenBy(s.history, 0)
            && Forgotten(s.history, s.calls[0]) && HasReturned(Next(s, Reread(0)), 0, Cause)
  {
    var s, above;
    actions, s, above := LosesAnswer(key, 0, value, true);
    hide Run;
    var before := s;
    Reachable(actions);
    assert CallOk(before, 0, before.calls[0]);
    actions, s := Do(actions, s, Delete(key));
    Extend(before.history, Deleted(key), key, 0);
    assert s.history[|before.history|] == Deleted(key);
  }
}
