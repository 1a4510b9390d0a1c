/** The main results about the ledger, over every run from empty tables. */
module LedgerTheorems {
  import opened Common
  import opened LedgerProtocol
  import opened LedgerSafety

  /** The log of a name in a state, read off the tables. */
  function Log(s: State, name: Name): (entries: seq<Bytes>)
    ensures |entries| == Tip(s, name)
  {
    seq(Tip(s, name),
        (i: int) requires 0 <= i => var k := RecordKey(name, i + 1); if k in s.records then s.records[k] else [])
  }

  lemma LogIsReplay(s: State, name: Name)
    requires Inv(s)
    ensures Log(s, name) == Replay(s.history, name)
  {
    hide Replay;
    assert Stores(s, name, Replay(s.history, name));
  }

  /** Through any mix of appends, failures, retries and deletes, the stored sequences of a name are exactly 1..tip. */
  lemma RecordsAreExactlyTheTip(actions: seq<Action>, name: Name, number: nat)
    ensures var s := Run(Init(), actions); RecordKey(name, number) in s.records <==> 1 <= number <= Tip(s, name)
  {
    hide Run, Replay, CallOk, TransactionOk, EventOk;
    Reachable(actions);
    var s := Run(Init(), actions);
    assert Stores(s, name, Replay(s.history, name));
  }

  /** What one action may do to the log of a name. */
  ghost predicate LogStep(before: seq<Bytes>, after: seq<Bytes>, s: State, a: Action, name: Name) {
    || after == before
    || (a == Delete(name) && after == [])
    || (exists id :: id in s.calls && s.calls[id].name == name && s.calls[id].expected == |before|
                     && (a == CommitAcknowledged(id) || a == Settle(name, true))
                     && after == before + [s.calls[id].payload])
  }

  /** Refinement: the two tables behave as one sequence with compare-and-append. */
  lemma LedgerRefinesLog(actions: seq<Action>, a: Action, name: Name)
    ensures var s := Run(Init(), actions); LogStep(Log(s, name), Log(Next(s, a), name), s, a, name)
  {
    hide Run, Replay, Log, CallOk, EventOk;
    Reachable(actions);
    var s := Run(Init(), actions);
    NextKeeps(s, a);
    var s' := Next(s, a);
    LogIsReplay(s, name);
    LogIsReplay(s', name);
    if |s'.history| > |s.history| {
      var e := s'.history[|s.history|];
      assert s'.history == s.history + [e];
      Extend(s.history, e, name, 0);
      if e.Committed? && e.name == name {
        assert TransactionOk(s, name, s.active[name]);
        assert Stores(s, name, Replay(s.history, name));
      }
    }
  }

  // ---------------------------------------------------------------- runs

  lemma {:induction false} RunJoins(s: State, first: seq<Action>, rest: seq<Action>)
    ensures Run(s, first + rest) == Run(Run(s, first), rest)
    decreases |rest|
  {
    if rest == [] {
      assert first + rest == first;
    } else {
      var all, last := first + rest, |rest| - 1;
      assert all[..|all| - 1] == first + rest[..last] && all[|all| - 1] == rest[last];
      RunJoins(s, first, rest[..last]);
    }
  }

  // ---------------------------------------------------------------- outcomes

  /** Over all its attempts one call commits at most one record. */
  lemma OneCommitPerCall(actions: seq<Action>, id: CallId, i: nat, j: nat)
    requires var h := Run(Init(), actions).history; i < |h| && j < |h| && IsCommitOf(h[i], id) && IsCommitOf(h[j], id)
    ensures i == j
  {
    hide Run, Replay, CallOk, TransactionOk, Stores;
    Reachable(actions);
    var s := Run(Init(), actions);
    assert EventOk(s.history, s.calls, i);
  }

  predicate HasReturned(s: State, id: CallId, result: Result) {
    id in s.calls && s.calls[id].phase.Returned? && s.calls[id].phase.result == result
  }

  predicate HoldsPayload(s: State, c: Call) {
    var k := RecordKey(c.name, c.expected + 1); k in s.records && s.records[k] == c.payload
  }

  lemma AnswerIsGiven(s: State, a: Action, id: CallId)
    requires id !in s.calls || !s.calls[id].phase.Returned?
    requires HasReturned(Next(s, a), id, Appended)
    ensures id in s.calls && HoldsPayload(Next(s, a), Next(s, a).calls[id])
  {
  }

  lemma AnswerIsFinal(s: State, a: Action, id: CallId)
    requires id in s.calls && s.calls[id].phase.Returned?
    ensures id in Next(s, a).calls && Next(s, a).calls[id] == s.calls[id]
  {
  }

  /** The k-th action answers call id with success, and the log then holds its payload at expected + 1. */
  predicate SucceedsAt(actions: seq<Action>, id: CallId, k: nat)
    requires k < |actions|
  {
    var before, answered := Run(Init(), actions[..k]), Run(Init(), actions[..k + 1]);
    && id in before.calls && !before.calls[id].phase.Returned?
    && HasReturned(answered, id, Appended) && HoldsPayload(answered, answered.calls[id])
  }

  /** A nil error means that at the instant of the answer the log held the payload at expected + 1. */
  lemma {:induction false} SuccessWasStored(actions: seq<Action>, id: CallId) returns (k: nat)
    requires HasReturned(Run(Init(), actions), id, Appended)
    ensures k < |actions| && SucceedsAt(actions, id, k)
    ensures Run(Init(), actions[..k + 1]).calls[id] == Run(Init(), actions).calls[id]
    decreases |actions|
  {
    hide Next;
    var n := |actions|;
    assert actions != [];
    var s := Run(Init(), actions[..n - 1]);
    assert actions[..n] == actions;
    if id in s.calls && s.calls[id].phase.Returned? {
      AnswerIsFinal(s, actions[n - 1], id);
      k := SuccessWasStored(actions[..n - 1], id);
      assert actions[..n - 1][..k] == actions[..k] && actions[..n - 1][..k + 1] == actions[..k + 1];
    } else {
      AnswerIsGiven(s, actions[n - 1], id);
      k := n - 1;
    }
  }

  /** What was seen when an answer was given. */
  predicate Cause(s: State, c: Call, result: Result, reread: bool) {
    var k := RecordKey(c.name, c.expected + 1);
    match result
    case Conflict => if reread then k in s.records && s.records[k] != c.payload else Tip(s, c.name) != c.expected
    case Ambiguous => reread
    case InvalidName => !ValidName(c.name)
    case Appended => reread ==> k in s.records && s.records[k] == c.payload
    case _ => !reread
  }

  lemma AnswerStep(s: State, a: Action, id: CallId)
    requires id !in s.calls || !s.calls[id].phase.Returned?
    requires id in Next(s, a).calls && Next(s, a).calls[id].phase.Returned?
    ensures var c := Next(s, a).calls[id]; Cause(s, c, c.phase.result, c.phase.reread)
    ensures var r := Next(s, a).calls[id].phase.result;
            r == ContextEnded || (r == Failed && a != WriteRecord(id)) ==> a.AttemptFailed? && a.id == id
  {
  }

  /** Every answer has its cause at the instant at which it is given. */
  lemma {:induction false} AnswerHasCause(actions: seq<Action>, id: CallId) returns (k: nat)
    requires var s := Run(Init(), actions); id in s.calls && s.calls[id].phase.Returned?
    ensures k < |actions|
    ensures var s, c := Run(Init(), actions[..k]), Run(Init(), actions).calls[id];
            Cause(s, c, c.phase.result, c.phase.reread) && (id in s.calls ==> !s.calls[id].phase.Returned?)
    decreases |actions|
  {
    hide Next, Cause;
    var n := |actions|;
    assert actions != [];
    var s := Run(Init(), actions[..n - 1]);
    if id in s.calls && s.calls[id].phase.Returned? {
      AnswerIsFinal(s, actions[n - 1], id);
      k := AnswerHasCause(actions[..n - 1], id);
      assert actions[..n - 1][..k] == actions[..k];
    } else {
      AnswerStep(s, actions[n - 1], id);
      k := n - 1;
    }
  }

  /** Success that was acknowledged is the call's own: it committed the record itself. */
  lemma AcknowledgedSuccessIsOwn(actions: seq<Action>, id: CallId)
    requires HasReturned(Run(Init(), actions), id, Appended) && !Run(Init(), actions).calls[id].phase.reread
    ensures CommittedBy(Run(Init(), actions).history, id)
  {
    hide Run, Replay, Stores, EventOk;
    Reachable(actions);
    assert CallOk(Run(Init(), actions), id, Run(Init(), actions).calls[id]);
  }

  /**
   Success without an own commit comes from a reread, and from another call's commit of the same
   payload at the same place.
   */
  lemma OtherSuccessIsATwins(actions: seq<Action>, id: CallId) returns (i: nat)
    requires HasReturned(Run(Init(), actions), id, Appended) && !CommittedBy(Run(Init(), actions).history, id)
    ensures var s := Run(Init(), actions);
            && s.calls[id].phase.reread && i < |s.history|
            && IsRecordOf(s.history[i], s.calls[id]) && s.history[i].owner != id
  {
    hide Run, Replay, Stores, EventOk;
    Reachable(actions);
    var s := Run(Init(), actions);
    assert CallOk(s, id, s.calls[id]);
    i :| 0 <= i < |s.history| && IsRecordOf(s.history[i], s.calls[id]);
    assert !IsCommitOf(s.history[i], id);
  }

  lemma CleanStays(s: State, a: Action, id: CallId)
    requires Inv(s) && id in s.calls && s.calls[id].phase.Returned? && Clean(s, id, s.calls[id])
    ensures Clean(Next(s, a), id, s.calls[id])
  {
    hide Replay, Stores, CallOk, EventOk;
    var s', name := Next(s, a), s.calls[id].name;
    if |s'.history| > |s.history| {
      var e := s'.history[|s.history|];
      assert s'.history == s.history + [e];
      Extend(s.history, e, name, id);
      assert a.Settle? && a.name in s.active ==> TransactionOk(s, a.name, s.active[a.name]);
    }
  }

  lemma {:induction false} CleanForever(s: State, more: seq<Action>, id: CallId)
    requires Inv(s) && id in s.calls && s.calls[id].phase.Returned? && Clean(s, id, s.calls[id])
    ensures id in Run(s, more).calls && Run(s, more).calls[id] == s.calls[id] && Clean(Run(s, more), id, s.calls[id])
    decreases |more|
  {
    hide Next, Inv, Clean;
    if more != [] {
      var rest := more[..|more| - 1];
      CleanForever(s, rest, id);
      RunKeeps(s, rest);
      CleanStays(Run(s, rest), more[|more| - 1], id);
      AnswerIsFinal(Run(s, rest), more[|more| - 1], id);
    }
  }

  /**
   Every error but the ambiguous one is definite: the call has not committed and never will,
   whatever happens later.  Only the conflict found by a reread needs that its name was not
   deleted during the call.
   */
  lemma ErrorsAreDefinite(actions: seq<Action>, more: seq<Action>, id: CallId)
    requires var s := Run(Init(), actions);
             && id in s.calls && s.calls[id].phase.Returned?
             && s.calls[id].phase.result !in {Appended, Ambiguous}
             && (s.calls[id].phase.reread ==> !Forgotten(s.history, s.calls[id]))
    ensures !CommittedBy(Run(Init(), actions + more).history, id)
  {
    hide Run, Replay, Stores, EventOk;
    Reachable(actions);
    var s := Run(Init(), actions);
    assert CallOk(s, id, s.calls[id]);
    RunJoins(Init(), actions, more);
    CleanForever(s, more, id);
  }

  /** Without a delete of the name the log only grows. */
  lemma {:induction false} LogGrows(actions: seq<Action>, more: seq<Action>, name: Name)
    requires Delete(name) !in more
    ensures Log(Run(Init(), actions), name) <= Log(Run(Init(), actions + more), name)
    decreases |more|
  {
    hide Next, Log;
    if more == [] {
      assert actions + more == actions;
    } else {
      var rest, last := more[..|more| - 1], more[|more| - 1];
      LogGrows(actions, rest, name);
      assert actions + more == actions + rest + [last];
      LedgerRefinesLog(actions + rest, last, name);
      assert (actions + rest + [last])[..|actions + rest|] == actions + rest;
    }
  }

  /** So a successful append keeps its place in the log until its name is deleted. */
  lemma SuccessStays(actions: seq<Action>, id: CallId)
    requires HasReturned(Run(Init(), actions), id, Appended)
    requires var s := Run(Init(), actions); Delete(s.calls[id].name) !in actions
    ensures var s := Run(Init(), actions); var c := s.calls[id];
            c.expected < |Log(s, c.name)| && Log(s, c.name)[c.expected] == c.payload
  {
    hide Run, Next;
    var k := SuccessWasStored(actions, id);
    var then', c := Run(Init(), actions[..k + 1]), Run(Init(), actions).calls[id];
    assert actions == actions[..k + 1] + actions[k + 1..];
    RecordsAreExactlyTheTip(actions[..k + 1], c.name, c.expected + 1);
    assert c.expected < |Log(then', c.name)| && Log(then', c.name)[c.expected] == c.payload;
    LogGrows(actions[..k + 1], actions[k + 1..], c.name);
  }

  // ---------------------------------------------------------------- why the conditions are there

  lemma Do(actions: seq<Action>, s: State, a: Action) returns (actions': seq<Action>, s': State)
    requires Run(Init(), actions) == s
    ensures actions' == actions + [a] && s' == Next(s, a) && Run(Init(), actions') == s'
  {
    actions', s' := actions + [a], Next(s, a);
    assert actions'[..|actions|] == actions;
  }

  /** An append that runs alone up to its commit. */
  lemma WritesAlone(actions: seq<Action>, s: State, id: CallId, name: Name, payload: Bytes)
    returns (actions': seq<Action>, s': State)
    requires Run(Init(), actions) == s && ValidName(name) && id !in s.calls && name !in s.active && name !in s.scopes
    requires RecordKey(name, 1) !in s.records
    ensures Run(Init(), actions') == s'
    ensures s' == s.(calls := s.calls[id := Call(name, 0, payload, 0, Written, |s.history|)],
                  active := s.active[name := Transaction(id, true, false)])
  {
    hide Run;
    actions', s' := Do(actions, s, Append(id, name, 0, payload));
    assert s'.calls[id].phase == Ready;
    actions', s' := Do(actions', s', LockScope(id));
    assert s'.calls[id].phase == Locked;
    actions', s' := Do(actions', s', WriteRecord(id));
  }

  /** Its commit goes unanswered. */
  lemma LosesAnswer(actions: seq<Action>, s: State, id: CallId, name: Name, payload: Bytes)
    returns (actions': seq<Action>, s': State)
    requires Run(Init(), actions) == s && ValidName(name) && id !in s.calls && name !in s.active && name !in s.scopes
    requires RecordKey(name, 1) !in s.records
    ensures Run(Init(), actions') == s'
    ensures s' == s.(calls := s.calls[id := Call(name, 0, payload, 0, Unresolved, |s.history|)],
                  active := s.active[name := Transaction(id, true, true)])
  {
    hide Run;
    actions', s' := WritesAlone(actions, s, id, name, payload);
    actions', s' := Do(actions', s', CommitLost(id));
  }

  /** Its commit is acknowledged. */
  lemma AppendsAlone(actions: seq<Action>, s: State, id: CallId, name: Name, payload: Bytes)
    returns (actions': seq<Action>, s': State)
    requires Run(Init(), actions) == s && ValidName(name) && id !in s.calls && name !in s.active && name !in s.scopes
    requires RecordKey(name, 1) !in s.records
    ensures Run(Init(), actions') == s'
    ensures s' == s.(calls := s.calls[id := Call(name, 0, payload, 0, Returned(Appended, false), |s.history|)],
                  scopes := s.scopes[name := 1], records := s.records[RecordKey(name, 1) := payload],
                  history := s.history + [Committed(id, name, 1, payload)])
  {
    hide Run;
    actions', s' := WritesAlone(actions, s, id, name, payload);
    actions', s' := Do(actions', s', CommitAcknowledged(id));
    assert s'.active == s.active;
  }

  /** A commit that nobody was told about, and that is deleted again. */
  lemma ComesAndGoes(name: Name, payload: Bytes) returns (actions: seq<Action>, s: State)
    requires ValidName(name)
    ensures Run(Init(), actions) == s
    ensures s == State(map[], map[], map[], map[0 := Call(name, 0, payload, 0, Unresolved, 0)],
                   [Committed(0, name, 1, payload), Deleted(name)])
  {
    s := Init();
    assert Run(Init(), []) == s;
    hide Run;
    actions, s := LosesAnswer([], s, 0, name, payload);
    actions, s := Do(actions, s, Settle(name, true));
    assert s.active == map[] && s.records == map[RecordKey(name, 1) := payload];
    actions, s := Do(actions, s, Delete(name));
    assert s.scopes == map[] && s.records == map[];
  }

  /** With a delete in between, the conflict of a reread does not mean that nothing was committed. */
  lemma RereadConflictAfterDelete(name: Name, mine: Bytes, theirs: Bytes) returns (actions: seq<Action>)
    requires ValidName(name) && mine != theirs
    ensures var s := Run(Init(), actions);
            HasReturned(s, 0, Conflict) && CommittedBy(s.history, 0) && Forgotten(s.history, s.calls[0])
  {
    hide Run;
    var s;
    actions, s := ComesAndGoes(name, mine);
    actions, s := AppendsAlone(actions, s, 1, name, theirs);
    assert s.calls[0] == Call(name, 0, mine, 0, Unresolved, 0);
    actions, s := Do(actions, s, Reread(0));
    assert IsCommitOf(s.history[0], 0) && s.history[1] == Deleted(name);
  }

  /**
   Nor does it mean that something was: in another run with a delete during the call the same conflict
   is found, and the call has not committed.
   */
  lemma RereadConflictWithoutCommit(name: Name, mine: Bytes, theirs: Bytes) returns (actions: seq<Action>)
    requires ValidName(name) && mine != theirs
    ensures var s := Run(Init(), actions);
            HasReturned(s, 0, Conflict) && !CommittedBy(s.history, 0) && Forgotten(s.history, s.calls[0])
  {
    hide Run;
    var s;
    actions, s := DropsUnseen(name, mine);
    actions, s := AppendsAlone(actions, s, 1, name, mine);
    actions, s := Do(actions, s, Delete(name));
    assert s.scopes == map[] && s.records == map[] && s.active == map[];
    assert s.history == [Committed(1, name, 1, mine), Deleted(name)];
    assert s.calls[0] == Call(name, 0, mine, 0, Unresolved, 0);
    actions, s := AppendsAlone(actions, s, 2, name, theirs);
    assert s.calls[0] == Call(name, 0, mine, 0, Unresolved, 0);
    actions, s := Do(actions, s, Reread(0));
    assert s.history == [Committed(1, name, 1, mine), Deleted(name), Committed(2, name, 1, theirs)];
    assert s.history[1] == Deleted(name);
  }

  /** A commit that is dropped, and that nobody was told about. */
  lemma DropsUnseen(name: Name, payload: Bytes) returns (actions: seq<Action>, s: State)
    requires ValidName(name)
    ensures Run(Init(), actions) == s
    ensures s == State(map[], map[], map[], map[0 := Call(name, 0, payload, 0, Unresolved, 0)], [])
  {
    s := Init();
    assert Run(Init(), []) == s;
    hide Run;
    actions, s := LosesAnswer([], s, 0, name, payload);
    actions, s := Do(actions, s, Settle(name, false));
    assert s.active == map[];
  }

  /** The ambiguous answer is honest: the same answer is given whether or not the record is committed. */
  lemma AmbiguousGoesBothWays(name: Name, payload: Bytes) returns (landed: seq<Action>, dropped: seq<Action>)
    requires ValidName(name)
    ensures HasReturned(Run(Init(), landed), 0, Ambiguous) && CommittedBy(Run(Init(), landed).history, 0)
    ensures HasReturned(Run(Init(), dropped), 0, Ambiguous) && !CommittedBy(Run(Init(), dropped).history, 0)
  {
    var s := Init();
    assert Run(Init(), []) == s;
    hide Run;
    var both, s';
    both, s := LosesAnswer([], s, 0, name, payload);
    both, s := Do(both, s, Reread(0));
    assert s.calls[0].phase == Returned(Ambiguous, true);
    landed, s' := Do(both, s, Settle(name, true));
    assert IsCommitOf(s'.history[0], 0);
    dropped, s' := Do(both, s, Settle(name, false));
  }

  /** A caller may be told of success though the stored record is another caller's: their payloads are equal. */
  lemma TwinsBothSucceed(name: Name, payload: Bytes) returns (actions: seq<Action>)
    requires ValidName(name)
    ensures var s := Run(Init(), actions);
            HasReturned(s, 0, Appended) && HasReturned(s, 1, Appended) && !CommittedBy(s.history, 0) && |s.history| == 1
  {
    hide Run;
    var s;
    actions, s := DropsUnseen(name, payload);
    actions, s := AppendsAlone(actions, s, 1, name, payload);
    assert s.calls[0] == Call(name, 0, payload, 0, Unresolved, 0);
    actions, s := Do(actions, s, Reread(0));
  }
}
