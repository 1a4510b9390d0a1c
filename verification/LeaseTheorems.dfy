/** The main results about epoch leases, over every run from an empty table. */
module LeaseTheorems {
  import opened Common
  import opened LeaseProtocol
  import opened LeaseSafety

  /** The caller of this lease may still act on it: Lost is open and the safe time not reached. */
  predicate Holding(s: State, id: Id) {
    && id in s.clients && s.clients[id].lease.Some?
    && !s.clients[id].lease.value.lost
    && s.db.now + s.clients[id].skew < s.clients[id].lease.value.safeUntil
  }

  /**
   How far the safe time of a lease runs past the expiry it was derived from: the delay
   between the two readings of the local clock after the answer, less the delay from
   proofStarted to the database stamp.
   */
  function Excess(s: State, id: Id): int
    requires id in s.clients && s.clients[id].lease.Some?
  {
    s.clients[id].lease.value.gap - Lead(s.clients[id].skew, s.clients[id].lease.value.proof)
  }

  // ---------------------------------------------------------------- authenticity

  /** A lease is the grant of its epoch: that very call committed it, and nobody else did. */
  lemma LeaseIsItsOwnGrant(start: Time, actions: seq<Action>, n: nat, id: Id)
    requires n <= |actions|
    requires var s := At(start, actions, n); id in s.clients && s.clients[id].lease.Some?
    ensures var s := At(start, actions, n);
            var e := s.clients[id].epoch;
            && 1 <= e <= |s.db.grants| && s.db.grants[e - 1].holder == id
            && (forall i :: 0 <= i < |s.db.grants| && s.db.grants[i].holder == id ==> i == e - 1)
  {
    hide Next, At, PhaseOk, LifecycleOk, DbOk;
    Reachable(start, actions, n);
    var s := At(start, actions, n);
    assert ClientOk(s.db, id, s.clients[id]);
  }

  /** The same history, or its last grant cleared, or one more grant at its end. */
  ghost predicate Extends(g: seq<GrantRecord>, g': seq<GrantRecord>) {
    || g' == g
    || (g != [] && g' == g[|g| - 1 := g[|g| - 1].(cleared := true)])
    || (|g'| == |g| + 1 && g'[..|g|] == g && !g'[|g|].cleared)
  }

  lemma LandExtends(db: Db)
    requires db.lock.Staged?
    ensures Extends(db.grants, Land(db).grants)
  {
  }

  /** What any step may do to the database. */
  ghost predicate DbStep(db: Db, db': Db) {
    db.now <= db'.now && ((db'.row == db.row && db'.grants == db.grants) || (db.lock.Staged? && db' == Land(db)))
  }

  lemma OwnMoveIsDbStep(db: Db, id: Id, m: Move)
    requires OwnMove(db, id, m)
    ensures DbStep(db, m.db)
  {
  }

  lemma ClientStep(s: State, a: Action)
    requires Inv(s) && !Global(a)
    ensures DbStep(s.db, Next(s, a).db)
  {
    hide ClientOk, DbOk, MoveOf, OwnMove, DbStep;
    if a.id in s.clients {
      var c := s.clients[a.id];
      MoveKeeps(s.db, a.id, c, a, c.store in s.cancelled);
      OwnMoveIsDbStep(s.db, a.id, MoveOf(s.db, a.id, c, a, c.store in s.cancelled));
    } else {
      NoStep(s.db);
    }
  }

  lemma NoStep(db: Db)
    ensures DbStep(db, db)
  {
  }

  lemma GlobalStep(s: State, a: Action)
    requires Global(a)
    ensures DbStep(s.db, Next(s, a).db)
  {
    hide Land;
    assert s.db.lock.Staged? ==> Land(s.db).now == s.db.now by { LandKeepsTime(s.db); }
  }

  lemma LandKeepsTime(db: Db)
    ensures db.lock.Staged? ==> Land(db).now == db.now
  {
  }

  lemma EveryStep(s: State, a: Action)
    requires Inv(s)
    ensures DbStep(s.db, Next(s, a).db)
  {
    hide Inv, DbStep, Next;
    if Global(a) {
      GlobalStep(s, a);
    } else {
      ClientStep(s, a);
    }
  }

  /** Epochs are handed out in commit order: the history of grants only grows at its end. */
  lemma GrantsAreAppended(s: State, a: Action)
    requires Inv(s)
    ensures Extends(s.db.grants, Next(s, a).db.grants)
  {
    hide Next, Inv, Land;
    if s.db.lock.Staged? {
      LandExtends(s.db);
    }
    EveryStep(s, a);
  }

  lemma {:induction false} EpochsNeverChangeHands(start: Time, actions: seq<Action>, n: nat, m: nat)
    requires n <= m <= |actions|
    ensures |At(start, actions, n).db.grants| <= |At(start, actions, m).db.grants|
    ensures forall i :: 0 <= i < |At(start, actions, n).db.grants| ==>
              At(start, actions, m).db.grants[i].holder == At(start, actions, n).db.grants[i].holder
  {
    hide Next, Inv;
    if n < m {
      EpochsNeverChangeHands(start, actions, n, m - 1);
      Reachable(start, actions, m - 1);
      GrantsAreAppended(At(start, actions, m - 1), actions[m - 1]);
    }
  }

  // ---------------------------------------------------------------- accounting and fencing

  /** The stored counters are the sizes of the history, and holder and expiry come together. */
  lemma RowAccounting(start: Time, actions: seq<Action>, n: nat)
    requires n <= |actions|
    ensures var db := At(start, actions, n).db;
            && EpochOf(db.row) == |db.grants| == CountGrants(db.commits)
            && RevisionOf(db.row) == |db.commits|
            && (db.row.Some? ==> (db.row.value.holder.Some? <==> db.row.value.expiry.Some?))
  {
    hide Next, At, ClientOk;
    Reachable(start, actions, n);
  }

  /** What a step may do to the row. */
  lemma RowChangesOnlyByOneCommit(s: State, a: Action)
    requires Inv(s) && Next(s, a).db.row != s.db.row
    ensures s.db.lock.Staged? && Next(s, a).db == Land(s.db)
  {
    hide Next, Inv, Land;
    EveryStep(s, a);
  }

  /**
   Every change of the row is one commit of the lock owner: a takeover by the next
   epoch, or a renewal or clearing by the call that holds the current epoch.
   */
  lemma RowIsFenced(s: State, a: Action)
    requires Inv(s) && Next(s, a).db.row != s.db.row
    ensures s.db.lock.Staged? && s.db.lock.owner in s.clients
    ensures var owner, row, row' := s.clients[s.db.lock.owner], s.db.row, Next(s, a).db.row;
            && row'.Some? && row'.value.revision == RevisionOf(row) + 1
            && row'.value.epoch == owner.epoch
            && (if s.db.lock.kind == Grant then row'.value.epoch == EpochOf(row) + 1
                else row.Some? && row.value.epoch == owner.epoch && row.value.holder == Some(s.db.lock.owner))
  {
    hide PhaseOk, LifecycleOk, TimesOk;
    RowChangesOnlyByOneCommit(s, a);
    assert ClientOk(s.db, s.db.lock.owner, s.clients[s.db.lock.owner]);
  }

  /** A lease whose epoch was superseded never changes the row again. */
  lemma SupersededLeaseIsPowerless(s: State, a: Action, id: Id)
    requires Inv(s) && id in s.clients && s.clients[id].lease.Some?
    requires s.clients[id].epoch < EpochOf(s.db.row)
    requires Next(s, a).db.row != s.db.row
    ensures s.db.lock.Staged? && s.db.lock.owner != id
  {
    hide Next, PhaseOk, LifecycleOk;
    RowIsFenced(s, a);
    assert ClientOk(s.db, id, s.clients[id]);
  }

  // ---------------------------------------------------------------- mutual exclusion

  /** The exact safe time, and exactly when it stays within the proved expiry. */
  lemma SafeTimeIsExact(s: State, id: Id)
    requires Inv(s) && id in s.clients && s.clients[id].lease.Some?
    ensures var c := s.clients[id];
            var l := c.lease.value;
            && l.safeUntil - c.skew == l.proof.expiry + Excess(s, id)
            && (l.safeUntil - c.skew <= l.proof.expiry <==> l.gap <= Lead(c.skew, l.proof))
  {
    assert ClientOk(s.db, id, s.clients[id]);
  }

  /** Of two leases that both hold, the one of the earlier epoch has a proof that the later one outlived. */
  lemma OverlapIsInsideExcess(s: State, a: Id, b: Id)
    requires Inv(s) && a != b && Holding(s, a) && Holding(s, b)
    ensures s.clients[a].epoch != s.clients[b].epoch
    ensures s.clients[a].epoch < s.clients[b].epoch ==> s.db.now - s.clients[b].lease.value.openedAt < Excess(s, a)
  {
    hide PhaseOk, LifecycleOk, LockOk, RowOk;
    assert ClientOk(s.db, a, s.clients[a]) && ClientOk(s.db, b, s.clients[b]);
    var ea, eb := s.clients[a].epoch, s.clients[b].epoch;
    if ea < eb {
      assert ea < eb - 1 ==> s.db.grants[ea].checkedAt <= s.db.grants[eb - 1].checkedAt;
    }
  }

  /** Two leases never overlap at all when neither's local delay exceeds the head start of its proof. */
  lemma MutualExclusion(start: Time, actions: seq<Action>, n: nat, a: Id, b: Id)
    requires n <= |actions| && a != b
    requires var s := At(start, actions, n);
             && (Holding(s, a) ==> Excess(s, a) <= 0)
             && (Holding(s, b) ==> Excess(s, b) <= 0)
    ensures var s := At(start, actions, n); !(Holding(s, a) && Holding(s, b))
  {
    Reachable(start, actions, n);
    var s := At(start, actions, n);
    if Holding(s, a) && Holding(s, b) {
      OverlapIsInsideExcess(s, a, b);
      OverlapIsInsideExcess(s, b, a);
    }
  }

  /** The same lease later: opening instant and epoch are kept, and a closed Lost stays closed. */
  predicate SameLease(c: Client, c': Client) {
    && c.lease.Some? && c'.lease.Some? && c'.epoch == c.epoch
    && c'.lease.value.openedAt == c.lease.value.openedAt
    && (c.lease.value.lost ==> c'.lease.value.lost)
    && (c.lease.value.released ==> c'.lease.value.released)
  }

  lemma MoveKeepsIdentity(db: Db, id: Id, c: Client, a: Action, cancelled: bool)
    requires c.lease.Some? && c.phase != Begun
    ensures SameLease(c, MoveOf(db, id, c, a, cancelled).c)
  {
  }

  lemma OpenLeaseIsPastBegun(db: Db, id: Id, c: Client)
    requires ClientOk(db, id, c) && c.lease.Some?
    ensures c.phase != Begun
  {
    hide TimesOk, HistoryOk, LifecycleOk;
  }

  lemma TimeNeverRunsBack(s: State, a: Action)
    requires Inv(s)
    ensures s.db.now <= Next(s, a).db.now
  {
    hide Next, Inv, Land;
    EveryStep(s, a);
  }

  /** A step that is not this client's own changes at most its closer. */
  lemma ForeignStep(s: State, a: Action, id: Id)
    requires id in s.clients
    requires Global(a) || a.id != id
    ensures id in Next(s, a).clients
    ensures Next(s, a).clients[id] == s.clients[id].(closer := Next(s, a).clients[id].closer)
  {
    hide MoveOf, Land;
  }

  lemma OwnStepKeepsLease(s: State, a: Action)
    requires !Global(a)
    requires a.id in s.clients && s.clients[a.id].lease.Some? && s.clients[a.id].phase != Begun
    ensures a.id in Next(s, a).clients && SameLease(s.clients[a.id], Next(s, a).clients[a.id])
  {
    hide MoveOf, SameLease;
    MoveKeepsIdentity(s.db, a.id, s.clients[a.id], a, s.clients[a.id].store in s.cancelled);
  }

  lemma LeaseIsStable(s: State, a: Action, id: Id)
    requires Inv(s) && id in s.clients && s.clients[id].lease.Some?
    ensures id in Next(s, a).clients && SameLease(s.clients[id], Next(s, a).clients[id])
  {
    hide Next, ClientOk, DbOk;
    OpenLeaseIsPastBegun(s.db, id, s.clients[id]);
    if Global(a) || a.id != id {
      ForeignStep(s, a, id);
    } else {
      OwnStepKeepsLease(s, a);
    }
  }

  lemma {:induction false} LeaseIsStableOverRuns(start: Time, actions: seq<Action>, n: nat, m: nat, id: Id)
    requires n <= m <= |actions|
    requires id in At(start, actions, n).clients && At(start, actions, n).clients[id].lease.Some?
    ensures id in At(start, actions, m).clients
    ensures SameLease(At(start, actions, n).clients[id], At(start, actions, m).clients[id])
    ensures At(start, actions, n).db.now <= At(start, actions, m).db.now
  {
    hide Next, Inv;
    if n < m {
      LeaseIsStableOverRuns(start, actions, n, m - 1, id);
      Reachable(start, actions, m - 1);
      LeaseIsStable(At(start, actions, m - 1), actions[m - 1], id);
      TimeNeverRunsBack(At(start, actions, m - 1), actions[m - 1]);
    }
  }

  /**
   The bound on any overlap: whenever two leases both hold at two instants of a run, the
   instants are less than the earlier lease's excess apart.
   */
  lemma OverlapIsBounded(start: Time, actions: seq<Action>, n: nat, m: nat, a: Id, b: Id)
    requires n <= m <= |actions| && a != b
    requires Holding(At(start, actions, n), a) && Holding(At(start, actions, n), b)
    requires Holding(At(start, actions, m), a) && Holding(At(start, actions, m), b)
    requires At(start, actions, n).clients[a].epoch < At(start, actions, n).clients[b].epoch
    ensures At(start, actions, m).db.now - At(start, actions, n).db.now < Excess(At(start, actions, m), a)
  {
    Reachable(start, actions, n);
    Reachable(start, actions, m);
    LeaseIsStableOverRuns(start, actions, n, m, a);
    LeaseIsStableOverRuns(start, actions, n, m, b);
    var s := At(start, actions, n);
    OverlapIsInsideExcess(At(start, actions, m), a, b);
    assert ClientOk(s.db, b, s.clients[b]);
  }

  // ---------------------------------------------------------------- the Lost channel

  /** Lost closes at most once, and stays closed. */
  lemma LostClosesOnce(start: Time, actions: seq<Action>, n: nat, id: Id)
    requires n <= |actions|
    requires var s := At(start, actions, n); id in s.clients && s.clients[id].lease.Some?
    ensures var l := At(start, actions, n).clients[id].lease.value; l.closes == (if l.lost then 1 else 0)
  {
    Reachable(start, actions, n);
    assert ClientOk(At(start, actions, n).db, id, At(start, actions, n).clients[id]);
  }

  /** Nobody is left waiting: once the threads that touch a lease are done, Lost is closed. */
  lemma QuiescentLeaseIsLost(start: Time, actions: seq<Action>, n: nat, id: Id)
    requires n <= |actions|
    requires var s := At(start, actions, n); id in s.clients && s.clients[id].lease.Some?
    requires var c := At(start, actions, n).clients[id];
             && c.releaser == Idle && c.closer == NotClosing
             && (c.phase == Exited || c.lease.value.released || c.lease.value.done)
    ensures At(start, actions, n).clients[id].lease.value.lost
  {
    Reachable(start, actions, n);
    assert ClientOk(At(start, actions, n).db, id, At(start, actions, n).clients[id]);
  }

  /** The row is cleared only by a lease whose Lost is already closed. */
  lemma ClearedAfterLost(s: State, a: Action)
    requires Inv(s) && Next(s, a).db.row != s.db.row
    ensures s.db.lock.Staged? && s.db.lock.owner in s.clients && Next(s, a).db.row.Some?
    ensures Next(s, a).db.row.value.holder.None? ==> HasLost(s.clients[s.db.lock.owner])
  {
    hide Next, PhaseOk, LifecycleOk;
    RowIsFenced(s, a);
    RowChangesOnlyByOneCommit(s, a);
    assert ClientOk(s.db, s.db.lock.owner, s.clients[s.db.lock.owner]);
  }

  /** A completed Release does no further work; an incomplete one can always be retried. */
  lemma ReleaseIsRetryableUntilComplete(s: State, id: Id, a: Action)
    requires Inv(s) && id in s.clients && s.clients[id].lease.Some? && s.clients[id].lease.value.released
    requires OfReleaser(a) && !a.CloseLocal? && a.id == id
    ensures s.clients[id].lease.value.releaseComplete ==> Next(s, a) == s
    ensures !s.clients[id].lease.value.releaseComplete && s.clients[id].releaser == Idle ==>
              Next(s, ReleaseStart(id)).clients[id].releaser == Clearing
  {
    hide DbOk, PhaseOk, TimesOk, HistoryOk, ClearOk;
    assert ClientOk(s.db, id, s.clients[id]);
    assert s.clients[id := s.clients[id]] == s.clients;
  }

  // ---------------------------------------------------------------- building runs

  /** The own step of a client. */
  lemma OwnStep(s: State, a: Action)
    requires !Global(a) && a.id in s.clients
    ensures var c := s.clients[a.id]; var m := MoveOf(s.db, a.id, c, a, c.store in s.cancelled);
            && a.id in Next(s, a).clients && Next(s, a).clients[a.id] == m.c && Next(s, a).db == m.db
            && Next(s, a).cancelled == s.cancelled
  {
    hide MoveOf;
  }

  /** More actions at the end do not change what the first ones did. */
  lemma {:induction false} LongerRun(start: Time, trace: seq<Action>, longer: seq<Action>, n: nat)
    requires n <= |trace| && trace <= longer
    ensures At(start, trace, n) == At(start, longer, n)
  {
    if n > 0 {
      LongerRun(start, trace, longer, n - 1);
    }
  }
}
