/** What every run of the lease protocol keeps: authenticity, accounting, fencing, exclusion. */
module LeaseSafety {
  import opened Common
  import opened LeaseProtocol

  // ---------------------------------------------------------------- the invariant

  ghost predicate NeverGranted(grants: seq<GrantRecord>, id: Id) {
    forall i :: 0 <= i < |grants| ==> grants[i].holder != id
  }

  function CountGrants(ks: seq<Kind>): (n: nat)
    ensures n <= |ks|
  {
    if ks == [] then 0 else CountGrants(ks[..|ks| - 1]) + if ks[|ks| - 1] == Grant then 1 else 0
  }

  ghost predicate GrantsOk(now: Time, grants: seq<GrantRecord>) {
    && (forall i :: 0 <= i < |grants| ==> grants[i].checkedAt <= now)
    && (forall i, j :: 0 <= i < j < |grants| ==>
          grants[i].checkedAt <= grants[j].checkedAt && grants[i].holder != grants[j].holder)
  }

  /** The row agrees with the history of grants and commits. */
  ghost predicate RowOk(now: Time, row: Option<Row>, grants: seq<GrantRecord>, commits: seq<Kind>) {
    && (row.None? <==> grants == [])
    && EpochOf(row) == |grants| == CountGrants(commits)
    && RevisionOf(row) == |commits|
    && (row.Some? ==>
          var r, last := row.value, grants[|grants| - 1];
          && (r.holder.Some? <==> r.expiry.Some?)
          && (r.holder.None? <==> last.cleared)
          && (r.holder.Some? ==> r.holder.value == last.holder && r.expiry.value <= now + last.ttl))
  }

  ghost predicate TakeoverOk(db: Db, owner: Id, checkedAt: Time) {
    && checkedAt <= db.now
    && !Live(db.row, checkedAt)
    && NeverGranted(db.grants, owner)
    && (forall i :: 0 <= i < |db.grants| ==> db.grants[i].checkedAt <= checkedAt)
  }

  /** What a transaction that owns the row lock is about to do to the row. */
  ghost predicate LockOk(db: Db) {
    match db.lock
    case Free => true
    case Held(owner, at) => TakeoverOk(db, owner, at)
    case Staged(owner, kind, next, at, ttl, _) =>
      && next.revision == RevisionOf(db.row) + 1
      && match kind
         case Grant =>
           && TakeoverOk(db, owner, at)
           && next.epoch == |db.grants| + 1 && next.holder == Some(owner)
           && next.expiry.Some? && next.expiry.value <= db.now + ttl
         case Renewal =>
           && db.row.Some? && db.row.value.holder == Some(owner) && db.grants != []
           && next == db.row.value.(expiry := next.expiry, revision := next.revision)
           && next.expiry.Some? && db.row.value.expiry.Some?
           && db.row.value.expiry.value <= next.expiry.value <= db.now + db.grants[|db.grants| - 1].ttl
         case Clear =>
           && db.row.Some? && db.row.value.holder == Some(owner)
           && next == db.row.value.(holder := None, expiry := None, revision := next.revision)
  }

  ghost predicate DbOk(db: Db) {
    GrantsOk(db.now, db.grants) && RowOk(db.now, db.row, db.grants, db.commits) && LockOk(db)
  }

  /** `expiry` was proved by the holder of `epoch`; it never outlives what the history records. */
  ghost predicate Backed(row: Option<Row>, grants: seq<GrantRecord>, id: Id, epoch: nat, expiry: Time) {
    && 1 <= epoch <= |grants|
    && grants[epoch - 1].holder == id
    && (epoch == |grants| && row.Some? && row.value.holder.Some? && row.value.expiry.Some? ==>
          expiry <= row.value.expiry.value)
    && (epoch < |grants| ==> grants[epoch - 1].cleared || expiry <= grants[epoch].checkedAt)
  }

  /** proofStarted is read before the database stamps its answer. */
  predicate ProofOk(now: Time, skew: int, p: Proof) {
    p.started - skew <= p.stamp <= now
  }

  /** How long before the database stamp the local clock was read. */
  function Lead(skew: int, p: Proof): int { p.stamp - (p.started - skew) }

  /** The safe time of a lease against the expiry it was derived from. */
  ghost predicate TimesOk(now: Time, row: Option<Row>, grants: seq<GrantRecord>, id: Id, skew: int, epoch: nat,
                          safeUntil: Time, p: Proof, gap: int, openedAt: Time, adoptedAt: Time) {
    && Backed(row, grants, id, epoch, p.expiry)
    && ProofOk(now, skew, p)
    && gap >= 0
    && safeUntil - skew == p.expiry + gap - Lead(skew, p)
    && grants[epoch - 1].checkedAt <= openedAt <= adoptedAt <= now
  }

  /** The acting thread and the row lock agree on who owns it. */
  ghost predicate PhaseOk(db: Db, id: Id, skew: int, epoch: nat, isOpen: bool, phase: Phase) {
    match phase
    case Begun => !isOpen && NeverGranted(db.grants, id) && (db.lock.Free? || db.lock.owner != id)
    case Checked => !isOpen && db.lock.Held? && db.lock.owner == id && epoch == |db.grants| + 1
    case AcquireTimed(p) =>
      !isOpen && db.lock.Held? && db.lock.owner == id && epoch == |db.grants| + 1 && p - skew <= db.now
    case Written(p) =>
      && db.lock.Staged? && db.lock.owner == id && !db.lock.abandoned
      && db.lock.kind == (if isOpen then Renewal else Grant)
      && db.lock.next.expiry == Some(p.expiry) && ProofOk(db.now, skew, p)
    case Reading(p) => p - skew <= db.now
    case Proved(p) => Backed(db.row, db.grants, id, epoch, p.expiry) && ProofOk(db.now, skew, p)
    case Measured(p, remaining, at) =>
      && Backed(db.row, db.grants, id, epoch, p.expiry) && ProofOk(db.now, skew, p) && at <= db.now
      && remaining == ConservativeRemaining(p, at + skew)
    case Refused(_) => !isOpen
    case RenewTimed(p) => isOpen && p - skew <= db.now
    case Unproven => true
    case _ => isOpen
  }

  /** The history and the lock speak of this call as it speaks of itself. */
  ghost predicate HistoryOk(db: Db, id: Id, ttl: nat, epoch: nat, lost: bool) {
    && (forall i :: 0 <= i < |db.grants| && db.grants[i].holder == id ==>
          db.grants[i].ttl == ttl && i + 1 == epoch && (db.grants[i].cleared ==> lost))
    && (db.lock.Staged? && db.lock.owner == id ==>
          db.lock.ttl == ttl && db.lock.next.epoch == epoch && (db.lock.kind == Clear ==> lost))
  }

  ghost predicate ClearOk(db: Db, id: Id, releaser: Releaser) {
    releaser == ClearWritten(true) ==>
      db.lock.Staged? && db.lock.owner == id && !db.lock.abandoned && db.lock.kind == Clear
  }

  /** The flags and channels of a lease, whatever the database does. */
  predicate LifecycleOk(c: Client) {
    if c.lease.None? then c.releaser == Idle && c.closer == NotClosing && !c.registered
    else
      var l := c.lease.value;
      && l.closes == (if l.lost then 1 else 0)
      && (!c.releaser.Idle? && !c.releaser.Stopping? && !c.releaser.Marking? ==> l.lost)
      && (l.released && c.releaser == Idle ==> l.lost)
      && (l.releaseComplete ==> l.released && c.releaser == Idle)
      && (c.releaser != Idle ==> l.released)
      && (c.phase == Exited ==> !c.registered && (l.lost || l.released || l.done))
      && (l.done && !l.lost ==> c.releaser == Marking || c.closer != NotClosing)
  }

  predicate HasLost(c: Client) { c.lease.Some? && c.lease.value.lost }

  ghost predicate LeaseOk(db: Db, id: Id, c: Client) {
    c.lease.Some? ==>
      var l := c.lease.value;
      TimesOk(db.now, db.row, db.grants, id, c.skew, c.epoch, l.safeUntil, l.proof, l.gap, l.openedAt, l.adoptedAt)
  }

  ghost predicate ClientOk(db: Db, id: Id, c: Client) {
    && PhaseOk(db, id, c.skew, c.epoch, c.lease.Some?, c.phase)
    && HistoryOk(db, id, c.ttl, c.epoch, HasLost(c))
    && ClearOk(db, id, c.releaser)
    && LeaseOk(db, id, c)
    && LifecycleOk(c)
  }

  /** Every token in the history belongs to a call that was made. */
  ghost predicate Known(s: State) {
    && (forall i :: 0 <= i < |s.db.grants| ==> s.db.grants[i].holder in s.clients)
    && (!s.db.lock.Free? ==> s.db.lock.owner in s.clients)
  }

  ghost predicate Inv(s: State) {
    && DbOk(s.db)
    && Known(s)
    && forall id :: id in s.clients ==> ClientOk(s.db, id, s.clients[id])
  }

  // ---------------------------------------------------------------- the shared row

  lemma LandKeepsDb(db: Db)
    requires DbOk(db) && db.lock.Staged?
    ensures DbOk(Land(db))
  {
    hide GrantsOk, RowOk;
    LandKeepsGrants(db);
    LandKeepsRow(db);
  }

  lemma LandKeepsGrants(db: Db)
    requires DbOk(db) && db.lock.Staged?
    ensures GrantsOk(db.now, Land(db).grants)
  {
  }

  lemma LandKeepsRow(db: Db)
    requires DbOk(db) && db.lock.Staged?
    ensures RowOk(db.now, Land(db).row, Land(db).grants, Land(db).commits)
  {
    var ks := db.commits + [db.lock.kind];
    assert ks[..|ks| - 1] == db.commits;
  }

  /** Renewals only lengthen an expiry, and a takeover starts no earlier than it. */
  lemma LandKeepsBacked(db: Db, id: Id, epoch: nat, expiry: Time)
    requires DbOk(db) && db.lock.Staged? && Backed(db.row, db.grants, id, epoch, expiry)
    ensures Backed(Land(db).row, Land(db).grants, id, epoch, expiry)
    ensures Land(db).grants[epoch - 1].checkedAt == db.grants[epoch - 1].checkedAt
  {
  }

  lemma LandKeepsPhase(db: Db, id: Id, c: Client)
    requires DbOk(db) && db.lock.Staged? && PhaseOk(db, id, c.skew, c.epoch, c.lease.Some?, c.phase)
    requires db.lock.owner == id ==> !c.phase.Written?
    ensures PhaseOk(Land(db), id, c.skew, c.epoch, c.lease.Some?, c.phase)
  {
    hide Backed, RowOk, GrantsOk;
    if c.phase.Proved? || c.phase.Measured? {
      LandKeepsBacked(db, id, c.epoch, c.phase.proof.expiry);
    }
  }

  lemma LandKeepsHistory(db: Db, id: Id, ttl: nat, epoch: nat, lost: bool)
    requires DbOk(db) && db.lock.Staged? && HistoryOk(db, id, ttl, epoch, lost)
    ensures HistoryOk(Land(db), id, ttl, epoch, lost)
  {
  }

  /** A commit leaves the promises about every client that is not itself waiting on it. */
  lemma LandKeepsClient(db: Db, id: Id, c: Client)
    requires DbOk(db) && db.lock.Staged? && ClientOk(db, id, c)
    requires db.lock.owner == id ==> !c.phase.Written? && c.releaser != ClearWritten(true)
    ensures ClientOk(Land(db), id, c)
  {
    hide LifecycleOk, DbOk, HistoryOk, PhaseOk, Backed;
    LandKeepsPhase(db, id, c);
    LandKeepsHistory(db, id, c.ttl, c.epoch, HasLost(c));
    if c.lease.Some? {
      LandKeepsBacked(db, id, c.epoch, c.lease.value.proof.expiry);
    }
  }

  lemma TickKeepsClient(db: Db, id: Id, c: Client, d: nat)
    requires ClientOk(db, id, c)
    ensures ClientOk(db.(now := db.now + d), id, c)
  {
  }

  /** Taking, marking or dropping the lock concerns only its owner. */
  lemma LockKeepsClient(db: Db, id: Id, c: Client, lock: Lock)
    requires DbOk(db) && ClientOk(db, id, c)
    requires db.lock.Free? || db.lock.owner != id
    requires lock.Free? || lock.owner != id
    ensures ClientOk(db.(lock := lock), id, c)
  {
  }

  // ---------------------------------------------------------------- one step of one client

  /** A step leaves the row alone, changes only a lock it owns, or lands its own transaction. */
  ghost predicate OwnMove(db: Db, id: Id, m: Move) {
    || m.db == db
    || (&& m.db == db.(lock := m.db.lock)
        && (db.lock.Free? || db.lock.owner == id)
        && (m.db.lock.Free? || m.db.lock.owner == id))
    || (db.lock.Staged? && db.lock.owner == id && m.db == Land(db))
  }

  ghost predicate MoveOk(db: Db, id: Id, m: Move) {
    OwnMove(db, id, m) && DbOk(m.db) && ClientOk(m.db, id, m.c)
  }

  predicate OfReleaser(a: Action) {
    || a.ReleaseStart? || a.ReleaseLocal? || a.ReleaseWrite? || a.ReleaseAcknowledged? || a.ReleaseLost?
    || a.ReleaseAborted?
    || a.ReleaseCancelled? || a.ReleaseRead? || a.ReleaseReadFailed? || a.CloseLocal?
  }

  lemma LoopLifecycleKept(db: Db, id: Id, c: Client, a: Action, cancelled: bool)
    requires LifecycleOk(c) && !OfReleaser(a)
    ensures LifecycleOk(MoveOf(db, id, c, a, cancelled).c)
  {
  }

  lemma ReleaseLifecycleKept(db: Db, id: Id, c: Client, a: Action, cancelled: bool)
    requires LifecycleOk(c) && OfReleaser(a)
    ensures LifecycleOk(MoveOf(db, id, c, a, cancelled).c)
  {
  }

  lemma LifecycleKept(db: Db, id: Id, c: Client, a: Action, cancelled: bool)
    requires LifecycleOk(c)
    ensures LifecycleOk(MoveOf(db, id, c, a, cancelled).c)
  {
    hide *;
    if OfReleaser(a) {
      ReleaseLifecycleKept(db, id, c, a, cancelled);
    } else {
      LoopLifecycleKept(db, id, c, a, cancelled);
    }
  }

  /** Steps that leave the row, the lock and the proofs alone. */
  lemma LocalKeeps(db: Db, id: Id, c: Client, a: Action)
    requires DbOk(db) && ClientOk(db, id, c)
    requires a.ReleaseStart? || a.ReleaseLocal? || a.CloseLocal? || a.ReleaseCancelled? || a.ReleaseRead?
             || a.ReleaseReadFailed?
    ensures MoveOk(db, id, MoveOf(db, id, c, a, false))
  {
    hide DbOk, PhaseOk, TimesOk, LifecycleOk, LockOk, RowOk, HistoryOk;
    var m := MoveOf(db, id, c, a, false);
    LifecycleKept(db, id, c, a, false);
    assert m.db == db;
    HistoryAfterLoss(db, id, c.ttl, c.epoch, HasLost(c), HasLost(m.c));
  }

  lemma HistoryAfterLoss(db: Db, id: Id, ttl: nat, epoch: nat, lost: bool, lost': bool)
    requires HistoryOk(db, id, ttl, epoch, lost) && (lost ==> lost')
    ensures HistoryOk(db, id, ttl, epoch, lost')
  {
  }

  lemma LoopKeeps(db: Db, id: Id, c: Client, a: Action, cancelled: bool)
    requires DbOk(db) && ClientOk(db, id, c)
    requires a.LoopTop? || a.WakeDone? || a.WakeCancelled? || a.WakeExpiry? || a.WakeRenew?
    ensures MoveOk(db, id, MoveOf(db, id, c, a, cancelled))
  {
    hide DbOk, TimesOk, LifecycleOk, ClearOk;
    LifecycleKept(db, id, c, a, cancelled);
  }

  lemma SelectKeeps(db: Db, id: Id, c: Client)
    requires DbOk(db) && ClientOk(db, id, c)
    ensures MoveOk(db, id, StepSelect(db, id, c))
  {
    hide LifecycleOk, TimesOk;
    LifecycleKept(db, id, c, SelectForUpdate(id), false);
  }

  lemma StartProofKeeps(db: Db, id: Id, c: Client)
    requires DbOk(db) && ClientOk(db, id, c)
    ensures MoveOk(db, id, StepStartProof(db, id, c))
  {
    hide DbOk, TimesOk, LifecycleOk, ClearOk, HistoryOk;
    LifecycleKept(db, id, c, StartProof(id), false);
  }

  lemma GrantWriteKeeps(db: Db, id: Id, c: Client)
    requires DbOk(db) && ClientOk(db, id, c) && c.phase.AcquireTimed?
    ensures MoveOk(db, id, StepWrite(db, id, c))
  {
    LifecycleKept(db, id, c, WriteRow(id), false);
    hide LifecycleOk, TimesOk, RowOk, GrantsOk;
  }

  lemma RenewalWriteKeeps(db: Db, id: Id, c: Client)
    requires DbOk(db) && ClientOk(db, id, c) && c.phase.RenewTimed?
    ensures MoveOk(db, id, StepWrite(db, id, c))
  {
    hide DbOk, ClientOk;
    if db.lock == Free && Owns(db.row, id, c.epoch, db.now) {
      RenewalIsOk(db, id, c);
      RenewerIsOk(db, id, c);
    } else if db.lock == Free {
      LoserIsOk(db, id, c);
    }
  }

  lemma LoserIsOk(db: Db, id: Id, c: Client)
    requires ClientOk(db, id, c) && c.phase.RenewTimed?
    ensures ClientOk(db, id, c.(phase := Unproven))
  {
    hide HistoryOk, TimesOk, ClearOk;
  }

  lemma RenewerIsOk(db: Db, id: Id, c: Client)
    requires DbOk(db) && ClientOk(db, id, c)
    requires c.phase.RenewTimed? && db.lock == Free && Owns(db.row, id, c.epoch, db.now)
    ensures ClientOk(StepWrite(db, id, c).db, id, StepWrite(db, id, c).c)
  {
    LifecycleKept(db, id, c, WriteRow(id), false);
    hide LifecycleOk, DbOk, TimesOk;
  }

  /** The staged renewal lengthens the expiry of its own row. */
  lemma RenewalIsOk(db: Db, id: Id, c: Client)
    requires DbOk(db) && ClientOk(db, id, c)
    requires c.phase.RenewTimed? && db.lock == Free && Owns(db.row, id, c.epoch, db.now)
    ensures DbOk(StepWrite(db, id, c).db)
  {
    hide LifecycleOk, ClearOk, GrantsOk;
  }

  lemma WriteKeeps(db: Db, id: Id, c: Client)
    requires DbOk(db) && ClientOk(db, id, c)
    ensures MoveOk(db, id, StepWrite(db, id, c))
  {
    hide DbOk, ClientOk, LifecycleOk;
    if c.phase.AcquireTimed? {
      GrantWriteKeeps(db, id, c);
    } else if c.phase.RenewTimed? {
      RenewalWriteKeeps(db, id, c);
    }
  }

  lemma AbortKeeps(db: Db, id: Id, c: Client, a: Action)
    requires DbOk(db) && ClientOk(db, id, c) && (a.Abort? || a.CommitLost?)
    ensures MoveOk(db, id, MoveOf(db, id, c, a, false))
  {
    hide LifecycleOk, GrantsOk, RowOk, TimesOk;
    LifecycleKept(db, id, c, a, false);
  }

  lemma CommitKeeps(db: Db, id: Id, c: Client)
    requires DbOk(db) && ClientOk(db, id, c)
    ensures MoveOk(db, id, StepCommitAcknowledged(db, id, c))
  {
    if c.phase.Written? {
      LandKeepsDb(db);
      LandKeepsClient(db, id, c.(phase := Unproven));
    }
  }

  lemma ReadKeeps(db: Db, id: Id, c: Client, a: Action)
    requires DbOk(db) && ClientOk(db, id, c) && (a.ReadRow? || a.ReadFailed?)
    ensures MoveOk(db, id, MoveOf(db, id, c, a, false))
  {
    hide TimesOk, LifecycleOk, ClearOk;
    LifecycleKept(db, id, c, a, false);
  }

  lemma MeasureKeeps(db: Db, id: Id, c: Client)
    requires DbOk(db) && ClientOk(db, id, c)
    ensures MoveOk(db, id, StepMeasure(db, id, c))
  {
    LifecycleKept(db, id, c, Measure(id), false);
    hide DbOk, LifecycleOk, ClearOk, TimesOk, HistoryOk;
  }

  /** newLease. */
  lemma OpenKeeps(db: Db, id: Id, c: Client)
    requires DbOk(db) && ClientOk(db, id, c) && c.phase.Measured? && c.lease.None?
    ensures MoveOk(db, id, StepAdopt(db, id, c))
  {
    LifecycleKept(db, id, c, Adopt(id), false);
    hide DbOk, LifecycleOk, ClearOk;
    assert Backed(db.row, db.grants, id, c.epoch, c.phase.proof.expiry);
    assert GrantsOk(db.now, db.grants) by { GrantsAreOk(db); }
  }

  lemma GrantsAreOk(db: Db)
    requires DbOk(db)
    ensures GrantsOk(db.now, db.grants)
  {
  }

  /** The end of a round. */
  lemma ExtendKeeps(db: Db, id: Id, c: Client)
    requires DbOk(db) && ClientOk(db, id, c) && c.phase.Measured? && c.lease.Some?
    ensures MoveOk(db, id, StepAdopt(db, id, c))
  {
    LifecycleKept(db, id, c, Adopt(id), false);
    hide DbOk, LifecycleOk, ClearOk, HistoryOk, Backed;
    var m := StepAdopt(db, id, c);
    assert m.db == db;
    HistoryAfterLoss(db, id, c.ttl, c.epoch, HasLost(c), HasLost(m.c));
  }

  lemma AdoptKeeps(db: Db, id: Id, c: Client)
    requires DbOk(db) && ClientOk(db, id, c)
    ensures MoveOk(db, id, StepAdopt(db, id, c))
  {
    hide DbOk, ClientOk;
    if c.phase.Measured? {
      if c.lease.None? {
        OpenKeeps(db, id, c);
      } else {
        ExtendKeeps(db, id, c);
      }
    }
  }

  lemma ClearKeeps(db: Db, id: Id, c: Client)
    requires DbOk(db) && ClientOk(db, id, c)
    ensures MoveOk(db, id, StepReleaseWrite(db, id, c))
  {
    assert c.releaser == Clearing ==> HasLost(c);
    hide LifecycleOk, TimesOk, GrantsOk;
    LifecycleKept(db, id, c, ReleaseWrite(id), false);
  }

  lemma ClearCommitKeeps(db: Db, id: Id, c: Client)
    requires DbOk(db) && ClientOk(db, id, c)
    ensures MoveOk(db, id, StepReleaseOutcome(db, id, c, ReleaseAcknowledged(id)))
  {
    if c.releaser == ClearWritten(true) {
      assert LifecycleOk(c.(releaser := Clearing)) && LifecycleOk(Complete(c));
      hide LifecycleOk, DbOk, PhaseOk, TimesOk, HistoryOk;
      LandKeepsDb(db);
      LandKeepsClient(db, id, c.(releaser := Clearing));
    } else {
      hide DbOk, PhaseOk, TimesOk, HistoryOk;
    }
  }

  lemma ClearUnprovenKeeps(db: Db, id: Id, c: Client, a: Action)
    requires DbOk(db) && ClientOk(db, id, c) && (a.ReleaseLost? || a.ReleaseAborted?)
    ensures MoveOk(db, id, MoveOf(db, id, c, a, false))
  {
    hide LifecycleOk, GrantsOk, RowOk, TimesOk;
    LifecycleKept(db, id, c, a, false);
  }

  lemma MoveKeeps(db: Db, id: Id, c: Client, a: Action, cancelled: bool)
    requires DbOk(db) && ClientOk(db, id, c)
    ensures MoveOk(db, id, MoveOf(db, id, c, a, cancelled))
  {
    hide DbOk, ClientOk;
    match a
    case SelectForUpdate(_) => SelectKeeps(db, id, c);
    case StartProof(_) => StartProofKeeps(db, id, c);
    case WriteRow(_) => WriteKeeps(db, id, c);
    case CommitAcknowledged(_) => CommitKeeps(db, id, c);
    case CommitLost(_) => AbortKeeps(db, id, c, a);
    case Abort(_) => AbortKeeps(db, id, c, a);
    case ReadRow(_) => ReadKeeps(db, id, c, a);
    case ReadFailed(_) => ReadKeeps(db, id, c, a);
    case Measure(_) => MeasureKeeps(db, id, c);
    case Adopt(_) => AdoptKeeps(db, id, c);
    case LoopTop(_) => LoopKeeps(db, id, c, a, cancelled);
    case WakeDone(_) => LoopKeeps(db, id, c, a, cancelled);
    case WakeCancelled(_) => LoopKeeps(db, id, c, a, cancelled);
    case WakeExpiry(_) => LoopKeeps(db, id, c, a, cancelled);
    case WakeRenew(_) => LoopKeeps(db, id, c, a, cancelled);
    case ReleaseWrite(_) => ClearKeeps(db, id, c);
    case ReleaseAcknowledged(_) => ClearCommitKeeps(db, id, c);
    case ReleaseLost(_) => ClearUnprovenKeeps(db, id, c, a);
    case ReleaseAborted(_) => ClearUnprovenKeeps(db, id, c, a);
    case ReleaseStart(_) => LocalKeeps(db, id, c, a);
    case ReleaseLocal(_) => LocalKeeps(db, id, c, a);
    case CloseLocal(_) => LocalKeeps(db, id, c, a);
    case ReleaseCancelled(_) => LocalKeeps(db, id, c, a);
    case ReleaseRead(_) => LocalKeeps(db, id, c, a);
    case ReleaseReadFailed(_) => LocalKeeps(db, id, c, a);
    case _ =>
  }

  // ---------------------------------------------------------------- one step of the machine

  /** Whatever one client does to the row, the promises about another client stand. */
  lemma OtherClientKept(db: Db, id: Id, m: Move, j: Id, c: Client)
    requires DbOk(db) && MoveOk(db, id, m) && ClientOk(db, j, c) && j != id
    ensures ClientOk(m.db, j, c)
  {
    if m.db != db {
      if m.db == db.(lock := m.db.lock) {
        LockKeepsClient(db, j, c, m.db.lock);
      } else {
        LandKeepsClient(db, j, c);
      }
    }
  }

  lemma PutKeeps(s: State, id: Id, m: Move)
    requires Inv(s) && id in s.clients && MoveOk(s.db, id, m)
    ensures Inv(Put(s, m.db, id, m.c))
  {
    hide DbOk, ClientOk;
    var s' := Put(s, m.db, id, m.c);
    forall j | j in s'.clients ensures ClientOk(s'.db, j, s'.clients[j]) {
      if j != id {
        OtherClientKept(s.db, id, m, j, s.clients[j]);
      }
    }
  }

  lemma SettleKeeps(s: State, lands: bool)
    requires Inv(s)
    ensures Inv(StepSettle(s, lands))
  {
    if s.db.lock.Staged? && s.db.lock.abandoned {
      LandKeepsDb(s.db);
      forall id | id in s.clients ensures ClientOk(StepSettle(s, lands).db, id, s.clients[id]) {
        if lands {
          LandKeepsClient(s.db, id, s.clients[id]);
        }
      }
    }
  }

  lemma DbTicks(db: Db, d: nat)
    requires DbOk(db)
    ensures DbOk(db.(now := db.now + d))
  {
  }

  lemma TickKeeps(s: State, d: nat)
    requires Inv(s)
    ensures Inv(s.(db := s.db.(now := s.db.now + d)))
  {
    hide ClientOk, LockOk, GrantsOk, RowOk;
    DbTicks(s.db, d);
    forall id | id in s.clients ensures ClientOk(s.db.(now := s.db.now + d), id, s.clients[id]) {
      TickKeepsClient(s.db, id, s.clients[id], d);
    }
  }

  lemma CollectKeepsClient(db: Db, id: Id, c: Client)
    requires ClientOk(db, id, c) && c.lease.Some?
    ensures ClientOk(db, id, c.(closer := CloseStopping))
  {
  }

  lemma CollectKeeps(s: State, store: StoreId)
    requires Inv(s)
    ensures Inv(StepCollect(s, store))
  {
    var s' := StepCollect(s, store);
    forall id | id in s'.clients ensures ClientOk(s'.db, id, s'.clients[id]) {
      if s'.clients[id] != s.clients[id] {
        CollectKeepsClient(s.db, id, s.clients[id]);
      }
    }
  }

  lemma AcquireKeeps(s: State, a: Action)
    requires Inv(s) && a.Acquire?
    ensures Inv(Next(s, a))
  {
  }

  lemma NextKeeps(s: State, a: Action)
    requires Inv(s)
    ensures Inv(Next(s, a))
  {
    hide ClientOk, DbOk, MoveOf, StepCollect, StepSettle;
    match a
    case Tick(d) => TickKeeps(s, d);
    case Settle(lands) => SettleKeeps(s, lands);
    case CancelStore(_) =>
    case CollectLeases(store) => CollectKeeps(s, store);
    case Acquire(_, _, _, _, _) => AcquireKeeps(s, a);
    case _ =>
      if a.id in s.clients {
        var cancelled := s.clients[a.id].store in s.cancelled;
        MoveKeeps(s.db, a.id, s.clients[a.id], a, cancelled);
        PutKeeps(s, a.id, MoveOf(s.db, a.id, s.clients[a.id], a, cancelled));
      }
  }

  lemma {:induction false} Reachable(start: Time, actions: seq<Action>, n: nat)
    requires n <= |actions|
    ensures Inv(At(start, actions, n))
  {
    if n > 0 {
      Reachable(start, actions, n - 1);
      NextKeeps(At(start, actions, n - 1), actions[n - 1]);
    }
  }
}
