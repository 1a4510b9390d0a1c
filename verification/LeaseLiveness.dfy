/** When renewal keeps a lease alive. */
module LeaseLiveness {
  import opened Common
  import opened LeaseProtocol
  import opened LeaseSafety
  import opened LeaseTheorems

  /** Release was called on this lease, or Close on its store. */
  predicate Ended(s: State, id: Id)
    requires id in s.clients
  {
    (s.clients[id].lease.Some? && s.clients[id].lease.value.released) || s.clients[id].store in s.cancelled
  }

  /**
   The timing assumption.  A renewal starts at most d after its timer was due, and a proof
   (from timing the write to adopting the safe time, a reread included) takes at most d.
   */
  predicate Timely(s: State, id: Id, d: nat) { id in s.clients ==> InTime(s.db.now, s.clients[id], d) }

  predicate InTime(now: Time, c: Client, d: nat) {
    && (Proving(c.phase) ==> now <= c.roundStarted + d)
    && (c.lease.Some? && !Proving(c.phase) && c.phase != Exited ==>
          now <= c.lease.value.adoptedAt + c.renewInterval + d)
  }

  predicate Proving(p: Phase) {
    p.AcquireTimed? || p.RenewTimed? || p.Written? || p.Unproven? || p.Reading? || p.Proved? || p.Measured?
  }

  /**
   The reread that follows a failed renewal is answered, unless the safe time has come and its
   context has ended; what it finds is left open.
   */
  predicate Answered(s: State, a: Action, id: Id) {
    a == ReadFailed(id) && id in s.clients && s.clients[id].lease.Some? ==> PastDeadline(s.db, s.clients[id])
  }

  /** At most k rounds in a row have ended without a renewed row. */
  predicate AtMost(s: State, id: Id, k: nat) {
    id in s.clients && s.clients[id].lease.Some? && !Ended(s, id) ==> s.clients[id].lease.value.misses <= k
  }

  /** How far m rounds without a renewed row put the lease back, when a round and its timer take a cycle. */
  function Lag(cycle: nat, m: nat): nat { if m == 0 then 0 else Lag(cycle, m - 1) + cycle }

  function Cycle(c: Client, d: nat): nat { c.renewInterval + 2 * d }

  /** The time to live leaves room for one more round after the misses so far. */
  predicate Slack(c: Client, m: nat, d: nat) { Lag(Cycle(c, d), m) + Cycle(c, d) + 2 * d < c.ttl }

  lemma {:induction false} LagIsProduct(cycle: nat, m: nat)
    ensures Lag(cycle, m) == m * cycle
  {
    if m > 0 {
      LagIsProduct(cycle, m - 1);
    }
  }

  lemma {:induction false} LagGrows(cycle: nat, m: nat, k: nat)
    requires m <= k
    ensures Lag(cycle, m) <= Lag(cycle, k)
  {
    if m < k {
      LagGrows(cycle, m, k - 1);
    }
  }

  lemma RoomIsSlack(c: Client, d: nat, k: nat, m: nat)
    requires (k + 1) * (c.renewInterval + 2 * d) + 2 * d < c.ttl && m <= k
    ensures Slack(c, m, d)
  {
    LagIsProduct(Cycle(c, d), k + 1);
    LagGrows(Cycle(c, d), m + 1, k + 1);
    assert Lag(Cycle(c, d), m + 1) == Lag(Cycle(c, d), m) + Cycle(c, d);
    hide Lag;
  }

  predicate OwnLock(db: Db, id: Id) { db.lock.Staged? && db.lock.owner == id }

  /** The row is ours and its expiry is at least `bound`. */
  predicate Secured(db: Db, id: Id, epoch: nat, bound: Time) {
    Matches(db.row, id, epoch) && db.row.value.expiry.Some? && db.row.value.expiry.value >= bound
  }

  predicate Fresh(c: Client, p: Proof, now: Time) {
    p.started - c.skew >= c.roundStarted && c.roundStarted <= p.stamp <= now && p.expiry >= c.roundStarted + c.ttl
  }

  /** Before there is a Lease: if the grant lands, it outlives the round. */
  predicate Pending(db: Db, id: Id, c: Client, d: nat) {
    && (OwnLock(db, id) ==>
          db.lock.kind == Grant && db.lock.next.expiry.Some? && db.lock.next.expiry.value >= c.roundStarted + c.ttl)
    && (Matches(db.row, id, c.epoch) ==> Secured(db, id, c.epoch, c.roundStarted + c.ttl))
    && (c.phase.AcquireTimed? ==> c.phase.started - c.skew == c.roundStarted <= db.now)
    && (c.phase.Reading? ==> c.phase.started - c.skew >= c.roundStarted)
    && (c.phase.Unproven? ==> c.roundStarted <= db.now)
    && (c.phase.Written? ==> Fresh(c, c.phase.proof, db.now))
    && (c.phase.Proved? || c.phase.Measured? ==>
          Matches(db.row, id, c.epoch) && !OwnLock(db, id) && Fresh(c, c.phase.proof, db.now))
    && (c.phase.Measured? ==> c.phase.remaining >= c.ttl - 2 * d)
  }

  /** What the misses so far leave of the expiry that the last renewed row had. */
  function Floor(c: Client, l: Lease, d: nat): Time { l.adoptedAt - d + c.ttl - Lag(Cycle(c, d), l.misses) }

  predicate Rested(db: Db, id: Id, c: Client, l: Lease, d: nat) {
    Secured(db, id, c.epoch, Floor(c, l, d)) && l.safeUntil - c.skew >= Floor(c, l, d) - d
  }

  predicate RoundStarted(db: Db, id: Id, c: Client, l: Lease, d: nat) {
    && Rested(db, id, c, l, d)
    && l.adoptedAt <= c.roundStarted <= l.adoptedAt + c.renewInterval + d
    && c.roundStarted <= db.now
  }

  /** A proof of this round, of a renewed row or of the old one. */
  predicate Seen(c: Client, l: Lease, p: Proof, now: Time, d: nat) {
    p.started - c.skew >= c.roundStarted && c.roundStarted <= p.stamp <= now && p.expiry >= Floor(c, l, d)
  }

  predicate Alive(db: Db, id: Id, c: Client, l: Lease, d: nat) {
    && !l.lost && !l.done && c.closer == NotClosing && c.releaser == Idle
    && match c.phase
       case Top => Rested(db, id, c, l, d)
       case Waiting(until, since) => Rested(db, id, c, l, d) && until == l.safeUntil
       case RenewReady => Rested(db, id, c, l, d)
       case RenewTimed(p) => RoundStarted(db, id, c, l, d) && p - c.skew == c.roundStarted
       case Written(p) => RoundStarted(db, id, c, l, d) && Fresh(c, p, db.now)
       case Unproven => RoundStarted(db, id, c, l, d)
       case Reading(p) => RoundStarted(db, id, c, l, d) && p - c.skew >= c.roundStarted
       case Proved(p) => RoundStarted(db, id, c, l, d) && Seen(c, l, p, db.now, d)
       case Measured(p, _, _) => RoundStarted(db, id, c, l, d) && Seen(c, l, p, db.now, d)
       case _ => false
  }

  /** What a timely run with few misses keeps about the client under consideration. */
  predicate LiveInv(s: State, id: Id, d: nat) {
    id in s.clients && !Ended(s, id) ==>
      var c := s.clients[id];
      if c.lease.None? then Pending(s.db, id, c, d) else Alive(s.db, id, c, c.lease.value, d)
  }

  function MissesOf(c: Client): nat { if c.lease.Some? then c.lease.value.misses else 0 }

  predicate Enough(s: State, id: Id, d: nat) { id in s.clients ==> Slack(s.clients[id], MissesOf(s.clients[id]), d) }

  /** The row is ours and unexpired at every timely instant of a live lease. */
  lemma AliveIsLive(s: State, id: Id, d: nat)
    requires Timely(s, id, d) && id in s.clients && s.clients[id].lease.Some?
    requires Slack(s.clients[id], s.clients[id].lease.value.misses, d)
    requires Alive(s.db, id, s.clients[id], s.clients[id].lease.value, d)
    ensures Owns(s.db.row, id, s.clients[id].epoch, s.db.now)
    ensures Proving(s.clients[id].phase) ==> !PastDeadline(s.db, s.clients[id])
  {
    hide Lag;
  }

  // ---------------------------------------------------------------- steps of the client itself

  lemma PendingMove(db: Db, id: Id, c: Client, a: Action, cancelled: bool, d: nat)
    requires DbOk(db) && ClientOk(db, id, c) && c.lease.None? && Pending(db, id, c, d)
    requires Proving(c.phase) ==> db.now <= c.roundStarted + d
    requires !a.Adopt? && !a.CommitAcknowledged?
    ensures var m := MoveOf(db, id, c, a, cancelled); m.c.lease.None? && Pending(m.db, id, m.c, d)
  {
    hide TimesOk, HistoryOk, GrantsOk;
  }

  lemma PendingCommit(db: Db, id: Id, c: Client, d: nat)
    requires DbOk(db) && ClientOk(db, id, c) && c.lease.None? && Pending(db, id, c, d)
    ensures var m := StepCommitAcknowledged(db, id, c); Pending(m.db, id, m.c, d)
  {
    hide TimesOk, GrantsOk;
  }

  /** newLease: the first safe time. */
  lemma PendingAdopt(db: Db, id: Id, c: Client, d: nat)
    requires DbOk(db) && ClientOk(db, id, c) && Pending(db, id, c, d) && c.lease.None? && c.phase.Measured?
    requires db.now <= c.roundStarted + d
    ensures var m := StepAdopt(db, id, c); m.c.lease.Some? && Alive(m.db, id, m.c, m.c.lease.value, d)
  {
    hide TimesOk, HistoryOk, GrantsOk, RowOk;
  }

  /** A step of the loop that neither commits nor adopts, while nothing is being proved. */
  lemma RestingMove(db: Db, id: Id, c: Client, a: Action, d: nat)
    requires c.lease.Some? && !c.lease.value.released && Alive(db, id, c, c.lease.value, d) && !Proving(c.phase)
    requires c.lease.value.adoptedAt <= db.now <= c.lease.value.adoptedAt + c.renewInterval + d
    requires Slack(c, c.lease.value.misses, d)
    requires !OfReleaser(a) && !a.Adopt? && !Global(a)
    ensures var m := MoveOf(db, id, c, a, false);
            m.c.lease.Some? && !m.c.lease.value.released && Alive(m.db, id, m.c, m.c.lease.value, d)
  {
    hide Lag;
  }

  /** The same while a proof is under way. */
  lemma ProvingMove(db: Db, id: Id, c: Client, a: Action, d: nat)
    requires c.lease.Some? && !c.lease.value.released && Alive(db, id, c, c.lease.value, d) && Proving(c.phase)
    requires Owns(db.row, id, c.epoch, db.now) && !PastDeadline(db, c)
    requires !OfReleaser(a) && !a.CommitAcknowledged? && !a.CommitLost? && !a.Adopt? && !Global(a) && !a.ReadFailed?
    ensures var m := MoveOf(db, id, c, a, false);
            m.c.lease.Some? && !m.c.lease.value.released && Alive(m.db, id, m.c, m.c.lease.value, d)
  {
    hide Lag;
  }

  lemma AliveMove(s: State, id: Id, a: Action, d: nat)
    requires id in s.clients && s.clients[id].lease.Some? && Inv(s) && Timely(s, id, d) && Enough(s, id, d)
    requires Answered(s, a, id) && Alive(s.db, id, s.clients[id], s.clients[id].lease.value, d) && !Ended(s, id)
    requires !OfReleaser(a) && !a.CommitAcknowledged? && !a.CommitLost? && !a.Adopt? && !Global(a) && a.id == id
    ensures var m := MoveOf(s.db, id, s.clients[id], a, false);
            m.c.lease.Some? && !m.c.lease.value.released && Alive(m.db, id, m.c, m.c.lease.value, d)
  {
    AliveIsLive(s, id, d);
    assert ClientOk(s.db, id, s.clients[id]);
    assert s.clients[id].lease.value.adoptedAt <= s.db.now;
    assert s.clients[id].phase != Exited;
    hide Inv, ClientOk, MoveOf, Alive, Slack;
    if Proving(s.clients[id].phase) {
      ProvingMove(s.db, id, s.clients[id], a, d);
    } else {
      RestingMove(s.db, id, s.clients[id], a, d);
    }
  }

  /** The end of a round, with a renewed row or without. */
  lemma AliveAdopt(db: Db, id: Id, c: Client, d: nat)
    requires DbOk(db) && ClientOk(db, id, c) && c.lease.Some? && Alive(db, id, c, c.lease.value, d)
    requires !c.lease.value.released
    requires c.phase.Measured? && db.now <= c.roundStarted + d
    requires Slack(c, MissesAfter(c, c.lease.value, c.phase.proof), d)
    ensures var m := StepAdopt(db, id, c);
            m.c.lease.Some? && !m.c.lease.value.released && Alive(m.db, id, m.c, m.c.lease.value, d)
  {
    hide LockOk, GrantsOk, HistoryOk;
  }

  lemma AliveCommit(db: Db, id: Id, c: Client, a: Action, d: nat)
    requires DbOk(db) && ClientOk(db, id, c) && c.lease.Some? && Alive(db, id, c, c.lease.value, d)
    requires a == CommitAcknowledged(id) || a == CommitLost(id)
    ensures var m := MoveOf(db, id, c, a, false);
            m.c.lease == c.lease && Alive(m.db, id, m.c, m.c.lease.value, d)
  {
    hide TimesOk, GrantsOk, LifecycleOk, Lag;
  }

  // ---------------------------------------------------------------- steps of everybody else

  /** While the row is ours and unexpired no other call can even lock it. */
  lemma OthersLeaveLiveRowAlone(db: Db, id: Id, epoch: nat, j: Id, m: Move)
    requires DbOk(db) && MoveOk(db, j, m) && j != id && Owns(db.row, id, epoch, db.now)
    ensures m.db == db
  {
    hide ClientOk, GrantsOk;
  }

  lemma OthersLeavePendingAlone(db: Db, id: Id, c: Client, d: nat, j: Id, m: Move)
    requires DbOk(db) && MoveOk(db, j, m) && j != id && Pending(db, id, c, d) && c.lease.None?
    requires Proving(c.phase) ==> db.now <= c.roundStarted + d
    requires 2 * d < c.ttl
    ensures Pending(m.db, id, c, d)
  {
    hide ClientOk, GrantsOk;
    if Proving(c.phase) && Matches(db.row, id, c.epoch) {
      OthersLeaveLiveRowAlone(db, id, c.epoch, j, m);
    }
  }

  lemma OthersKeepLive(s: State, a: Action, id: Id, d: nat)
    requires Inv(s) && LiveInv(s, id, d) && Timely(s, id, d) && Enough(s, id, d) && id in s.clients && !Ended(s, id)
    requires !Global(a)
    requires a.id != id && a.id in s.clients
    ensures LiveInv(Next(s, a), id, d)
  {
    assert s.clients[id].lease.None? ==> 2 * d < s.clients[id].ttl;
    hide Next, ClientOk, DbOk, MoveOf, Pending, Alive, Slack;
    OtherStep(s, a, id);
    var c, j := s.clients[id], s.clients[a.id];
    var cancelled := j.store in s.cancelled;
    var m := MoveOf(s.db, a.id, j, a, cancelled);
    MoveKeeps(s.db, a.id, j, a, cancelled);
    if c.lease.None? {
      OthersLeavePendingAlone(s.db, id, c, d, a.id, m);
    } else {
      AliveIsLive(s, id, d);
      OthersLeaveLiveRowAlone(s.db, id, c.epoch, a.id, m);
    }
  }

  /** A commit in flight lands, or time passes. */
  lemma SettleKeepsLive(db: Db, id: Id, c: Client, d: nat, lands: bool)
    requires DbOk(db) && ClientOk(db, id, c) && db.lock.Staged? && db.lock.abandoned
    requires c.lease.Some? ==> Alive(db, id, c, c.lease.value, d) && Owns(db.row, id, c.epoch, db.now)
    requires c.lease.None? ==> Pending(db, id, c, d) && 2 * d < c.ttl
    requires Proving(c.phase) ==> db.now <= c.roundStarted + d
    ensures var db' := if lands then Land(db) else db.(lock := Free);
            if c.lease.None? then Pending(db', id, c, d) else Alive(db', id, c, c.lease.value, d)
  {
    hide GrantsOk, LifecycleOk, Lag;
  }

  lemma TickKeepsLive(s: State, id: Id, d: nat, delay: nat)
    requires id in s.clients && LiveInv(s, id, d)
    ensures LiveInv(Next(s, Tick(delay)), id, d)
  {
  }

  /** Any of the client's own threads. */
  lemma OwnMoveKeepsLive(s: State, a: Action, id: Id, d: nat)
    requires Inv(s) && LiveInv(s, id, d) && Timely(s, id, d) && Answered(s, a, id) && id in s.clients && !Ended(s, id)
    requires !Global(a) && a.id == id && Enough(s, id, d)
    requires Slack(s.clients[id], MissesOf(MoveOf(s.db, id, s.clients[id], a, false).c), d)
    ensures var m := MoveOf(s.db, id, s.clients[id], a, false);
            if m.c.lease.None? then Pending(m.db, id, m.c, d)
            else m.c.lease.value.released || Alive(m.db, id, m.c, m.c.lease.value, d)
  {
    var c := s.clients[id];
    hide ClientOk, DbOk, Pending, Alive, MoveOf, Next;
    if c.lease.None? {
      PendingStep(s.db, id, c, a, d);
    } else if OfReleaser(a) {
      AliveRelease(s.db, id, c, a, d);
    } else if a.CommitAcknowledged? || a.CommitLost? {
      AliveCommit(s.db, id, c, a, d);
    } else if a.Adopt? {
      AdoptStep(s, id, d);
    } else {
      AliveMove(s, id, a, d);
    }
  }

  lemma AdoptStep(s: State, id: Id, d: nat)
    requires Inv(s) && Timely(s, id, d) && id in s.clients && !Ended(s, id) && s.clients[id].lease.Some?
    requires Alive(s.db, id, s.clients[id], s.clients[id].lease.value, d)
    requires Slack(s.clients[id], MissesOf(MoveOf(s.db, id, s.clients[id], Adopt(id), false).c), d)
    ensures var m := MoveOf(s.db, id, s.clients[id], Adopt(id), false);
            m.c.lease.Some? && !m.c.lease.value.released && Alive(m.db, id, m.c, m.c.lease.value, d)
  {
    hide ClientOk, DbOk, Alive, Slack;
    if s.clients[id].phase.Measured? {
      AliveAdopt(s.db, id, s.clients[id], d);
    }
  }

  lemma MoveKeepsStore(db: Db, id: Id, c: Client, a: Action, cancelled: bool)
    ensures var c' := MoveOf(db, id, c, a, cancelled).c;
            c'.store == c.store && c'.ttl == c.ttl && c'.renewInterval == c.renewInterval
  {
  }

  lemma OwnStepKeepsLive(s: State, a: Action, id: Id, d: nat)
    requires Inv(s) && LiveInv(s, id, d) && Timely(s, id, d) && Answered(s, a, id) && id in s.clients && !Ended(s, id)
    requires !Global(a) && a.id == id && Enough(s, id, d) && Enough(Next(s, a), id, d)
    ensures LiveInv(Next(s, a), id, d)
  {
    hide MoveOf;
    var c := s.clients[id];
    var m := MoveOf(s.db, id, c, a, false);
    hide Next, Inv, Timely, Answered, Pending, Alive, Lag;
    OwnStep(s, a);
    MoveKeepsStore(s.db, id, c, a, false);
    assert Slack(c, MissesOf(m.c), d);
    OwnMoveKeepsLive(s, a, id, d);
  }

  /** A step of another client, as far as this one is concerned. */
  lemma OtherStep(s: State, a: Action, id: Id)
    requires !Global(a) && a.id != id && id in s.clients && a.id in s.clients
    ensures var j := s.clients[a.id]; var m := MoveOf(s.db, a.id, j, a, j.store in s.cancelled);
            && id in Next(s, a).clients && Next(s, a).clients[id] == s.clients[id] && Next(s, a).db == m.db
            && Next(s, a).cancelled == s.cancelled
  {
    hide MoveOf;
  }

  lemma PendingStep(db: Db, id: Id, c: Client, a: Action, d: nat)
    requires DbOk(db) && ClientOk(db, id, c) && c.lease.None? && Pending(db, id, c, d)
    requires Proving(c.phase) ==> db.now <= c.roundStarted + d
    ensures var m := MoveOf(db, id, c, a, false);
            if m.c.lease.None? then Pending(m.db, id, m.c, d) else Alive(m.db, id, m.c, m.c.lease.value, d)
  {
    hide ClientOk, DbOk, Pending, Alive;
    if a.Adopt? && c.phase.Measured? {
      PendingAdopt(db, id, c, d);
    } else if a.CommitAcknowledged? {
      PendingCommit(db, id, c, d);
    } else if !a.Adopt? {
      hide MoveOf;
      PendingMove(db, id, c, a, false, d);
    }
  }

  lemma AliveRelease(db: Db, id: Id, c: Client, a: Action, d: nat)
    requires c.lease.Some? && Alive(db, id, c, c.lease.value, d) && OfReleaser(a)
    ensures var m := MoveOf(db, id, c, a, false);
            m == Move(db, c) || (m.c.lease.Some? && m.c.lease.value.released)
  {
  }

  // ---------------------------------------------------------------- runs

  lemma SettleStepKeepsLive(s: State, lands: bool, id: Id, d: nat)
    requires Inv(s) && LiveInv(s, id, d) && Timely(s, id, d) && Enough(s, id, d) && id in s.clients && !Ended(s, id)
    ensures LiveInv(StepSettle(s, lands), id, d)
  {
    assert s.clients[id].lease.None? ==> 2 * d < s.clients[id].ttl;
    hide ClientOk, DbOk, Pending, Alive, Land, Slack;
    var c := s.clients[id];
    if s.db.lock.Staged? && s.db.lock.abandoned {
      if c.lease.Some? {
        AliveIsLive(s, id, d);
      }
      SettleKeepsLive(s.db, id, c, d, lands);
    }
  }

  lemma RegistryKeepsLive(s: State, a: Action, id: Id, d: nat)
    requires LiveInv(s, id, d) && id in s.clients && !Ended(s, id)
    requires a.Acquire? || a.CancelStore? || a.CollectLeases?
    ensures LiveInv(Next(s, a), id, d)
  {
    hide Pending, Alive;
  }

  lemma LiveStep(s: State, a: Action, id: Id, d: nat)
    requires Inv(s) && LiveInv(s, id, d) && Timely(s, id, d) && Answered(s, a, id) && id in s.clients && !Ended(s, id)
    requires Enough(s, id, d) && Enough(Next(s, a), id, d)
    ensures LiveInv(Next(s, a), id, d)
  {
    hide Inv, Timely, Answered, LiveInv, Enough, MoveOf, StepCollect, StepSettle;
    if a.Tick? {
      TickKeepsLive(s, id, d, a.delay);
    } else if a.Settle? {
      SettleStepKeepsLive(s, a.lands, id, d);
    } else if a.Acquire? || a.CancelStore? || a.CollectLeases? {
      RegistryKeepsLive(s, a, id, d);
    } else if a.id == id {
      OwnStepKeepsLive(s, a, id, d);
    } else if a.id in s.clients {
      hide Next;
      OthersKeepLive(s, a, id, d);
    }
  }

  lemma StoreIsFixed(s: State, a: Action, id: Id)
    requires id in s.clients
    ensures id in Next(s, a).clients
    ensures var c, c' := s.clients[id], Next(s, a).clients[id];
            c'.store == c.store && c'.ttl == c.ttl && c'.renewInterval == c.renewInterval
    ensures s.cancelled <= Next(s, a).cancelled
  {
    hide MoveOf;
    if !Global(a) && a.id == id {
      MoveKeepsStore(s.db, id, s.clients[id], a, s.clients[id].store in s.cancelled);
    }
  }

  lemma EndedIsFinal(s: State, a: Action, id: Id)
    requires Inv(s) && id in s.clients && Ended(s, id)
    ensures id in Next(s, a).clients && Ended(Next(s, a), id)
  {
    hide Next, Inv;
    StoreIsFixed(s, a, id);
    if s.clients[id].lease.Some? {
      LeaseIsStable(s, a, id);
    }
  }

  lemma EntryIsPending(s: State, a: Action, id: Id, d: nat)
    requires Inv(s) && id !in s.clients
    ensures LiveInv(Next(s, a), id, d)
  {
    hide MoveOf, ClientOk;
    if a.Acquire? && a.id == id {
      assert !Matches(s.db.row, id, 0);
    }
  }

  lemma EndedIsLive(s: State, id: Id, d: nat)
    requires id in s.clients && Ended(s, id)
    ensures LiveInv(s, id, d)
  {
  }

  /**
   Until the lease is released or its store closed, the run is timely for it, its rereads are
   answered, and it misses at most k rounds in a row.
   */
  ghost predicate Steady(start: Time, actions: seq<Action>, n: nat, id: Id, d: nat, k: nat)
    requires n <= |actions|
  {
    && (forall j :: 0 <= j < n ==> InOrder(At(start, actions, j), actions[j], id, d))
    && (forall j :: 0 <= j <= n ==> AtMost(At(start, actions, j), id, k))
  }

  predicate InOrder(s: State, a: Action, id: Id, d: nat) {
    (Timely(s, id, d) && Answered(s, a, id)) || (id in s.clients && Ended(s, id))
  }

  /** The time to live covers k + 1 rounds, each with its timer and its delays, and two more delays. */
  predicate Covers(ttl: nat, renewInterval: nat, d: nat, k: nat) { (k + 1) * (renewInterval + 2 * d) + 2 * d < ttl }

  lemma CoverIsEnough(s: State, id: Id, d: nat, k: nat)
    requires id in s.clients && Covers(s.clients[id].ttl, s.clients[id].renewInterval, d, k)
    requires AtMost(s, id, k) && !Ended(s, id)
    ensures Enough(s, id, d)
  {
    RoomIsSlack(s.clients[id], d, k, MissesOf(s.clients[id]));
  }

  lemma {:induction false} LiveRun(start: Time, actions: seq<Action>, n: nat, id: Id, d: nat, k: nat)
    requires n <= |actions| && Steady(start, actions, n, id, d, k) && id in At(start, actions, n).clients
    requires var c := At(start, actions, n).clients[id]; Covers(c.ttl, c.renewInterval, d, k)
    ensures LiveInv(At(start, actions, n), id, d)
  {
    hide Next, Inv, LiveInv, Timely, Answered, AtMost, Enough, Covers, Ended;
    if n > 0 {
      var s, a := At(start, actions, n - 1), actions[n - 1];
      Reachable(start, actions, n - 1);
      assert At(start, actions, n) == Next(s, a);
      if id !in s.clients {
        EntryIsPending(s, a, id, d);
      } else if Ended(s, id) {
        EndedIsFinal(s, a, id);
        EndedIsLive(Next(s, a), id, d);
      } else {
        StoreIsFixed(s, a, id);
        LiveRun(start, actions, n - 1, id, d, k);
        if Ended(Next(s, a), id) {
          EndedIsLive(Next(s, a), id, d);
        } else {
          CoverIsEnough(s, id, d, k);
          CoverIsEnough(Next(s, a), id, d, k);
          LiveStep(s, a, id, d);
        }
      }
    }
  }

  /**
   Under bounded delays, with at most k rounds in a row that end without a renewed row, and with a
   time to live that covers k + 1 rounds, Lost closes only through Release or Close.
   */
  lemma RenewalKeepsLeaseAlive(start: Time, actions: seq<Action>, n: nat, id: Id, d: nat, k: nat)
    requires n <= |actions| && Steady(start, actions, n, id, d, k)
    requires var s := At(start, actions, n); id in s.clients && s.clients[id].lease.Some?
    requires var c := At(start, actions, n).clients[id]; Covers(c.ttl, c.renewInterval, d, k)
    ensures var s := At(start, actions, n); s.clients[id].lease.value.lost ==> Ended(s, id)
  {
    hide At, Steady, Covers;
    LiveRun(start, actions, n, id, d, k);
  }
}
