/** The overlap bound of LeaseTheorems is attained by a run, so it cannot be improved. */
module LeaseTightness {
  import opened Common
  import opened LeaseProtocol
  import opened LeaseTheorems

  /**
   Call 1 is granted at 0 for d whole millisecond units and stalls for d between its two
   readings of the local clock; call 2 takes over at the stored expiry.
   */
  function StallRun(d: nat): (actions: seq<Action>)
    requires d > 0
  {
    var ttl := 1_000_000 * d;
    [Acquire(1, 1, 0, ttl, 1), SelectForUpdate(1), StartProof(1), WriteRow(1), CommitAcknowledged(1), Measure(1),
     Tick(d), Adopt(1),
     Tick(ttl - d),
     Acquire(2, 2, 0, ttl, 1), SelectForUpdate(2), StartProof(2), WriteRow(2), CommitAcknowledged(2), Measure(2),
     Tick(0), Adopt(2),
     Tick(d - 1)]
  }

  function Granted(db: Db, id: Id, ttl: nat): Db {
    db.(row := Some(Row(EpochOf(db.row) + 1, Some(id), Some(db.now + ttl), RevisionOf(db.row) + 1)),
    grants := db.grants + [GrantRecord(id, db.now, ttl, false)], commits := db.commits + [Grant])
  }

  function Measuring(db: Db, id: Id, ttl: nat): Client {
    NewClient(id, 0, ttl, 1, db.now)
    .(epoch := EpochOf(db.row) + 1, phase := Measured(Proof(db.now, db.now + ttl, db.now), ttl, db.now))
  }

  function Locking(db: Db, id: Id, ttl: nat): Client {
    NewClient(id, 0, ttl, 1, db.now).(epoch := EpochOf(db.row) + 1, phase := AcquireTimed(db.now))
  }

  lemma InstantLock(s: State, id: Id, ttl: nat)
    requires id !in s.clients && s.db.lock == Free && !Live(s.db.row, s.db.now) && EpochOf(s.db.row) < MAX_INT64
    ensures Next(Next(Next(s, Acquire(id, id, 0, ttl, 1)), SelectForUpdate(id)), StartProof(id))
         == Put(s, s.db.(lock := Held(id, s.db.now)), id, Locking(s.db, id, ttl))
  {
    var c := NewClient(id, 0, ttl, 1, s.db.now);
    var s1 := Next(s, Acquire(id, id, 0, ttl, 1));
    assert s1 == Put(s, s.db, id, c);
    var s2 := Next(s1, SelectForUpdate(id));
    assert s2 == Put(s, s.db.(lock := Held(id, s.db.now)), id, c.(phase := Checked, epoch := EpochOf(s.db.row) + 1));
  }

  lemma InstantCommit(s: State, id: Id, ttl: nat, locked: State)
    requires WholeMillis(ttl) == ttl && s.db.lock == Free
    requires locked == Put(s, s.db.(lock := Held(id, s.db.now)), id, Locking(s.db, id, ttl))
    ensures Next(Next(Next(locked, WriteRow(id)), CommitAcknowledged(id)), Measure(id))
         == Put(s, Granted(s.db, id, ttl), id, Measuring(s.db, id, ttl))
  {
    var now, e := s.db.now, EpochOf(s.db.row) + 1;
    var p := Proof(now, now + ttl, now);
    var s1 := Next(locked, WriteRow(id));
    assert s1 == Put(s,
                     s.db.(lock := Staged(id, Grant, Row(e, Some(id), Some(now + ttl), RevisionOf(s.db.row) + 1),
                                          now, ttl, false)), id,
                     Locking(s.db, id, ttl).(phase := Written(p)));
    var s2 := Next(s1, CommitAcknowledged(id));
    assert s2 == Put(s, Granted(s.db, id, ttl), id, Locking(s.db, id, ttl).(phase := Proved(p)));
  }

  lemma AtStep(start: Time, acts: seq<Action>, n: nat)
    requires n < |acts|
    ensures At(start, acts, n + 1) == Next(At(start, acts, n), acts[n])
  {
  }

  /** Six actions without delay take a free row to a measured proof. */
  lemma InstantGrant(start: Time, acts: seq<Action>, n: nat, s: State, id: Id, ttl: nat)
    requires n + 6 <= |acts| && WholeMillis(ttl) == ttl
    requires acts[n] == Acquire(id, id, 0, ttl, 1) && acts[n + 1] == SelectForUpdate(id)
    requires acts[n + 2] == StartProof(id)
    requires acts[n + 3] == WriteRow(id) && acts[n + 4] == CommitAcknowledged(id) && acts[n + 5] == Measure(id)
    requires At(start, acts, n) == s
    requires id !in s.clients && s.db.lock == Free && !Live(s.db.row, s.db.now) && EpochOf(s.db.row) < MAX_INT64
    ensures At(start, acts, n + 6) == Put(s, Granted(s.db, id, ttl), id, Measuring(s.db, id, ttl))
  {
    hide Next, Put, Measuring, Granted, At;
    InstantLock(s, id, ttl);
    AtStep(start, acts, n);
    AtStep(start, acts, n + 1);
    AtStep(start, acts, n + 2);
    InstantCommit(s, id, ttl, At(start, acts, n + 3));
    AtStep(start, acts, n + 3);
    AtStep(start, acts, n + 4);
    AtStep(start, acts, n + 5);
  }

  /** A client that opens `gap` after measuring. */
  function Opened(db: Db, id: Id, ttl: nat, gap: nat): Client {
    var now := db.now + gap;
    Measuring(db, id, ttl).(phase := Top, registered := true,
    lease := Some(Lease(now + ttl, false, false, false, false, 0,
                        Proof(db.now, db.now + ttl, db.now), gap, now, now, 0)))
  }

  lemma TickThenAdopt(s: State, id: Id, ttl: nat, gap: nat)
    ensures Next(Next(Put(s, Granted(s.db, id, ttl), id, Measuring(s.db, id, ttl)), Tick(gap)), Adopt(id))
         == Put(s, Granted(s.db, id, ttl).(now := s.db.now + gap), id, Opened(s.db, id, ttl, gap))
  {
    hide StepSelect, StepWrite, StepCommitAcknowledged, StepAbort, StepWake;
    var measured := Put(s, Granted(s.db, id, ttl), id, Measuring(s.db, id, ttl));
    assert Next(measured, Tick(gap)) ==
             Put(s, Granted(s.db, id, ttl).(now := s.db.now + gap), id, Measuring(s.db, id, ttl));
  }

  lemma StallActions(d: nat)
    requires d > 0
    ensures var acts, ttl := StallRun(d), 1_000_000 * d;
            && |acts| == 18
            && acts[0] == Acquire(1, 1, 0, ttl, 1) && acts[1] == SelectForUpdate(1) && acts[2] == StartProof(1)
            && acts[3] == WriteRow(1) && acts[4] == CommitAcknowledged(1) && acts[5] == Measure(1)
            && acts[6] == Tick(d) && acts[7] == Adopt(1) && acts[8] == Tick(ttl - d)
  {
  }

  lemma TickOnly(s: State, d: nat)
    ensures Next(s, Tick(d)) == s.(db := s.db.(now := s.db.now + d))
  {
  }

  lemma MillisAreWhole(d: nat)
    ensures WholeMillis(1_000_000 * d) == 1_000_000 * d
  {
  }

  /** Call 1 stalls for d after measuring; its stored expiry has just come when call 2 enters. */
  lemma StalledGrant(d: nat) returns (s: State)
    requires d > 0
    ensures var ttl, db := 1_000_000 * d, Init(0).db;
            s == State(Granted(db, 1, ttl).(now := ttl), map[1 := Opened(db, 1, ttl, d)], {})
    ensures At(0, StallRun(d), 9) == s
  {
    var acts, ttl := StallRun(d), 1_000_000 * d;
    var s0 := Init(0);
    assert At(0, acts, 0) == s0;
    MillisAreWhole(d);
    StallActions(d);
    hide StallRun, At, Next, WholeMillis, Granted, Opened, Measuring;
    InstantGrant(0, acts, 0, s0, 1, ttl);
    AtStep(0, acts, 6);
    AtStep(0, acts, 7);
    TickThenAdopt(s0, 1, ttl, d);
    AtStep(0, acts, 8);
    TickOnly(At(0, acts, 8), ttl - d);
    s := State(Granted(s0.db, 1, ttl).(now := ttl), map[1 := Opened(s0.db, 1, ttl, d)], {});
  }

  /** The strict bound of OverlapIsBounded cannot be improved: this overlap lasts one unit less than the excess. */
  lemma OverlapBoundIsTight(d: nat)
    requires d > 0
    ensures var n, m := At(0, StallRun(d), 17), At(0, StallRun(d), 18);
            && Holding(n, 1) && Holding(n, 2) && Holding(m, 1) && Holding(m, 2)
            && n.clients[1].epoch < n.clients[2].epoch
            && Excess(m, 1) == d == m.db.now - n.db.now + 1
  {
    hide At, MoveOf;
    var acts, ttl := StallRun(d), 1_000_000 * d;
    MillisAreWhole(d);
    hide WholeMillis;
    var s := StalledGrant(d);
    InstantGrant(0, acts, 9, s, 2, ttl);
    AtStep(0, acts, 15);
    AtStep(0, acts, 16);
    TickThenAdopt(s, 2, ttl, 0);
    AtStep(0, acts, 17);
  }
}
