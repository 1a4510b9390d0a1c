/** The time to live that LeaseLiveness asks for is exact: with any less, a timely run loses its lease. */
module LeaseMisses {
  import opened Common
  import opened LeaseProtocol
  import opened LeaseSafety
  import opened LeaseTheorems
  import opened LeaseLiveness
  import LeaseTightness

  /** The database and the only client, call 1, after a run that has been steady for it. */
  ghost predicate Standing(actions: seq<Action>, db: Db, c: Client, d: nat, k: nat) {
    var s := At(0, actions, |actions|);
    && Steady(0, actions, |actions|, 1, d, k)
    && s.db == db && 1 in s.clients && s.clients[1] == c && s.cancelled == {}
  }

  /** One more action keeps the run steady. */
  lemma Extend(actions: seq<Action>, a: Action, d: nat, k: nat)
    requires Steady(0, actions, |actions|, 1, d, k)
    requires var s := At(0, actions, |actions|); Timely(s, 1, d) && Answered(s, a, 1) && AtMost(Next(s, a), 1, k)
    ensures var longer := actions + [a];
            Steady(0, longer, |longer|, 1, d, k) && At(0, longer, |longer|) == Next(At(0, actions, |actions|), a)
  {
    hide Next, Timely, Answered, AtMost;
    var n, longer := |actions|, actions + [a];
    LongerRun(0, actions, longer, n);
    assert longer[n] == a;
    forall j | 0 <= j <= n ensures At(0, longer, j) == At(0, actions, j) {
      LongerRun(0, actions, longer, j);
    }
    forall j | 0 <= j <= n ensures AtMost(At(0, longer, j), 1, k) {
      assert AtMost(At(0, actions, j), 1, k);
    }
  }

  /** One step of the client. */
  lemma Own(actions: seq<Action>, db: Db, c: Client, a: Action, d: nat, k: nat) returns (longer: seq<Action>, m: Move)
    requires Standing(actions, db, c, d, k) && !Global(a) && a.id == 1
    requires a.ReadFailed? && c.lease.Some? ==> PastDeadline(db, c)
    requires InTime(db.now, c, d) && MissesOf(MoveOf(db, 1, c, a, false).c) <= k
    ensures m == MoveOf(db, 1, c, a, false) && Standing(longer, m.db, m.c, d, k)
  {
    hide Steady, InTime, Next, MoveOf;
    m := MoveOf(db, 1, c, a, false);
    longer := actions + [a];
    OwnStep(At(0, actions, |actions|), a);
    Extend(actions, a, d, k);
  }

  lemma Wait(actions: seq<Action>, db: Db, c: Client, delay: nat, d: nat, k: nat) returns (longer: seq<Action>, db': Db)
    requires Standing(actions, db, c, d, k) && InTime(db.now, c, d) && MissesOf(c) <= k
    ensures db' == db.(now := db.now + delay) && Standing(longer, db', c, d, k)
  {
    hide Steady, InTime;
    db' := db.(now := db.now + delay);
    longer := actions + [Tick(delay)];
    Extend(actions, Tick(delay), d, k);
  }

  lemma Lands(actions: seq<Action>, db: Db, c: Client, d: nat, k: nat) returns (longer: seq<Action>, db': Db)
    requires Standing(actions, db, c, d, k) && InTime(db.now, c, d) && MissesOf(c) <= k
    requires db.lock.Staged? && db.lock.abandoned
    ensures db' == Land(db) && Standing(longer, db', c, d, k)
  {
    hide Steady, InTime, Land;
    db' := Land(db);
    longer := actions + [Settle(true)];
    Extend(actions, Settle(true), d, k);
  }

  /** The lease is lost, though nobody released it or closed its store. */
  ghost predicate LostUnasked(actions: seq<Action>, ttl: nat, renewInterval: nat, d: nat, k: nat) {
    var s := At(0, actions, |actions|);
    && Steady(0, actions, |actions|, 1, d, k)
    && 1 in s.clients && s.clients[1].ttl == ttl && s.clients[1].renewInterval == renewInterval
    && s.clients[1].lease.Some? && s.clients[1].lease.value.lost && !Ended(s, 1)
  }

  lemma IsLost(actions: seq<Action>, db: Db, c: Client, ttl: nat, renewInterval: nat, d: nat, k: nat)
    requires Standing(actions, db, c, d, k) && c.ttl == ttl && c.renewInterval == renewInterval
    requires c.lease.Some? && c.lease.value.lost && !c.lease.value.released
    ensures LostUnasked(actions, ttl, renewInterval, d, k)
  {
  }

  // ---------------------------------------------------------------- the grant

  function Begun1(ttl: nat, renewInterval: nat): Client {
    Client(1, 0, ttl, renewInterval, 0, Begun, None, Idle, NotClosing, false, 0)
  }

  function Row1(ttl: nat): Row { Row(1, Some(1), Some(ttl), 1) }

  /** The grant is written at 0, and all is set for its commit. */
  lemma GrantIsWritten(ttl: nat, renewInterval: nat, d: nat, k: nat) returns (actions: seq<Action>, db: Db, c: Client)
    requires WholeMillis(ttl) == ttl
    ensures Standing(actions, db, c, d, k)
    ensures db == Db(0, None, Staged(1, Grant, Row1(ttl), 0, ttl, false), [], [])
    ensures c == Begun1(ttl, renewInterval).(epoch := 1, phase := Written(Proof(0, ttl, 0)))
  {
    hide Standing;
    var m;
    actions := Enters(ttl, renewInterval, d, k);
    actions, m := Own(actions, Init(0).db, Begun1(ttl, renewInterval), SelectForUpdate(1), d, k);
    actions, m := Own(actions, m.db, m.c, StartProof(1), d, k);
    actions, m := Own(actions, m.db, m.c, WriteRow(1), d, k);
    db, c := m.db, m.c;
  }

  lemma Enters(ttl: nat, renewInterval: nat, d: nat, k: nat) returns (actions: seq<Action>)
    requires WholeMillis(ttl) == ttl
    ensures Standing(actions, Init(0).db, Begun1(ttl, renewInterval), d, k)
  {
    actions := [Acquire(1, 1, 0, ttl, renewInterval)];
    var empty: seq<Action> := [];
    assert At(0, empty, 0) == Init(0) && Steady(0, empty, |empty|, 1, d, k);
    hide Steady, At;
    Extend(empty, actions[0], d, k);
    assert actions == empty + [actions[0]];
  }

  // ---------------------------------------------------------------- a resting lease that has missed i rounds

  /**
   At the top of the loop, i rounds after the last renewed row, each as late as d allows: the row
   still expires at ttl, and the safe time is as early as the proofs allow.
   */
  ghost predicate Resting(db: Db, c: Client, ttl: nat, renewInterval: nat, d: nat, i: nat) {
    && db.row == Some(Row1(ttl)) && db.lock == Free && db.now == d + Lag(renewInterval + 2 * d, i)
    && c.store == 1 && c.skew == 0 && c.ttl == ttl && c.renewInterval == renewInterval && c.epoch == 1 && c.phase == Top
    && c.lease.Some?
    && var l := c.lease.value;
       !l.released && !l.lost && !l.done && l.safeUntil == ttl - d && l.adoptedAt == db.now && l.misses == i
  }

  /** The grant goes unanswered and is found by a reread that takes all of d. */
  lemma StartsResting(ttl: nat, renewInterval: nat, d: nat, k: nat) returns (actions: seq<Action>, db: Db, c: Client)
    requires WholeMillis(ttl) == ttl && ttl > d
    ensures Standing(actions, db, c, d, k) && Resting(db, c, ttl, renewInterval, d, 0)
  {
    hide Standing, At;
    actions, db, c := GrantIsWritten(ttl, renewInterval, d, k);
    var m;
    actions, m := Own(actions, db, c, CommitLost(1), d, k);
    actions, db := Lands(actions, m.db, m.c, d, k);
    assert db.row == Some(Row1(ttl)) && db.lock == Free && db.now == 0;
    actions, m := Own(actions, db, m.c, StartProof(1), d, k);
    actions, db := Wait(actions, m.db, m.c, d, d, k);
    actions, m := Own(actions, db, m.c, ReadRow(1), d, k);
    assert m.c.phase == Proved(Proof(0, ttl, d)) && m.db == db;
    actions, m := Own(actions, m.db, m.c, Measure(1), d, k);
    actions, m := Own(actions, m.db, m.c, Adopt(1), d, k);
    db, c := m.db, m.c;
  }

  /** The timer fires as late as d allows, and the transaction cannot even begin. */
  lemma MissesTheRow(actions: seq<Action>, db: Db, c: Client, ttl: nat, renewInterval: nat, d: nat, k: nat, i: nat)
    returns (longer: seq<Action>, db': Db, c': Client)
    requires Standing(actions, db, c, d, k) && Resting(db, c, ttl, renewInterval, d, i) && i <= k && db.now < ttl - d
    ensures db' == db.(now := db.now + renewInterval + d)
    ensures c' == c.(phase := Reading(db'.now), roundStarted := db'.now) && Standing(longer, db', c', d, k)
  {
    hide Standing, Lag;
    var m;
    longer, m := Own(actions, db, c, LoopTop(1), d, k);
    assert m.c == c.(phase := Waiting(ttl - d, db.now));
    longer, db' := Wait(longer, m.db, m.c, renewInterval + d, d, k);
    longer, m := Own(longer, db', m.c, WakeRenew(1), d, k);
    assert m.c == c.(phase := RenewReady);
    longer, m := Own(longer, m.db, m.c, Abort(1), d, k);
    longer, m := Own(longer, m.db, m.c, StartProof(1), d, k);
    db', c' := m.db, m.c;
  }

  /** The reread takes all of d and finds the old row; the safe time stays where it was. */
  lemma RoundMisses(actions: seq<Action>, db: Db, c: Client, ttl: nat, renewInterval: nat, d: nat, k: nat, i: nat)
    returns (longer: seq<Action>, db': Db, c': Client)
    requires Standing(actions, db, c, d, k) && Resting(db, c, ttl, renewInterval, d, i) && i < k
    requires Lag(renewInterval + 2 * d, i + 1) + 2 * d < ttl && renewInterval + d > 0
    ensures Standing(longer, db', c', d, k) && Resting(db', c', ttl, renewInterval, d, i + 1)
  {
    hide Standing;
    var m;
    longer, db', c' := MissesTheRow(actions, db, c, ttl, renewInterval, d, k, i);
    var began := db'.now;
    longer, db' := Wait(longer, db', c', d, d, k);
    assert db'.now == d + Lag(renewInterval + 2 * d, i + 1);
    hide Lag;
    longer, m := Own(longer, db', c', ReadRow(1), d, k);
    assert m.db == db' && m.c == c'.(phase := Proved(Proof(began, ttl, db'.now)));
    longer, m := Own(longer, m.db, m.c, Measure(1), d, k);
    assert m.db == db' && m.c == c'.(phase := Measured(Proof(began, ttl, db'.now), ttl - db'.now - d, db'.now));
    longer, m := Own(longer, m.db, m.c, Adopt(1), d, k);
    db', c' := m.db, m.c;
  }

  /** The safe time comes within d of the start of the round: the context ends, and with it the reread. */
  lemma DeadlineCancels(actions: seq<Action>, db: Db, c: Client, ttl: nat, renewInterval: nat, d: nat, k: nat, i: nat)
    returns (longer: seq<Action>)
    requires Standing(actions, db, c, d, k) && Resting(db, c, ttl, renewInterval, d, i) && i <= k
    requires Lag(renewInterval + 2 * d, i + 1) + d < ttl <= Lag(renewInterval + 2 * d, i + 1) + 2 * d
    ensures LostUnasked(longer, ttl, renewInterval, d, k)
  {
    hide Standing, LostUnasked;
    assert Lag(renewInterval + 2 * d, i + 1) == Lag(renewInterval + 2 * d, i) + renewInterval + 2 * d;
    hide Lag;
    var db', c', m;
    longer, db', c' := MissesTheRow(actions, db, c, ttl, renewInterval, d, k, i);
    longer, db' := Wait(longer, db', c', ttl - d - db'.now, d, k);
    longer, m := Own(longer, db', c', ReadFailed(1), d, k);
    IsLost(longer, m.db, m.c, ttl, renewInterval, d, k);
  }

  /** The safe time comes before the next round: at the top of the loop, or while it waits. */
  lemma Expires(actions: seq<Action>, db: Db, c: Client, ttl: nat, renewInterval: nat, d: nat, k: nat, i: nat)
    returns (longer: seq<Action>)
    requires Standing(actions, db, c, d, k) && Resting(db, c, ttl, renewInterval, d, i) && i <= k
    requires ttl <= Lag(renewInterval + 2 * d, i + 1) + d
    ensures LostUnasked(longer, ttl, renewInterval, d, k)
  {
    hide Standing, LostUnasked;
    assert Lag(renewInterval + 2 * d, i + 1) == Lag(renewInterval + 2 * d, i) + renewInterval + 2 * d;
    hide Lag;
    var m;
    longer, m := Own(actions, db, c, LoopTop(1), d, k);
    if db.now < ttl - d {
      assert m.db == db && m.c == c.(phase := Waiting(ttl - d, db.now));
      var db';
      longer, db' := Wait(longer, db, m.c, ttl - d - db.now, d, k);
      longer, m := Own(longer, db', m.c, WakeExpiry(1), d, k);
    }
    IsLost(longer, m.db, m.c, ttl, renewInterval, d, k);
  }

  lemma {:induction false} Loses(actions: seq<Action>, db: Db, c: Client, ttl: nat, renewInterval: nat, d: nat,
                                 k: nat, i: nat)
    returns (longer: seq<Action>)
    requires Standing(actions, db, c, d, k) && Resting(db, c, ttl, renewInterval, d, i) && i <= k
    requires ttl <= Lag(renewInterval + 2 * d, k + 1) + 2 * d
    ensures LostUnasked(longer, ttl, renewInterval, d, k)
    decreases k - i
  {
    hide Standing, LostUnasked;
    var cycle := renewInterval + 2 * d;
    if ttl <= Lag(cycle, i + 1) + d {
      longer := Expires(actions, db, c, ttl, renewInterval, d, k, i);
    } else if ttl <= Lag(cycle, i + 1) + 2 * d {
      longer := DeadlineCancels(actions, db, c, ttl, renewInterval, d, k, i);
    } else {
      assert i < k;
      LagIsProduct(cycle, i + 1);
      LagIsProduct(cycle, k + 1);
      assert cycle > 0;
      var db', c';
      longer, db', c' := RoundMisses(actions, db, c, ttl, renewInterval, d, k, i);
      longer := Loses(longer, db', c', ttl, renewInterval, d, k, i + 1);
    }
  }

  /** A time to live of no more than one delay can run out before the first renewal. */
  lemma LosesAtOnce(ttl: nat, renewInterval: nat, d: nat, k: nat) returns (actions: seq<Action>)
    requires WholeMillis(ttl) == ttl && ttl <= d
    ensures LostUnasked(actions, ttl, renewInterval, d, k)
  {
    hide Standing, At, LostUnasked;
    var db, c, m;
    actions, db, c := GrantIsWritten(ttl, renewInterval, d, k);
    actions, m := Own(actions, db, c, CommitAcknowledged(1), d, k);
    assert m.db.now == 0 && m.c.phase == Proved(Proof(0, ttl, 0));
    actions, m := Own(actions, m.db, m.c, Measure(1), d, k);
    actions, m := Own(actions, m.db, m.c, Adopt(1), d, k);
    assert m.db.now == 0 && m.c.phase == Top && m.c.lease.value.safeUntil == ttl && m.c.lease.value.adoptedAt == 0;
    actions, m := Own(actions, m.db, m.c, LoopTop(1), d, k);
    if ttl > 0 {
      actions, db := Wait(actions, m.db, m.c, ttl, d, k);
      actions, m := Own(actions, db, m.c, WakeExpiry(1), d, k);
    }
    IsLost(actions, m.db, m.c, ttl, renewInterval, d, k);
  }

  // ---------------------------------------------------------------- the exact condition

  /** The client has a lease, with this time to live and renewal interval. */
  predicate Configured(s: State, id: Id, ttl: nat, renewInterval: nat) {
    && id in s.clients && s.clients[id].lease.Some?
    && s.clients[id].ttl == ttl && s.clients[id].renewInterval == renewInterval
  }

  /** With this time to live, interval and delay, at most k misses in a row never cost a lease. */
  ghost predicate Keeps(ttl: nat, renewInterval: nat, d: nat, k: nat) {
    forall start, actions, id ::
      Steady(start, actions, |actions|, id, d, k) ==>
        var s := At(start, actions, |actions|);
        Configured(s, id, ttl, renewInterval) ==>
          s.clients[id].lease.value.lost ==> Ended(s, id)
  }

  /** With less, there is a run that loses the lease: a timer or the context of a round comes to the safe time. */
  lemma LessIsTooLittle(ttl: nat, renewInterval: nat, d: nat, k: nat) returns (actions: seq<Action>)
    requires WholeMillis(ttl) == ttl && !Covers(ttl, renewInterval, d, k)
    ensures LostUnasked(actions, ttl, renewInterval, d, k)
  {
    hide Standing, LostUnasked, Resting, WholeMillis;
    LagIsProduct(renewInterval + 2 * d, k + 1);
    if ttl <= d {
      actions := LosesAtOnce(ttl, renewInterval, d, k);
    } else {
      var db, c;
      actions, db, c := StartsResting(ttl, renewInterval, d, k);
      actions := Loses(actions, db, c, ttl, renewInterval, d, k, 0);
    }
  }

  /**
   The exact condition: k misses in a row never cost a lease if and only if the time to live, in
   whole milliseconds, covers k + 1 rounds.
   */
  lemma CoverIsExact(millis: nat, renewInterval: nat, d: nat, k: nat)
    ensures Keeps(1_000_000 * millis, renewInterval, d, k) <==> Covers(1_000_000 * millis, renewInterval, d, k)
  {
    var ttl := 1_000_000 * millis;
    if Covers(ttl, renewInterval, d, k) {
      forall start, actions, id | Steady(start, actions, |actions|, id, d, k)
        ensures var s := At(start, actions, |actions|);
                Configured(s, id, ttl, renewInterval) ==>
                  s.clients[id].lease.value.lost ==> Ended(s, id)
      {
        hide At, Steady, Covers, Ended;
        var s := At(start, actions, |actions|);
        if Configured(s, id, ttl, renewInterval) {
          RenewalKeepsLeaseAlive(start, actions, |actions|, id, d, k);
        }
      }
    } else {
      LeaseTightness.MillisAreWhole(millis);
      hide At, Steady, Covers, Ended, WholeMillis;
      var actions := LessIsTooLittle(ttl, renewInterval, d, k);
    }
  }

  /** For every delay and every k there is a setting that survives k misses in a row and not k + 1. */
  lemma OneMissTooMany(d: nat, k: nat) returns (millis: nat, renewInterval: nat)
    ensures Keeps(1_000_000 * millis, renewInterval, d, k) && !Keeps(1_000_000 * millis, renewInterval, d, k + 1)
  {
    hide Keeps;
    millis, renewInterval := (k + 2) * (d + 1), 1_000_000 * (d + 1) - 2 * d;
    CoversOnly(d, k);
    hide Covers;
    CoverIsExact(millis, renewInterval, d, k);
    CoverIsExact(millis, renewInterval, d, k + 1);
  }

  lemma CoversOnly(d: nat, k: nat)
    ensures var ttl, renewInterval := 1_000_000 * ((k + 2) * (d + 1)), 1_000_000 * (d + 1) - 2 * d;
            Covers(ttl, renewInterval, d, k) && !Covers(ttl, renewInterval, d, k + 1)
  {
    var cycle := 1_000_000 * (d + 1);
    assert 1_000_000 * ((k + 2) * (d + 1)) == (k + 2) * cycle == (k + 1) * cycle + cycle;
  }

  /**
   Without a limit on misses the claim is false for every delay: a time to live that covers a round
   (renewInterval + 4d < ttl) and a single missed round, and the lease is lost unasked.
   */
  lemma OneMissMayLose(d: nat) returns (actions: seq<Action>)
    ensures var ttl := 1_000_000 * (d + 1); var renewInterval := ttl - 4 * d - 1;
            renewInterval + 4 * d < ttl && LostUnasked(actions, ttl, renewInterval, d, 1)
  {
    var ttl := 1_000_000 * (d + 1);
    LeaseTightness.MillisAreWhole(d + 1);
    hide LostUnasked, WholeMillis;
    actions := LessIsTooLittle(ttl, ttl - 4 * d - 1, d, 1);
  }

  /**
   Nor can the answered rereads be given up.  However well the time to live covers the rounds, there
   is a timely run without a single miss in which one reread fails while the lease is still inside
   its safe time, and with that the lease is lost unasked.
   */
  lemma FailedRereadLoses(millis: nat, renewInterval: nat, d: nat, k: nat) returns (actions: seq<Action>)
    requires Covers(1_000_000 * millis, renewInterval, d, k)
    ensures var s := At(0, actions, |actions|);
            && Steady(0, actions, |actions|, 1, d, k) && Timely(s, 1, d)
            && Configured(s, 1, 1_000_000 * millis, renewInterval)
            && !PastDeadline(s.db, s.clients[1]) && s.clients[1].lease.value.misses == 0
    ensures var s := At(0, actions + [ReadFailed(1)], |actions| + 1);
            1 in s.clients && s.clients[1].lease.Some? && s.clients[1].lease.value.lost && !Ended(s, 1)
  {
    var ttl := 1_000_000 * millis;
    LeaseTightness.MillisAreWhole(millis);
    RoundsFit(ttl, renewInterval, d, k);
    var db, c;
    hide At, Steady, WholeMillis, Covers;
    actions, db, c := StartsResting(ttl, renewInterval, d, k);
    actions, db, c := MissesTheRow(actions, db, c, ttl, renewInterval, d, k, 0);
    OwnStep(At(0, actions, |actions|), ReadFailed(1));
    LastStep(actions, ReadFailed(1));
  }

  lemma RoundsFit(ttl: nat, renewInterval: nat, d: nat, k: nat)
    requires Covers(ttl, renewInterval, d, k)
    ensures renewInterval + 4 * d < ttl
  {
    assert (k + 1) * (renewInterval + 2 * d) >= renewInterval + 2 * d;
  }

  lemma LastStep(actions: seq<Action>, a: Action)
    ensures At(0, actions + [a], |actions| + 1) == Next(At(0, actions, |actions|), a)
  {
    LongerRun(0, actions, actions + [a], |actions|);
    hide Next;
  }
}
