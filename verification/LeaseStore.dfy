/**
 Acquire, the renewal loop, Release and Store.Close as they run, step by step over the shared
 state, with the other threads and clients acting between any two steps.  Each is a run of the
 protocol, so that every theorem about runs is about this code.
 */
module LeaseStore {
  import opened Common
  import opened LeaseProtocol
  import opened LeaseSafety
  import opened LeaseTheorems
  import opened LeaseAnswers

  /** Which thread of which client an action belongs to; the rest of the world has the others. */
  datatype Thread = Main(id: Id) | Releasing(id: Id)

  predicate ActsFor(a: Action, t: Thread) {
    !Global(a) && !a.CloseLocal? && a.id == t.id && (t.Main? <==> !OfReleaser(a))
  }

  /** What surrounds one step: the actions of all others before it, and whether it fails. */
  datatype Turn = Turn(others: seq<Action>, fails: bool)

  ghost predicate Foreign(turn: Turn, t: Thread) { forall a :: a in turn.others ==> !ActsFor(a, t) }

  /** Nobody else acts before the step, and it does not fail. */
  predicate Quiet(turn: Turn) { turn.others == [] && !turn.fails }

  /** At an instant of the run from `from` on, a transaction owned the row. */
  ghost predicate WasBusy(start: Time, trace: seq<Action>, from: nat) {
    exists n :: from <= n <= |trace| && At(start, trace, n).db.lock != Free
  }

  lemma BusyNow(start: Time, trace: seq<Action>, from: nat)
    requires from <= |trace| && At(start, trace, |trace|).db.lock != Free
    ensures WasBusy(start, trace, from)
  {
    hide At;
  }

  lemma BusyStays(start: Time, trace: seq<Action>, longer: seq<Action>, from: nat, earlier: nat)
    requires trace <= longer && WasBusy(start, trace, from) && earlier <= from
    ensures WasBusy(start, longer, earlier)
  {
    var n :| from <= n <= |trace| && At(start, trace, n).db.lock != Free;
    LongerRun(start, trace, longer, n);
    hide At;
  }

  // ---------------------------------------------------------------- a call that is left alone

  function EpochIn(row: Option<Row>): nat { match row case None => 0 case Some(r) => r.epoch }

  function RevisionIn(row: Option<Row>): nat { match row case None => 0 case Some(r) => r.revision }

  /** The row that a grant writes. */
  function GrantedRow(row: Option<Row>, id: Id, expiry: Time): Row {
    Row(EpochIn(row) + 1, Some(id), Some(expiry), RevisionIn(row) + 1)
  }

  /** The decision of Acquire under the row lock, and what it stages. */
  ghost predicate TakesAlone(db: Db, c: Client, id: Id, db': Db, c': Client, written: bool) {
    && c'.skew == c.skew && c'.ttl == c.ttl
    && if IsHeld(db.row, db.now) then
      !written && c'.phase == Refused(HeldBy(EpochIn(db.row))) && db' == db
    else if EpochIn(db.row) == MAX_INT64 then
      !written && c'.phase == Refused(EpochExhausted) && db' == db
    else
      && written && c'.epoch == EpochIn(db.row) + 1
      && c'.phase == Written(Proof(db.now + c.skew, db.now + c.ttl, db.now))
      && db' == db.(lock := Staged(id, Grant, GrantedRow(db.row, id, db.now + c.ttl), db.now, c.ttl, false))
  }

  /** What Acquire does when it is left alone; its time to live is cut to whole milliseconds. */
  ghost predicate GrantsAlone(db: Db, db': Db, c': Client, id: Id, skew: int, leaseTtl: nat, granted: bool) {
    && c'.ttl % 1_000_000 == 0 && c'.ttl <= leaseTtl < c'.ttl + 1_000_000
    && (granted <==> !IsHeld(db.row, db.now) && EpochIn(db.row) != MAX_INT64)
    && if granted then
         && c'.lease.Some? && c'.epoch == EpochIn(db.row) + 1
         && c'.lease.value.safeUntil == db.now + skew + c'.ttl
         && db'.row == Some(GrantedRow(db.row, id, db.now + c'.ttl))
         && db'.now == db.now && db'.lock == Free && !c'.lease.value.released && c'.skew == skew
       else
         && db'.row == db.row
         && c'.phase == Refused(if IsHeld(db.row, db.now) then HeldBy(EpochIn(db.row)) else EpochExhausted)
  }

  lemma NewEffect(s: State, id: Id, store: StoreId, skew: int, leaseTtl: nat, renewInterval: nat)
    requires id !in s.clients
    ensures var s' := Next(s, LeaseProtocol.Acquire(id, store, skew, leaseTtl, renewInterval));
            && s'.db == s.db && id in s'.clients
            && s'.clients[id].phase == Begun && s'.clients[id].lease.None? && s'.clients[id].skew == skew
            && s'.clients[id].ttl % 1_000_000 == 0 && s'.clients[id].ttl <= leaseTtl < s'.clients[id].ttl + 1_000_000
  {
  }

  lemma AbortEffect(db: Db, id: Id, c: Client, cancelled: bool)
    requires c.phase == Begun || c.phase.AcquireTimed?
    ensures var m := MoveOf(db, id, c, Abort(id), cancelled); m.c == c.(phase := Refused(Failed))
  {
  }

  lemma SelectEffect(db: Db, id: Id, c: Client, cancelled: bool)
    requires c.phase == Begun && db.lock == Free
    ensures var m := MoveOf(db, id, c, SelectForUpdate(id), cancelled);
            if IsHeld(db.row, db.now) then m == Move(db, c.(phase := Refused(HeldBy(EpochIn(db.row)))))
            else if EpochIn(db.row) == MAX_INT64 then m == Move(db, c.(phase := Refused(EpochExhausted)))
            else m == Move(db.(lock := Held(id, db.now)), c.(phase := Checked, epoch := EpochIn(db.row) + 1))
  {
  }

  lemma ProofEffect(db: Db, id: Id, c: Client, cancelled: bool)
    requires c.phase == Checked
    ensures MoveOf(db, id, c, StartProof(id), cancelled) ==
            Move(db, c.(phase := AcquireTimed(db.now + c.skew), roundStarted := db.now))
  {
  }

  lemma GrantEffect(db: Db, id: Id, c: Client, cancelled: bool)
    requires c.phase.AcquireTimed? && db.lock.Held? && db.lock.owner == id
    ensures var e := db.now + c.ttl;
            var next := Row(c.epoch, Some(id), Some(e), RevisionIn(db.row) + 1);
            MoveOf(db, id, c, WriteRow(id), cancelled) ==
            Move(db.(lock := Staged(id, Grant, next, db.lock.checkedAt, c.ttl, false)),
                 c.(phase := Written(Proof(c.phase.started, e, db.now))))
  {
  }

  /** The row after a renewal, or after a release, of the lease that holds it. */
  function RenewedRow(row: Row, expiry: Time): Row { row.(expiry := Some(expiry), revision := row.revision + 1) }

  function ClearedRow(row: Row): Row { row.(holder := None, expiry := None, revision := row.revision + 1) }

  /** A release clears the row of its own epoch and holder, live or not, and no other. */
  ghost predicate ClearsAlone(row: Option<Row>, row': Option<Row>, id: Id, epoch: nat) {
    row' == if Carries(row, id, epoch) then Some(ClearedRow(row.value)) else row
  }

  /** How Release enters, and how it leaves when its caller has given up. */
  lemma ReleaseEffects(db: Db, id: Id, c: Client, cancelled: bool)
    requires c.lease.Some? && !c.lease.value.releaseComplete
    ensures c.releaser == Idle ==>
              MoveOf(db, id, c, ReleaseStart(id), cancelled) ==
              Move(db, c.(releaser := if c.lease.value.released then Clearing else Stopping,
                          lease := Some(c.lease.value.(released := true))))
    ensures c.releaser == ClearUnproven ==>
              MoveOf(db, id, c, ReleaseCancelled(id), cancelled) == Move(db, c.(releaser := Idle))
  {
  }

  lemma ClearEffect(db: Db, id: Id, c: Client, cancelled: bool)
    requires c.releaser == Clearing && db.lock == Free
    ensures MoveOf(db, id, c, ReleaseWrite(id), cancelled) ==
            if Carries(db.row, id, c.epoch) then
              Move(db.(lock := Staged(id, Clear, ClearedRow(db.row.value), db.now, c.ttl, false)),
                   c.(releaser := ClearWritten(true)))
            else Move(db, c.(releaser := ClearWritten(false)))
  {
    ColumnsSay(db.row, id, c.epoch, db.now);
  }

  /** The completing step of a release leaves a row that its lease does not hold. */
  lemma ReleasedNow(start: Time, trace: seq<Action>, a: Action, id: Id)
    requires !IsComplete(At(start, trace, |trace|), id) && IsComplete(At(start, trace + [a], |trace| + 1), id)
    ensures var s := At(start, trace + [a], |trace| + 1);
            !(Carries(s.db.row, id, s.clients[id].epoch) && IsHeld(s.db.row, s.db.now))
  {
    LongerRun(start, trace, trace + [a], |trace|);
    hide At;
    CompletedReleaseHoldsNothing(start, trace + [a], |trace|, id);
  }

  datatype CommitOutcome = Acknowledged | Unanswered | RolledBack

  /** What the others leave alone: where the thread stands, and what it remembers. */
  predicate SameThread(t: Thread, c: Client, c': Client) {
    && c'.store == c.store && c'.skew == c.skew && c'.ttl == c.ttl && c'.renewInterval == c.renewInterval
    && (if t.Main? then c'.phase == c.phase && c'.epoch == c.epoch && c'.lease.Some? == c.lease.Some?
        else c'.releaser == c.releaser && (c.lease.Some? ==> c'.lease.Some?))
    && (c.lease.Some? && c'.lease.Some? ==>
          var l, l' := c.lease.value, c'.lease.value;
          && (l.lost ==> l'.lost) && (l.done ==> l'.done) && (l.released ==> l'.released)
          && (l.releaseComplete ==> l'.releaseComplete)
          && (t.Releasing? ==> l'.released == l.released && l'.releaseComplete == l.releaseComplete)
          && (t.Main? ==> l'.safeUntil == l.safeUntil))
  }

  /** Release and Close against the main thread. */
  lemma ReleaserLeavesMain(db: Db, id: Id, c: Client, a: Action, cancelled: bool)
    requires OfReleaser(a) || a.CloseLocal?
    ensures SameThread(Main(id), c, MoveOf(db, id, c, a, cancelled).c)
  {
    hide Land, Matches, Owns;
  }

  /** The main thread and Close against Release. */
  lemma MainLeavesReleaser(db: Db, id: Id, c: Client, a: Action, cancelled: bool)
    requires !OfReleaser(a) || a.CloseLocal?
    ensures SameThread(Releasing(id), c, MoveOf(db, id, c, a, cancelled).c)
  {
    hide Land, Owns, Live, ConservativeRemaining, MissesAfter;
  }

  lemma CollectLeavesThread(s: State, store: StoreId, t: Thread)
    requires t.id in s.clients
    ensures t.id in Next(s, CollectLeases(store)).clients
    ensures SameThread(t, s.clients[t.id], Next(s, CollectLeases(store)).clients[t.id])
  {
  }

  lemma OthersLeaveThread(s: State, a: Action, t: Thread)
    requires t.id in s.clients && !ActsFor(a, t)
    ensures t.id in Next(s, a).clients && SameThread(t, s.clients[t.id], Next(s, a).clients[t.id])
  {
    hide MoveOf, SameThread, Land;
    if !Global(a) && a.id == t.id {
      if t.Main? {
        ReleaserLeavesMain(s.db, t.id, s.clients[t.id], a, s.clients[t.id].store in s.cancelled);
      } else {
        MainLeavesReleaser(s.db, t.id, s.clients[t.id], a, s.clients[t.id].store in s.cancelled);
      }
    } else if a.CollectLeases? {
      CollectLeavesThread(s, a.store, t);
    } else {
      SameThreadIsReflexive(t, s.clients[t.id]);
    }
  }

  lemma SameThreadIsTransitive(t: Thread, c: Client, c': Client, c'': Client)
    requires SameThread(t, c, c') && SameThread(t, c', c'')
    ensures SameThread(t, c, c'')
  {
  }

  class Store {
    var state: State
    ghost const start: Time
    ghost var trace: seq<Action>

    /** The shared state is what a run of the protocol produced. */
    ghost predicate Valid()
      reads this
    {
      state == At(start, trace, |trace|)
    }

    constructor (now: Time)
      ensures Valid() && start == now && trace == []
    {
      state := Init(now);
      start := now;
      trace := [];
    }

    method Perform(a: Action)
      requires Valid()
      modifies this
      ensures Valid() && trace == old(trace) + [a] && state == Next(old(state), a)
    {
      state := Next(state, a);
      trace := trace + [a];
      LongerRun(start, old(trace), trace, |old(trace)|);
    }

    /** A step of a client's own thread. */
    method Own(a: Action)
      requires Valid() && !Global(a) && a.id in state.clients
      modifies this
      ensures Valid() && trace == old(trace) + [a]
      ensures a.id in state.clients
      ensures var c := old(state).clients[a.id];
              var m := MoveOf(old(state).db, a.id, c, a, c.store in old(state).cancelled);
              state.clients[a.id] == m.c && state.db == m.db
    {
      hide Next, MoveOf;
      OwnStep(state, a);
      Perform(a);
    }

    method LetOthers(others: seq<Action>, t: Thread)
      requires Valid() && t.id in state.clients && forall a :: a in others ==> !ActsFor(a, t)
      modifies this
      ensures Valid() && trace == old(trace) + others
      ensures t.id in state.clients && SameThread(t, old(state).clients[t.id], state.clients[t.id])
      ensures others == [] ==> state == old(state)
      ensures |others| == 1 ==> state == Next(old(state), others[0])
    {
      hide Next, SameThread, At;
      var i := 0;
      SameThreadIsReflexive(t, state.clients[t.id]);
      while i < |others|
        invariant i <= |others|
        invariant Valid() && trace == old(trace) + others[..i]
        invariant t.id in state.clients && SameThread(t, old(state).clients[t.id], state.clients[t.id])
        invariant i == 0 ==> state == old(state)
        invariant i == 1 ==> state == Next(old(state), others[0])
      {
        ghost var c := state.clients[t.id];
        OthersLeaveThread(state, others[i], t);
        Perform(others[i]);
        SameThreadIsTransitive(t, old(state).clients[t.id], c, state.clients[t.id]);
        i := i + 1;
      }
    }

    // -------------------------------------------------------------- Acquire

    /** Acquire up to its commit: the locking read, the checks, and the write of the grant. */
    method Take(id: Id, lock: Turn, write: Turn) returns (written: bool)
      requires Valid() && id in state.clients && state.clients[id].phase == Begun && state.clients[id].lease.None?
      requires Foreign(lock, Main(id)) && Foreign(write, Main(id))
      modifies this
      ensures Valid() && old(trace) <= trace && id in state.clients && state.clients[id].lease.None?
      ensures if written then state.clients[id].phase.Written? else state.clients[id].phase.Refused?
      ensures state.clients[id].phase == Refused(Failed) ==>
                lock.fails || write.fails || WasBusy(start, trace, |old(trace)|)
      ensures Quiet(lock) && Quiet(write) && old(state).db.lock == Free ==>
                TakesAlone(old(state).db, old(state).clients[id], id, state.db, state.clients[id], written)
    {
      hide Next, At, MoveOf, WasBusy;
      var refused := LockAndCheck(id, lock);
      if refused {
        return false;
      }
      ghost var checked := trace;
      written := TimeAndWrite(id, write);
    }

    /** The locking read: it refuses a live holder and an exhausted epoch, and else keeps the row lock. */
    method LockAndCheck(id: Id, lock: Turn) returns (refused: bool)
      requires Valid() && id in state.clients && state.clients[id].phase == Begun && state.clients[id].lease.None?
      requires Foreign(lock, Main(id))
      modifies this
      ensures Valid() && old(trace) <= trace && id in state.clients && state.clients[id].lease.None?
      ensures if refused then state.clients[id].phase.Refused? else state.clients[id].phase == Checked
      ensures state.clients[id].phase == Refused(Failed) ==> lock.fails || WasBusy(start, trace, |old(trace)|)
      ensures Quiet(lock) && old(state).db.lock == Free ==>
                var db, c := old(state).db, old(state).clients[id];
                if IsHeld(db.row, db.now) then
                  refused && state.db == db && state.clients[id] == c.(phase := Refused(HeldBy(EpochIn(db.row))))
                else if EpochIn(db.row) == MAX_INT64 then
                  refused && state.db == db && state.clients[id] == c.(phase := Refused(EpochExhausted))
                else
                  && !refused && state.db == db.(lock := Held(id, db.now))
                  && state.clients[id] == c.(phase := Checked, epoch := EpochIn(db.row) + 1)
    {
      hide Next, At, MoveOf, WasBusy;
      LetOthers(lock.others, Main(id));
      if lock.fails || state.db.lock != Free {
        if state.db.lock != Free {
          BusyNow(start, trace, |old(trace)|);
          BusyStays(start, trace, trace + [Abort(id)], |old(trace)|, |old(trace)|);
        }
        AbortEffect(state.db, id, state.clients[id], state.clients[id].store in state.cancelled);
        Own(Abort(id));
        return true;
      }
      SelectEffect(state.db, id, state.clients[id], state.clients[id].store in state.cancelled);
      Own(SelectForUpdate(id));
      return state.clients[id].phase.Refused?;
    }

    /** The first reading of the clock, and the write of the grant. */
    method TimeAndWrite(id: Id, write: Turn) returns (written: bool)
      requires Valid() && id in state.clients && state.clients[id].phase == Checked && state.clients[id].lease.None?
      requires Foreign(write, Main(id))
      modifies this
      ensures Valid() && old(trace) <= trace && id in state.clients && state.clients[id].lease.None?
      ensures if written then state.clients[id].phase.Written?
              else state.clients[id].phase == Refused(Failed) && write.fails
      ensures Quiet(write) ==>
                var db, c := old(state).db, old(state).clients[id];
                && written && db.lock.Held?
                && state.clients[id] ==
                   c.(phase := Written(Proof(db.now + c.skew, db.now + c.ttl, db.now)), roundStarted := db.now)
                && state.db ==
                   db.(lock := Staged(id, Grant, Row(c.epoch, Some(id), Some(db.now + c.ttl), RevisionIn(db.row) + 1),
                                                  db.lock.checkedAt, c.ttl, false))
    {
      hide Next, At, MoveOf;
      ProofEffect(state.db, id, state.clients[id], state.clients[id].store in state.cancelled);
      Own(StartProof(id));
      LetOthers(write.others, Main(id));
      if write.fails {
        AbortEffect(state.db, id, state.clients[id], state.clients[id].store in state.cancelled);
        Own(Abort(id));
        return false;
      }
      LockIsHeld(start, trace, id);
      GrantEffect(state.db, id, state.clients[id], state.clients[id].store in state.cancelled);
      Own(WriteRow(id));
      return true;
    }

    /** The commit of a grant or of a renewal; whatever is not acknowledged is unproven. */
    method CommitWrite(id: Id, turn: Turn, outcome: CommitOutcome) returns (proved: bool)
      requires Valid() && id in state.clients && state.clients[id].phase.Written? && Foreign(turn, Main(id))
      modifies this
      ensures Valid() && old(trace) <= trace && id in state.clients
      ensures state.clients[id].lease.Some? == old(state).clients[id].lease.Some?
      ensures proved ==> outcome == Acknowledged && !PastDeadline(state.db, state.clients[id])
      ensures outcome == Acknowledged && state.clients[id].lease.None? ==> proved
      ensures if proved then state.clients[id].phase.Proved? else state.clients[id].phase == Unproven
      ensures outcome == Acknowledged && turn.others == [] && !PastDeadline(old(state).db, old(state).clients[id]) ==>
                && proved && old(state).db.lock.Staged? && state.db.row == Some(old(state).db.lock.next)
                && state.db.now == old(state).db.now && state.db.lock == Free
                && state.clients[id] == old(state).clients[id].(phase := Proved(old(state).clients[id].phase.proof))
    {
      hide Next, At;
      LetOthers(turn.others, Main(id));
      LockIsHeld(start, trace, id);
      var acknowledged := outcome == Acknowledged && !PastDeadline(state.db, state.clients[id]);
      if acknowledged {
        Own(CommitAcknowledged(id));
      } else if outcome == RolledBack {
        Own(Abort(id));
      } else {
        Own(CommitLost(id));
      }
      return acknowledged;
    }

    /** resolveAcquire and observe: one read of the row, with its own clock reading before it. */
    method ReadProof(id: Id, turn: Turn) returns (proved: bool)
      requires Valid() && id in state.clients && state.clients[id].phase == Unproven && Foreign(turn, Main(id))
      modifies this
      ensures Valid() && old(trace) <= trace && id in state.clients
      ensures state.clients[id].lease.Some? == old(state).clients[id].lease.Some?
      ensures proved ==> state.clients[id].phase.Proved? && !turn.fails && !PastDeadline(state.db, state.clients[id])
      ensures !proved && state.clients[id].lease.None? ==> state.clients[id].phase.Refused?
      ensures !proved && state.clients[id].lease.Some? ==> LoopEnded(state.clients[id])
      ensures !turn.fails && !PastDeadline(state.db, state.clients[id]) && state.clients[id].lease.Some? ==>
                (proved <==> Carries(state.db.row, id, state.clients[id].epoch) && IsHeld(state.db.row, state.db.now))
      ensures proved ==> Carries(state.db.row, id, state.clients[id].epoch) && IsHeld(state.db.row, state.db.now)
      ensures proved ==> var p := state.clients[id].phase.proof;
                         p.stamp == state.db.now && Some(p.expiry) == state.db.row.value.expiry
      ensures !turn.fails && state.clients[id].lease.None? && !proved ==>
                state.clients[id].phase ==
                Refused(if IsHeld(state.db.row, state.db.now) then HeldBy(EpochOf(state.db.row)) else Failed)
    {
      hide Next, At;
      Own(StartProof(id));
      LetOthers(turn.others, Main(id));
      if turn.fails || PastDeadline(state.db, state.clients[id]) {
        Own(ReadFailed(id));
        return false;
      }
      ColumnsSay(state.db.row, id, state.clients[id].epoch, state.db.now);
      Own(ReadRow(id));
      return state.clients[id].phase.Proved?;
    }

    /** conservativeRemaining, and then the second reading of the clock that sets safeUntil. */
    method AdoptProof(id: Id, measure: Turn, adopt: Turn) returns (live: bool)
      requires Valid() && id in state.clients && state.clients[id].phase.Proved?
      requires Foreign(measure, Main(id)) && Foreign(adopt, Main(id))
      modifies this
      ensures Valid() && old(trace) <= trace && id in state.clients && state.clients[id].lease.Some?
      ensures live ==> state.clients[id].phase == Top
      ensures !live ==> old(state).clients[id].lease.Some? && LoopEnded(state.clients[id])
      ensures measure.others == adopt.others == [] ==>
                var c, p := old(state).clients[id], old(state).clients[id].phase.proof;
                && state.db == old(state).db && state.clients[id].epoch == c.epoch && state.clients[id].ttl == c.ttl
                && state.clients[id].skew == c.skew && state.clients[id].renewInterval == c.renewInterval
                && state.clients[id].lease.value.released == (c.lease.Some? && c.lease.value.released)
                && (live ==> state.clients[id].lease.value.safeUntil == p.started + (p.expiry - p.stamp))
                && (c.lease.Some? ==> (live <==> p.started + (p.expiry - p.stamp) > state.db.now + c.skew))
    {
      hide Next, At;
      LetOthers(measure.others, Main(id));
      Own(Measure(id));
      LetOthers(adopt.others, Main(id));
      Own(Adopt(id));
      return state.clients[id].phase == Top;
    }

    /** Acquire: a returned lease is a committed grant of this very call. */
    method Acquire(id: Id, store: StoreId, skew: int, leaseTtl: nat, renewInterval: nat,
                   lock: Turn, write: Turn, commit: Turn, outcome: CommitOutcome, read: Turn,
                   measure: Turn, adopt: Turn)
      returns (granted: bool)
      requires Valid() && id !in state.clients
      requires Foreign(lock, Main(id)) && Foreign(write, Main(id)) && Foreign(commit, Main(id))
      requires Foreign(read, Main(id)) && Foreign(measure, Main(id)) && Foreign(adopt, Main(id))
      modifies this
      ensures Valid() && old(trace) <= trace && id in state.clients
      ensures granted <==> state.clients[id].lease.Some?
      ensures !granted ==> state.clients[id].phase.Refused?
      ensures granted ==> var e := state.clients[id].epoch;
                          && 1 <= e <= |state.db.grants| && state.db.grants[e - 1].holder == id
                          && forall i :: 0 <= i < |state.db.grants| && state.db.grants[i].holder == id ==> i == e - 1
      ensures granted ==> state.clients[id].lease.value.closes <= 1 && state.clients[id].phase == Top
      // A failure has its cause; the other refusals have theirs in RefusalHasCause.
      ensures state.clients[id].phase == Refused(Failed) ==>
                lock.fails || write.fails || outcome != Acknowledged || WasBusy(start, trace, |old(trace)|)
      // Left alone, Acquire takes exactly a row that nobody holds, for the time to live in whole milliseconds.
      ensures Quiet(lock) && Quiet(write) && commit.others == measure.others == adopt.others == []
              && outcome == Acknowledged && old(state).db.lock == Free ==>
                && GrantsAlone(old(state).db, state.db, state.clients[id], id, skew, leaseTtl, granted)
                && (granted ==> Fresh(state, id))
    {
      hide Next, SameThread, At, WasBusy;
      NewEffect(state, id, store, skew, leaseTtl, renewInterval);
      Perform(LeaseProtocol.Acquire(id, store, skew, leaseTtl, renewInterval));
      ghost var entered := trace;
      var written := Take(id, lock, write);
      if WasBusy(start, trace, |entered|) {
        BusyStays(start, trace, trace, |entered|, |old(trace)|);
      }
      if !written {
        return false;
      }
      var proved := CommitWrite(id, commit, outcome);
      if !proved {
        proved := ReadProof(id, read);
        if !proved {
          return false;
        }
      }
      granted := AdoptProof(id, measure, adopt);
      LeaseIsItsOwnGrant(start, trace, |trace|, id);
      LostClosesOnce(start, trace, |trace|, id);
    }

    // -------------------------------------------------------------- the renewal loop

    /** renewRow, from the renew timer on. */
    method RenewRow(id: Id, round: Round) returns (proved: bool)
      requires Valid() && id in state.clients && state.clients[id].phase == RenewReady && state.clients[id].lease.Some?
      requires ForeignRound(round, id)
      modifies this
      ensures Valid() && old(trace) <= trace && id in state.clients && state.clients[id].lease.Some?
      ensures if proved then state.clients[id].phase.Proved? else state.clients[id].phase == Unproven
      // Left alone before the safe time, it renews exactly a row that the lease still holds.
      ensures Quiet(round.begin) && Quiet(round.write) && round.commit.others == [] && round.outcome == Acknowledged
              && old(state).db.lock == Free && !PastDeadline(old(state).db, old(state).clients[id]) ==>
                var db, c := old(state).db, old(state).clients[id];
                && (proved <==> StillHeld(old(state), id))
                && (proved ==>
                      && state.clients[id] ==
                         c.(phase := Proved(Proof(db.now + c.skew, db.now + c.ttl, db.now)), roundStarted := db.now)
                      && state.db.now == db.now && state.db.lock == Free
                      && state.db.row == Some(RenewedRow(db.row.value, db.now + c.ttl)))
                && (!proved ==> state.db == db)
    {
      hide Next, At, MoveOf, Carries, IsHeld;
      var written := StageRenewal(id, round);
      if !written {
        return false;
      }
      proved := CommitWrite(id, round.commit, round.outcome);
    }

    /** The fenced update of a renewal, up to its commit. */
    method StageRenewal(id: Id, round: Round) returns (written: bool)
      requires Valid() && id in state.clients && state.clients[id].phase == RenewReady && state.clients[id].lease.Some?
      requires ForeignRound(round, id)
      modifies this
      ensures Valid() && old(trace) <= trace && id in state.clients && state.clients[id].lease.Some?
      ensures if written then state.clients[id].phase.Written? else state.clients[id].phase == Unproven
      ensures Quiet(round.begin) && Quiet(round.write)
              && old(state).db.lock == Free && !PastDeadline(old(state).db, old(state).clients[id]) ==>
                var db, c := old(state).db, old(state).clients[id];
                && (written <==> StillHeld(old(state), id))
                && (written ==>
                      && state.clients[id] ==
                         c.(phase := Written(Proof(db.now + c.skew, db.now + c.ttl, db.now)), roundStarted := db.now)
                      && state.db == db.(lock := Staged(id, Renewal, RenewedRow(db.row.value, db.now + c.ttl),
                                                        db.now, c.ttl, false)))
                && (!written ==> state.db == db)
    {
      hide Next, At, MoveOf, Carries, IsHeld;
      LetOthers(round.begin.others, Main(id));
      RenewalEffects(state.db, id, state.clients[id], state.clients[id].store in state.cancelled);
      if round.begin.fails {
        Own(Abort(id));
        return false;
      }
      Own(StartProof(id));
      LetOthers(round.write.others, Main(id));
      RenewalEffects(state.db, id, state.clients[id], state.clients[id].store in state.cancelled);
      if round.write.fails || state.db.lock != Free || PastDeadline(state.db, state.clients[id]) {
        Own(Abort(id));
        return false;
      }
      Own(WriteRow(id));
      return state.clients[id].phase.Written?;
    }

    /** The select statement: only a case that is ready can be chosen, and none may be yet. */
    method Wait(id: Id, round: Round) returns (renew: bool)
      requires Valid() && id in state.clients && state.clients[id].phase.Waiting? && state.clients[id].lease.Some?
      requires Foreign(round.wait, Main(id))
      modifies this
      ensures Valid() && old(trace) <= trace && id in state.clients && state.clients[id].lease.Some?
      ensures renew ==> state.clients[id].phase == RenewReady
      ensures !renew ==> state.clients[id].phase.Waiting? || LoopEnded(state.clients[id])
      // The case chosen is taken exactly when it is ready.
      ensures var c, l, was := state.clients[id], state.clients[id].lease.value, old(state).clients[id].phase;
              var local := state.db.now + c.skew;
              match round.wake
              case Done => LoopEnded(c) <==> l.done
              case Cancelled => round.wait.others == [] ==> (LoopEnded(c) <==> c.store in old(state).cancelled)
              case Expired => LoopEnded(c) <==> local >= was.until
              case RenewDue => renew <==> state.db.now >= was.since + old(state).clients[id].renewInterval
      ensures |round.wait.others| == 1 && round.wait.others[0].Tick? && round.wake == RenewDue ==>
                && state.db == old(state).db.(now := old(state).db.now + round.wait.others[0].delay)
                && (renew ==> state.clients[id] == old(state).clients[id].(phase := RenewReady))
      ensures round.wake == Cancelled || round.wake == Expired ==> !state.clients[id].phase.Waiting? ==>
                state.clients[id].lease.value.lost
    {
      hide Next, At;
      LetOthers(round.wait.others, Main(id));
      TickEffect(old(state), round.wait.others);
      Own(match round.wake
          case Done => WakeDone(id)
          case Cancelled => WakeCancelled(id)
          case Expired => WakeExpiry(id)
          case RenewDue => WakeRenew(id));
      return state.clients[id].phase == RenewReady;
    }

    /**
     renewLoop, for as many rounds as are given; a round in which no case of the select is ready
     waits on in the next.  When the loop ends, the lease is unregistered and either its Lost is
     closed or whoever released or stopped it closes it.  Undisturbed rounds renew the row one by one.
     */
    method RenewLoop(id: Id, rounds: seq<Round>) returns (ended: bool)
      requires Valid() && id in state.clients && state.clients[id].phase == Top && state.clients[id].lease.Some?
      requires forall i :: 0 <= i < |rounds| ==> ForeignRound(rounds[i], id)
      modifies this
      ensures Valid() && old(trace) <= trace && id in state.clients && state.clients[id].lease.Some?
      ensures ended ==> LoopEnded(state.clients[id])
      ensures ended && state.clients[id].releaser == Idle && state.clients[id].closer == NotClosing ==>
                state.clients[id].lease.value.lost
      ensures !ended ==> state.clients[id].phase == Top || state.clients[id].phase.Waiting?
      ensures Fresh(old(state), id) && (forall i :: 0 <= i < |rounds| ==> Renews(rounds[i], old(state).clients[id])) ==>
                !ended && RenewedTimes(old(state), state, id, |rounds|)
    {
      hide Next, SameThread, At, Fresh, Renews, RenewedTimes, ForeignRound;
      var i := 0;
      ghost var alone :=
        Fresh(old(state), id) && forall i :: 0 <= i < |rounds| ==> Renews(rounds[i], old(state).clients[id]);
      if alone {
        NoneRenewed(state, id);
      }
      while i < |rounds|
        invariant i <= |rounds|
        invariant Valid() && old(trace) <= trace
        invariant id in state.clients && state.clients[id].lease.Some?
        invariant state.clients[id].phase == Top || state.clients[id].phase.Waiting?
        invariant alone ==> RenewedTimes(old(state), state, id, i)
      {
        ghost var before := state;
        if alone {
          StillRenews(old(state), state, id, i, rounds[i]);
        }
        ended := RenewRound(id, rounds[i]);
        if alone {
          OnceMore(old(state), before, state, id, i);
        }
        if ended {
          Quiescent(start, trace, id);
          return;
        }
        i := i + 1;
      }
      return false;
    }

    /** One round: wait, renew, reread if the renewal is unproven, and adopt the proof. */
    method RenewRound(id: Id, round: Round) returns (ended: bool)
      requires Valid() && id in state.clients && state.clients[id].lease.Some? && ForeignRound(round, id)
      requires state.clients[id].phase == Top || state.clients[id].phase.Waiting?
      modifies this
      ensures Valid() && old(trace) <= trace && id in state.clients && state.clients[id].lease.Some?
      ensures if ended then LoopEnded(state.clients[id])
              else state.clients[id].phase == Top || state.clients[id].phase.Waiting?
      ensures Fresh(old(state), id) && Renews(round, old(state).clients[id]) ==>
                !ended && RenewedTimes(old(state), state, id, 1)
    {
      hide Next, SameThread, At;
      if state.clients[id].phase == Top {
        var proceeds := EnterRound(id, round);
        if !proceeds {
          return true;
        }
      }
      var renew := Wait(id, round);
      if !renew {
        return !state.clients[id].phase.Waiting?;
      }
      var proved := RenewRow(id, round);
      if !proved {
        proved := ReadProof(id, round.read);
        if !proved {
          return true;
        }
      }
      var live := AdoptProof(id, round.measure, round.adopt);
      return !live;
    }

    /** The top of the loop: a released lease ends it, and so does a safe time that has passed. */
    method EnterRound(id: Id, round: Round) returns (proceeds: bool)
      requires Valid() && id in state.clients && state.clients[id].phase == Top && state.clients[id].lease.Some?
      requires ForeignRound(round, id)
      modifies this
      ensures Valid() && old(trace) <= trace && id in state.clients && state.clients[id].lease.Some?
      ensures proceeds ==>
                state.clients[id].phase.Waiting?
                && state.clients[id].phase.since + state.clients[id].skew < state.clients[id].phase.until
      ensures !proceeds ==> LoopEnded(state.clients[id])
      ensures var c, l := state.clients[id], state.clients[id].lease.value;
              proceeds <==> !l.released && state.db.now + c.skew < l.safeUntil
      ensures round.top.others == [] && !old(state).clients[id].lease.value.released
              && old(state).db.now + old(state).clients[id].skew < old(state).clients[id].lease.value.safeUntil ==>
                && proceeds && state.db == old(state).db
                && state.clients[id] ==
                   old(state).clients[id].(phase := Waiting(old(state).clients[id].lease.value.safeUntil, state.db.now))
    {
      hide Next, At;
      LetOthers(round.top.others, Main(id));
      Own(LoopTop(id));
      return state.clients[id].phase.Waiting?;
    }

    // -------------------------------------------------------------- Release

    /**
     Release.  Success means the release is complete, and Lost was closed before the row was
     touched; a failure leaves a lease whose release can be tried again.
     */
    method Release(id: Id, local: Turn, write: Turn, commit: Turn, outcome: CommitOutcome, cancelled: bool, read: Turn)
      returns (ok: bool)
      requires Valid() && id in state.clients && state.clients[id].lease.Some? && state.clients[id].releaser == Idle
      requires Foreign(local, Releasing(id)) && Foreign(write, Releasing(id))
      requires Foreign(commit, Releasing(id)) && Foreign(read, Releasing(id))
      modifies this
      ensures Valid() && old(trace) <= trace && id in state.clients && state.clients[id].lease.Some?
      ensures ok <==> state.clients[id].lease.value.releaseComplete
      ensures old(state).clients[id].lease.value.releaseComplete ==> ok && trace == old(trace)
      ensures state.clients[id].releaser == Idle && state.clients[id].lease.value.released
      ensures state.clients[id].lease.value.lost
      // A success that this call brought about leaves a row that the lease does not hold.
      ensures ok && !old(state).clients[id].lease.value.releaseComplete ==> !StillHeld(state, id)
      // An error has its cause, and the reread has confirmed it unless it could not.
      ensures !ok ==> write.fails || outcome != Acknowledged || WasBusy(start, trace, |old(trace)|)
      ensures !ok ==> cancelled || read.fails || StillHeld(state, id)
      // Left alone, it clears exactly the row of its own epoch and holder.
      ensures Quiet(write) && local.others == commit.others == [] && outcome == Acknowledged
              && old(state).db.lock == Free && !old(state).clients[id].lease.value.releaseComplete ==>
                && ok && state.db.lock == Free && state.db.now == old(state).db.now
                && ClearsAlone(old(state).db.row, state.db.row, id, old(state).clients[id].epoch)
    {
      hide Next, SameThread, At, WasBusy, MoveOf;
      if state.clients[id].lease.value.releaseComplete {
        Finished(start, trace, id);
        return true;
      }
      var first := !state.clients[id].lease.value.released;
      ReleaseEffects(state.db, id, state.clients[id], state.clients[id].store in state.cancelled);
      Own(ReleaseStart(id));
      if first {
        StopLocally(id, local);
      }
      ghost var stopped := trace;
      var failed := ClearRow(id, write, commit, outcome);
      if WasBusy(start, trace, |stopped|) {
        BusyStays(start, trace, trace, |stopped|, |old(trace)|);
      }
      if failed {
        ghost var cleared := trace;
        if cancelled {
          ReleaseEffects(state.db, id, state.clients[id], state.clients[id].store in state.cancelled);
          Own(ReleaseCancelled(id));
        } else {
          ResolveRelease(id, read);
        }
        if WasBusy(start, cleared, |old(trace)|) {
          BusyStays(start, cleared, trace, |old(trace)|, |old(trace)|);
        }
      }
      Finished(start, trace, id);
      return state.clients[id].lease.value.releaseComplete;
    }

    /** stop, markLost and unregister, once. */
    method StopLocally(id: Id, local: Turn)
      requires Valid() && id in state.clients && state.clients[id].lease.Some? && state.clients[id].releaser == Stopping
      requires !state.clients[id].lease.value.releaseComplete && Foreign(local, Releasing(id))
      modifies this
      ensures Valid() && old(trace) <= trace && id in state.clients && state.clients[id].lease.Some?
      ensures state.clients[id].releaser == Clearing && !state.clients[id].lease.value.releaseComplete
      ensures state.clients[id].lease.value.released == old(state).clients[id].lease.value.released
      ensures state.clients[id].lease.value.lost && state.clients[id].lease.value.done && !state.clients[id].registered
      ensures local.others == [] ==>
                state.db == old(state).db && state.clients[id].epoch == old(state).clients[id].epoch
    {
      hide Next, At;
      Own(ReleaseLocal(id));
      LetOthers(local.others, Releasing(id));
      Own(ReleaseLocal(id));
      Own(ReleaseLocal(id));
    }

    /** releaseRow: the fenced update and its commit. */
    method ClearRow(id: Id, write: Turn, commit: Turn, outcome: CommitOutcome) returns (failed: bool)
      requires Valid() && id in state.clients && state.clients[id].lease.Some? && state.clients[id].releaser == Clearing
      requires !state.clients[id].lease.value.releaseComplete && Foreign(write, Releasing(id))
      requires Foreign(commit, Releasing(id))
      modifies this
      ensures Valid() && old(trace) <= trace && id in state.clients && state.clients[id].lease.Some?
      ensures state.clients[id].lease.value.released == old(state).clients[id].lease.value.released
      ensures state.clients[id].releaser == if failed then ClearUnproven else Idle
      ensures state.clients[id].lease.value.releaseComplete <==> !failed
      ensures !failed ==> !StillHeld(state, id)
      ensures failed ==> write.fails || outcome != Acknowledged || WasBusy(start, trace, |old(trace)|)
      ensures Quiet(write) && commit.others == [] && outcome == Acknowledged && old(state).db.lock == Free ==>
                && !failed && state.db.lock == Free && state.db.now == old(state).db.now
                && ClearsAlone(old(state).db.row, state.db.row, id, old(state).clients[id].epoch)
    {
      hide Next, At, WasBusy;
      LetOthers(write.others, Releasing(id));
      if write.fails || state.db.lock != Free {
        if state.db.lock != Free {
          BusyNow(start, trace, |old(trace)|);
          BusyStays(start, trace, trace + [ReleaseAborted(id)], |old(trace)|, |old(trace)|);
        }
        Own(ReleaseAborted(id));
        return true;
      }
      hide MoveOf;
      ClearEffect(state.db, id, state.clients[id], state.clients[id].store in state.cancelled);
      Own(ReleaseWrite(id));
      failed := CommitClear(id, commit, outcome);
    }

    method CommitClear(id: Id, commit: Turn, outcome: CommitOutcome) returns (failed: bool)
      requires Valid() && id in state.clients && state.clients[id].lease.Some?
      requires state.clients[id].releaser.ClearWritten?
      requires !state.clients[id].lease.value.releaseComplete && Foreign(commit, Releasing(id))
      modifies this
      ensures Valid() && old(trace) <= trace && id in state.clients && state.clients[id].lease.Some?
      ensures state.clients[id].lease.value.released == old(state).clients[id].lease.value.released
      ensures failed <==> outcome != Acknowledged
      ensures state.clients[id].releaser == if failed then ClearUnproven else Idle
      ensures state.clients[id].lease.value.releaseComplete <==> !failed
      ensures !failed ==> !StillHeld(state, id)
      ensures !failed && commit.others == [] ==>
                && state.db.now == old(state).db.now
                && if old(state).clients[id].releaser.matched then
                     && old(state).db.lock.Staged? && state.db.lock == Free
                     && state.db.row == Some(old(state).db.lock.next)
                   else state.db == old(state).db
    {
      hide Next, At, MoveOf;
      LetOthers(commit.others, Releasing(id));
      ClearIsHeld(start, trace, id);
      var a := match outcome
               case Acknowledged => ReleaseAcknowledged(id)
               case Unanswered => ReleaseLost(id)
               case RolledBack => ReleaseAborted(id);
      ClearOutcome(state.db, id, state.clients[id], a, state.clients[id].store in state.cancelled);
      ghost var before := trace;
      Own(a);
      if outcome == Acknowledged {
        ReleasedNow(start, before, a, id);
      }
      return outcome != Acknowledged;
    }

    /** resolveRelease: complete unless the row is still owned. */
    method ResolveRelease(id: Id, read: Turn)
      requires Valid() && id in state.clients && state.clients[id].lease.Some?
      requires state.clients[id].releaser == ClearUnproven
      requires !state.clients[id].lease.value.releaseComplete && Foreign(read, Releasing(id))
      modifies this
      ensures Valid() && old(trace) <= trace && id in state.clients && state.clients[id].lease.Some?
      ensures state.clients[id].releaser == Idle
      ensures state.clients[id].lease.value.released == old(state).clients[id].lease.value.released
      ensures state.clients[id].lease.value.releaseComplete <==>
                !read.fails && !StillHeld(state, id)
    {
      hide Next, At;
      LetOthers(read.others, Releasing(id));
      ColumnsSay(state.db.row, id, state.clients[id].epoch, state.db.now);
      Own(if read.fails then ReleaseReadFailed(id) else ReleaseRead(id));
    }

    // -------------------------------------------------------------- Close

    /**
     Close: the leases registered when it copies them, after the store's context has ended, are all
     stopped and lost when it returns, whatever the others do before each of its steps; and of itself
     it touches no other lease.
     */
    method Close(store: StoreId, others: nat -> seq<Action>) returns (ids: seq<Id>, ghost copied: nat)
      requires Valid()
      requires forall n, a :: a in others(n) ==> !CopiesFor(a, store)
      modifies this
      ensures Valid() && old(trace) <= trace && store in state.cancelled
      ensures |old(trace)| < copied <= |trace| && IsCopy(At(start, trace, copied), store, ids)
      ensures forall id :: id in ids ==> id in state.clients && Closed(state.clients[id])
      ensures (forall n :: others(n) == []) ==> OthersKept(old(state).clients, state.clients, ids)
    {
      hide Next, MoveOf, At;
      Perform(CancelStore(store));
      assert store in state.cancelled && state.clients == old(state).clients by { CancelEffect(old(state), store); }
      LetRest(others(0), store, []);
      copied := |trace|;
      ghost var copy := trace;
      ids := CopyLeases(store);
      CollectEffect(state, store, ids);
      Perform(CollectLeases(store));
      var i := 0;
      while i < |ids|
        invariant i <= |ids| && Valid() && copy <= trace && store in state.cancelled
        invariant ClosingAt(state.clients, store, ids, i)
        invariant (forall n :: others(n) == []) ==> OthersKept(old(state).clients, state.clients, ids)
      {
        CloseOne(store, ids, i, others(2 * i + 1), others(2 * i + 2));
        i := i + 1;
      }
      AllClosed(state.clients, store, ids);
      LongerRun(start, copy, trace, copied);
    }

    /** The copy of the map of leases, in any order. */
    method CopyLeases(store: StoreId) returns (ids: seq<Id>)
      ensures IsCopy(state, store, ids)
      ensures forall i, j :: 0 <= i < j < |ids| ==> ids[i] != ids[j]
    {
      ids := [];
      var left := set id | id in state.clients && Collected(state.clients[id], store);
      while left != {}
        invariant forall id :: id in state.clients && Collected(state.clients[id], store) <==> id in ids || id in left
        invariant forall i, j :: 0 <= i < j < |ids| ==> ids[i] != ids[j]
        invariant forall id :: id in left ==> id !in ids
      {
        var id :| id in left;
        ids, left := ids + [id], left - {id};
      }
    }

    /** stop and markLost of one collected lease, with the others before each. */
    method CloseOne(store: StoreId, ids: seq<Id>, i: nat, before: seq<Action>, between: seq<Action>)
      requires Valid() && store in state.cancelled && i < |ids| && ClosingAt(state.clients, store, ids, i)
      requires forall a :: a in before || a in between ==> !CopiesFor(a, store)
      modifies this
      ensures Valid() && old(trace) <= trace && store in state.cancelled && ClosingAt(state.clients, store, ids, i + 1)
      ensures before == between == [] ==> OthersKept(old(state).clients, state.clients, ids)
    {
      hide Next, MoveOf, At;
      LetRest(before, store, ids);
      CloseStep(store, ids, ids[i]);
      LetRest(between, store, ids);
      CloseStep(store, ids, ids[i]);
    }

    /** Others run; the closing of the copied leases never goes back. */
    method LetRest(others: seq<Action>, store: StoreId, ids: seq<Id>)
      requires Valid() && store in state.cancelled && forall a :: a in others ==> !CopiesFor(a, store)
      requires forall k :: 0 <= k < |ids| ==> ids[k] in state.clients && Share(state.clients[ids[k]], store)
      modifies this
      ensures Valid() && trace == old(trace) + others && store in state.cancelled
      ensures forall k :: 0 <= k < |ids| ==>
                ids[k] in state.clients && Further(old(state).clients[ids[k]], state.clients[ids[k]], store)
      ensures others == [] ==> state == old(state)
    {
      hide Next, At;
      var i := 0;
      while i < |others|
        invariant i <= |others| && Valid() && trace == old(trace) + others[..i] && store in state.cancelled
        invariant forall k :: 0 <= k < |ids| ==>
                    ids[k] in state.clients && Further(old(state).clients[ids[k]], state.clients[ids[k]], store)
        invariant i == 0 ==> state == old(state)
      {
        StepGoesFurther(state, others[i], store, ids);
        Perform(others[i]);
        i := i + 1;
      }
    }

    /** stop, or after it markLost, of one copied lease. */
    method CloseStep(store: StoreId, ids: seq<Id>, id: Id)
      requires Valid() && store in state.cancelled && id in ids
      requires forall k :: 0 <= k < |ids| ==> ids[k] in state.clients && Share(state.clients[ids[k]], store)
      modifies this
      ensures Valid() && trace == old(trace) + [CloseLocal(id)] && store in state.cancelled
      ensures forall k :: 0 <= k < |ids| ==>
                ids[k] in state.clients && Further(old(state).clients[ids[k]], state.clients[ids[k]], store)
      ensures Stage(old(state).clients[id]) < 2 ==> Stage(state.clients[id]) > Stage(old(state).clients[id])
      ensures OthersKept(old(state).clients, state.clients, ids)
    {
      hide Next, At;
      StepGoesFurther(state, CloseLocal(id), store, ids);
      CloseEffect(state, id);
      Perform(CloseLocal(id));
    }
  }

  /** One round of the loop and what surrounds its steps. */
  datatype Wake = Done | Cancelled | Expired | RenewDue

  datatype Round = Round(
    top: Turn, wait: Turn, wake: Wake, begin: Turn, write: Turn, commit: Turn, outcome: CommitOutcome,
    read: Turn, measure: Turn, adopt: Turn)

  ghost predicate ForeignRound(r: Round, id: Id) {
    && Foreign(r.top, Main(id)) && Foreign(r.wait, Main(id)) && Foreign(r.begin, Main(id)) && Foreign(r.write, Main(id))
    && Foreign(r.commit, Main(id)) && Foreign(r.read, Main(id)) && Foreign(r.measure, Main(id))
    && Foreign(r.adopt, Main(id))
  }

  /** A lease at the top of its loop that has its whole time to live before it. */
  ghost predicate Fresh(s: State, id: Id) {
    && id in s.clients && s.clients[id].phase == Top && s.clients[id].lease.Some? && s.db.lock == Free
    && var c := s.clients[id];
    && Carries(s.db.row, id, c.epoch) && s.db.row.value.expiry == Some(s.db.now + c.ttl)
    && c.lease.value.safeUntil == s.db.now + c.ttl + c.skew && !c.lease.value.released
  }

  /** A round that waits for its renewal, less than the time to live, and is not disturbed. */
  ghost predicate Renews(r: Round, c: Client) {
    && r.top.others == [] && r.wake == RenewDue && |r.wait.others| == 1 && r.wait.others[0].Tick?
    && c.renewInterval <= r.wait.others[0].delay < c.ttl
    && Quiet(r.begin) && Quiet(r.write) && r.commit.others == [] && r.outcome == Acknowledged
    && r.measure.others == r.adopt.others == []
  }

  /** The lease is fresh again, and its row has been renewed n times. */
  ghost predicate RenewedTimes(s: State, s': State, id: Id, n: nat) {
    && Fresh(s, id) && Fresh(s', id)
    && var c, c' := s.clients[id], s'.clients[id];
    && c'.epoch == c.epoch && c'.ttl == c.ttl && c'.skew == c.skew && c'.renewInterval == c.renewInterval
    && RevisionIn(s'.db.row) == RevisionIn(s.db.row) + n
  }

  lemma NoneRenewed(s: State, id: Id)
    requires Fresh(s, id)
    ensures RenewedTimes(s, s, id, 0)
  {
  }

  lemma StillRenews(s: State, s': State, id: Id, n: nat, r: Round)
    requires RenewedTimes(s, s', id, n) && Renews(r, s.clients[id])
    ensures Fresh(s', id) && Renews(r, s'.clients[id])
  {
  }

  lemma OnceMore(s: State, s': State, s'': State, id: Id, n: nat)
    requires RenewedTimes(s, s', id, n) && RenewedTimes(s', s'', id, 1)
    ensures RenewedTimes(s, s'', id, n + 1)
  {
  }

  lemma TickEffect(s: State, others: seq<Action>)
    ensures |others| == 1 && others[0].Tick? ==>
              Next(s, others[0]) == s.(db := s.db.(now := s.db.now + others[0].delay))
  {
  }

  /** The loop has returned: unregistered, and lost unless someone else is to close Lost. */
  predicate LoopEnded(c: Client) {
    c.phase == Exited && !c.registered && c.lease.Some?
    && (c.lease.value.lost || c.lease.value.released || c.lease.value.done)
  }

  /** The row still names the client's lease, and its time has not come. */
  predicate StillHeld(s: State, id: Id)
    requires id in s.clients
  {
    Carries(s.db.row, id, s.clients[id].epoch) && IsHeld(s.db.row, s.db.now)
  }

  predicate Collected(c: Client, store: StoreId) { c.store == store && c.registered && c.lease.Some? }

  predicate Closed(c: Client) { c.lease.Some? && c.lease.value.done && c.lease.value.lost && c.closer == NotClosing }

  /** Another Close of the same store copies its leases. */
  predicate CopiesFor(a: Action, store: StoreId) { a.CollectLeases? && a.store == store }

  /** `ids` are the leases of the store that are registered in this state. */
  ghost predicate IsCopy(s: State, store: StoreId, ids: seq<Id>) {
    forall id :: id in ids <==> id in s.clients && Collected(s.clients[id], store)
  }

  /** How far the closing of a copied lease has come: to be stopped, to be marked, done. */
  function Stage(c: Client): nat { if c.closer == CloseStopping then 0 else if c.closer == CloseMarking then 1 else 2 }

  /** A copied lease, with what its stage says done. */
  predicate Share(c: Client, store: StoreId) {
    && c.store == store && c.lease.Some?
    && (Stage(c) >= 1 ==> c.lease.value.done)
    && (Stage(c) == 2 ==> c.lease.value.lost)
  }

  predicate Further(c: Client, c': Client, store: StoreId) { Share(c', store) && Stage(c') >= Stage(c) }

  /** Of the copied leases the first i are closed. */
  ghost predicate ClosingAt(clients: map<Id, Client>, store: StoreId, ids: seq<Id>, i: nat) {
    && (forall k :: 0 <= k < |ids| ==> ids[k] in clients && Share(clients[ids[k]], store))
    && (forall k :: 0 <= k < |ids| && k < i ==> Stage(clients[ids[k]]) == 2)
  }

  /** No lease outside the list has changed. */
  ghost predicate OthersKept(clients: map<Id, Client>, clients': map<Id, Client>, ids: seq<Id>) {
    forall id :: id in clients && id !in ids ==> id in clients' && clients'[id] == clients[id]
  }

  lemma CancelEffect(s: State, store: StoreId)
    ensures store in Next(s, CancelStore(store)).cancelled && Next(s, CancelStore(store)).clients == s.clients
  {
  }

  lemma CollectEffect(s: State, store: StoreId, ids: seq<Id>)
    requires store in s.cancelled && IsCopy(s, store, ids)
    ensures var s' := Next(s, CollectLeases(store));
            && store in s'.cancelled
            && ClosingAt(s'.clients, store, ids, 0) && OthersKept(s.clients, s'.clients, ids)
  {
    forall k | 0 <= k < |ids|
      ensures ids[k] in s.clients && Collected(s.clients[ids[k]], store)
    {
      assert ids[k] in ids;
    }
  }

  lemma AllClosed(clients: map<Id, Client>, store: StoreId, ids: seq<Id>)
    requires ClosingAt(clients, store, ids, |ids|)
    ensures forall id :: id in ids ==> id in clients && Closed(clients[id])
  {
  }

  lemma MoveGoesFurther(db: Db, id: Id, c: Client, a: Action, cancelled: bool, store: StoreId)
    requires Share(c, store)
    ensures Further(c, MoveOf(db, id, c, a, cancelled).c, store)
  {
    if !a.CloseLocal? {
      hide *;
      MoveLeavesCloser(db, id, c, a, cancelled);
      SameIsFurther(c, MoveOf(db, id, c, a, cancelled).c, store);
    }
  }

  predicate SameCloser(c: Client, c': Client) {
    && c'.closer == c.closer && c'.store == c.store
    && (c.lease.Some? ==>
          c'.lease.Some? && (c.lease.value.lost ==> c'.lease.value.lost)
          && (c.lease.value.done ==> c'.lease.value.done))
  }

  lemma MoveLeavesCloser(db: Db, id: Id, c: Client, a: Action, cancelled: bool)
    requires !a.CloseLocal?
    ensures SameCloser(c, MoveOf(db, id, c, a, cancelled).c)
  {
    hide Land;
  }

  lemma SameIsFurther(c: Client, c': Client, store: StoreId)
    requires Share(c, store) && SameCloser(c, c')
    ensures Further(c, c', store)
  {
  }

  /** No step of anyone undoes a part of the closing, but for another Close that begins anew. */
  lemma OneGoesFurther(s: State, a: Action, store: StoreId, id: Id)
    requires store in s.cancelled && !CopiesFor(a, store) && id in s.clients && Share(s.clients[id], store)
    ensures id in Next(s, a).clients && Further(s.clients[id], Next(s, a).clients[id], store)
  {
    hide MoveOf, Land;
    if !Global(a) && a.id == id {
      MoveGoesFurther(s.db, id, s.clients[id], a, s.clients[id].store in s.cancelled, store);
    }
  }

  lemma StepGoesFurther(s: State, a: Action, store: StoreId, ids: seq<Id>)
    requires store in s.cancelled && !CopiesFor(a, store)
    requires forall k :: 0 <= k < |ids| ==> ids[k] in s.clients && Share(s.clients[ids[k]], store)
    ensures store in Next(s, a).cancelled
    ensures forall k :: 0 <= k < |ids| ==>
              ids[k] in Next(s, a).clients && Further(s.clients[ids[k]], Next(s, a).clients[ids[k]], store)
  {
    CancelledStays(s, a, store);
    hide Next;
    forall k | 0 <= k < |ids|
      ensures ids[k] in Next(s, a).clients && Further(s.clients[ids[k]], Next(s, a).clients[ids[k]], store)
    {
      OneGoesFurther(s, a, store, ids[k]);
    }
  }

  lemma CloseEffect(s: State, id: Id)
    requires id in s.clients && s.clients[id].lease.Some?
    ensures var s' := Next(s, CloseLocal(id));
            && s'.clients.Keys == s.clients.Keys
            && (forall j :: j in s.clients && j != id ==> s'.clients[j] == s.clients[j])
            && (Stage(s.clients[id]) < 2 ==> Stage(s'.clients[id]) > Stage(s.clients[id]))
  {
  }

  lemma CancelledStays(s: State, a: Action, store: StoreId)
    requires store in s.cancelled
    ensures store in Next(s, a).cancelled
  {
    hide MoveOf;
  }

  /** A thread that has written still owns the row lock, and so does one that only has read. */
  lemma LockIsHeld(start: Time, trace: seq<Action>, id: Id)
    requires id in At(start, trace, |trace|).clients
    ensures var s := At(start, trace, |trace|); var phase := s.clients[id].phase;
            && (phase.Written? ==> s.db.lock.Staged?)
            && (phase.AcquireTimed? ==> s.db.lock.Held? && s.db.lock.owner == id)
  {
    hide At;
    Reachable(start, trace, |trace|);
    assert ClientOk(At(start, trace, |trace|).db, id, At(start, trace, |trace|).clients[id]);
  }

  lemma ClearIsHeld(start: Time, trace: seq<Action>, id: Id)
    requires id in At(start, trace, |trace|).clients
    ensures var s := At(start, trace, |trace|); s.clients[id].releaser == ClearWritten(true) ==> s.db.lock.Staged?
  {
    hide At;
    Reachable(start, trace, |trace|);
    assert ClientOk(At(start, trace, |trace|).db, id, At(start, trace, |trace|).clients[id]);
  }

  /** What the steps of a renewal do to its client. */
  lemma RenewalEffects(db: Db, id: Id, c: Client, cancelled: bool)
    ensures c.phase == RenewReady || c.phase.RenewTimed? ==>
              var c' := MoveOf(db, id, c, Abort(id), cancelled).c; c'.phase == Unproven && c'.lease == c.lease
    ensures c.phase == RenewReady ==>
              MoveOf(db, id, c, StartProof(id), cancelled) ==
              Move(db, c.(phase := RenewTimed(db.now + c.skew), roundStarted := db.now))
    ensures c.phase.RenewTimed? && db.lock == Free && !PastDeadline(db, c) ==>
              MoveOf(db, id, c, WriteRow(id), cancelled) ==
              if Carries(db.row, id, c.epoch) && IsHeld(db.row, db.now) then
                Move(db.(lock := Staged(id, Renewal, RenewedRow(db.row.value, db.now + c.ttl), db.now, c.ttl, false)),
                     c.(phase := Written(Proof(c.phase.started, db.now + c.ttl, db.now))))
              else Move(db, c.(phase := Unproven))
  {
    ColumnsSay(db.row, id, c.epoch, db.now);
  }

  lemma ClearOutcome(db: Db, id: Id, c: Client, a: Action, cancelled: bool)
    requires c.lease.Some? && c.releaser.ClearWritten? && (c.releaser.matched ==> db.lock.Staged?)
    requires a.ReleaseAcknowledged? || a.ReleaseLost? || a.ReleaseAborted?
    ensures MoveOf(db, id, c, a, cancelled).c ==
            if a.ReleaseAcknowledged? then Complete(c) else c.(releaser := ClearUnproven)
    ensures a.ReleaseAcknowledged? ==>
              var db' := MoveOf(db, id, c, a, cancelled).db;
              && db'.now == db.now
              && if c.releaser.matched then db'.lock == Free && db'.row == Some(db.lock.next) else db' == db
  {
  }

  lemma Finished(start: Time, trace: seq<Action>, id: Id)
    requires var s := At(start, trace, |trace|);
             id in s.clients && s.clients[id].lease.Some? && s.clients[id].releaser == Idle
    ensures var l := At(start, trace, |trace|).clients[id].lease.value;
            (l.releaseComplete ==> l.released) && (l.released ==> l.lost)
  {
    hide At;
    Reachable(start, trace, |trace|);
    assert ClientOk(At(start, trace, |trace|).db, id, At(start, trace, |trace|).clients[id]);
  }

  lemma Quiescent(start: Time, trace: seq<Action>, id: Id)
    requires var s := At(start, trace, |trace|); id in s.clients && s.clients[id].lease.Some?
    ensures var c := At(start, trace, |trace|).clients[id];
            c.phase == Exited && c.releaser == Idle && c.closer == NotClosing ==> c.lease.value.lost
  {
    hide At;
    var c := At(start, trace, |trace|).clients[id];
    if c.phase == Exited && c.releaser == Idle && c.closer == NotClosing {
      QuiescentLeaseIsLost(start, trace, |trace|, id);
    }
  }

  lemma SameThreadIsReflexive(t: Thread, c: Client)
    ensures SameThread(t, c, c)
  {
  }
}
