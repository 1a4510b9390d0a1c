/** Why Acquire refuses, and what a finished Release leaves behind, over every run. */
module LeaseAnswers {
  import opened Common
  import opened LeaseProtocol
  import opened LeaseSafety
  import opened LeaseTheorems

  // ---------------------------------------------------------------- the row, in its columns

  /** The row has a holder whose time has not come. */
  predicate IsHeld(row: Option<Row>, at: Time) {
    match row
    case None => false
    case Some(r) => r.holder != None && match r.expiry case None => false case Some(expiry) => at < expiry
  }

  /** The row carries this epoch and this holder. */
  predicate Carries(row: Option<Row>, id: Id, epoch: nat) {
    match row
    case None => false
    case Some(r) => r.epoch == epoch && r.holder == Some(id)
  }

  lemma ColumnsSay(row: Option<Row>, id: Id, epoch: nat, at: Time)
    ensures Live(row, at) <==> IsHeld(row, at)
    ensures Matches(row, id, epoch) <==> Carries(row, id, epoch)
    ensures Owns(row, id, epoch, at) <==> Carries(row, id, epoch) && IsHeld(row, at)
  {
  }

  // ---------------------------------------------------------------- a finished release

  /** A release that found nothing to clear is still right about that. */
  ghost predicate NothingToClear(s: State, id: Id) {
    id in s.clients && s.clients[id].releaser == ClearWritten(false) ==>
      s.clients[id].lease.Some? && !Carries(s.db.row, id, s.clients[id].epoch)
  }

  /** A row that has passed from a lease never comes back to it. */
  lemma RowDoesNotReturn(db: Db, id: Id, c: Client)
    requires DbOk(db) && ClientOk(db, id, c) && c.lease.Some? && !Carries(db.row, id, c.epoch) && db.lock.Staged?
    ensures !Carries(Land(db).row, id, c.epoch)
  {
    hide PhaseOk, LifecycleOk, ClearOk;
  }

  lemma BecomesUnmatched(db: Db, id: Id, c: Client, a: Action, cancelled: bool)
    requires LifecycleOk(c)
    requires var m := MoveOf(db, id, c, a, cancelled); m.c.releaser == ClearWritten(false)
    ensures var m := MoveOf(db, id, c, a, cancelled);
            m.c.epoch == c.epoch || c.releaser == ClearWritten(false)
    ensures c.releaser != ClearWritten(false) ==>
              var m := MoveOf(db, id, c, a, cancelled);
              m.db == db && m.c.lease.Some? && !Carries(db.row, id, c.epoch)
  {
    hide Land;
  }

  lemma NothingToClearStep(s: State, a: Action, id: Id)
    requires Inv(s) && NothingToClear(s, id)
    ensures NothingToClear(Next(s, a), id)
  {
    EveryStep(s, a);
    if id in s.clients {
      assert ClientOk(s.db, id, s.clients[id]);
      hide Next, Inv, Land, MoveOf;
      if s.clients[id].lease.Some? {
        LeaseIsStable(s, a, id);
        if !Carries(s.db.row, id, s.clients[id].epoch) && s.db.lock.Staged? {
          DbIsOk(s);
          RowDoesNotReturn(s.db, id, s.clients[id]);
        }
      }
      if Global(a) || a.id != id {
        ForeignStep(s, a, id);
      } else {
        OwnStep(s, a);
        if Next(s, a).clients[id].releaser == ClearWritten(false) {
          BecomesUnmatched(s.db, id, s.clients[id], a, s.clients[id].store in s.cancelled);
        }
      }
    } else {
      NewClientIsIdle(s, a, id);
    }
  }

  lemma DbIsOk(s: State)
    requires Inv(s)
    ensures DbOk(s.db)
  {
  }

  lemma NewClientIsIdle(s: State, a: Action, id: Id)
    requires id !in s.clients
    ensures id in Next(s, a).clients ==> Next(s, a).clients[id].releaser == Idle
  {
    hide MoveOf, Land;
  }

  lemma {:induction false} NothingToClearEver(start: Time, actions: seq<Action>, n: nat, id: Id)
    requires n <= |actions|
    ensures NothingToClear(At(start, actions, n), id)
  {
    if n > 0 {
      hide Next, Inv, NothingToClear;
      NothingToClearEver(start, actions, n - 1, id);
      Reachable(start, actions, n - 1);
      NothingToClearStep(At(start, actions, n - 1), actions[n - 1], id);
    }
  }

  predicate IsComplete(s: State, id: Id) {
    id in s.clients && s.clients[id].lease.Some? && s.clients[id].lease.value.releaseComplete
  }

  lemma OnlyReleaseCompletes(db: Db, id: Id, c: Client, a: Action, cancelled: bool)
    requires c.lease.Some? && !c.lease.value.releaseComplete && !a.ReleaseAcknowledged? && !a.ReleaseRead?
    ensures var m := MoveOf(db, id, c, a, cancelled); m.c.lease.Some? ==> !m.c.lease.value.releaseComplete
  {
    hide Land;
  }

  lemma CompletingMove(db: Db, id: Id, c: Client, a: Action, cancelled: bool)
    requires DbOk(db) && ClientOk(db, id, c) && c.lease.Some? && !c.lease.value.releaseComplete
    requires c.releaser == ClearWritten(false) ==> !Carries(db.row, id, c.epoch)
    requires var m := MoveOf(db, id, c, a, cancelled); m.c.lease.Some? && m.c.lease.value.releaseComplete
    ensures var m := MoveOf(db, id, c, a, cancelled);
            && m.c.epoch == c.epoch && m.db.now == db.now
            && !(Carries(m.db.row, id, c.epoch) && IsHeld(m.db.row, db.now))
  {
    hide PhaseOk, TimesOk, HistoryOk, GrantsOk;
    if !a.ReleaseAcknowledged? && !a.ReleaseRead? {
      hide Land, DbOk, ClientOk;
      OnlyReleaseCompletes(db, id, c, a, cancelled);
    }
  }

  /**
   The action that completes a release leaves a row that its lease does not hold: it was cleared, or
   it had passed on, or a reread saw that its time had come.
   */
  lemma CompletedReleaseHoldsNothing(start: Time, actions: seq<Action>, k: nat, id: Id)
    requires k < |actions| && !IsComplete(At(start, actions, k), id) && IsComplete(At(start, actions, k + 1), id)
    ensures var s := At(start, actions, k + 1);
            !(Carries(s.db.row, id, s.clients[id].epoch) && IsHeld(s.db.row, s.db.now))
  {
    var s, a := At(start, actions, k), actions[k];
    assert At(start, actions, k + 1) == Next(s, a);
    Reachable(start, actions, k);
    NothingToClearEver(start, actions, k, id);
    hide At, Next, Inv, Land, MoveOf;
    if id !in s.clients {
      NewClientHasNoLease(s, a, id);
    } else if Global(a) || a.id != id {
      ForeignStep(s, a, id);
    } else {
      OwnStep(s, a);
      ClientIsOk(s, id);
      if s.clients[id].lease.Some? {
        CompletingMove(s.db, id, s.clients[id], a, s.clients[id].store in s.cancelled);
      } else {
        OpeningIsIncomplete(s.db, id, s.clients[id], a, s.clients[id].store in s.cancelled);
      }
    }
  }

  lemma ClientIsOk(s: State, id: Id)
    requires Inv(s) && id in s.clients
    ensures DbOk(s.db) && ClientOk(s.db, id, s.clients[id])
  {
  }

  lemma NewClientHasNoLease(s: State, a: Action, id: Id)
    requires id !in s.clients
    ensures id in Next(s, a).clients ==> Next(s, a).clients[id].lease.None?
  {
    hide MoveOf, Land;
  }

  lemma OpeningIsIncomplete(db: Db, id: Id, c: Client, a: Action, cancelled: bool)
    requires c.lease.None?
    ensures var m := MoveOf(db, id, c, a, cancelled); m.c.lease.Some? ==> !m.c.lease.value.releaseComplete
  {
    hide Land;
  }

  // ---------------------------------------------------------------- refusals

  predicate IsRefused(s: State, id: Id) { id in s.clients && s.clients[id].phase.Refused? }

  /** What the row held when a call was refused so. */
  predicate RefusalCause(row: Option<Row>, now: Time, why: Refusal) {
    match why
    case HeldBy(epoch) => IsHeld(row, now) && row.Some? && row.value.epoch == epoch
    case EpochExhausted => !IsHeld(row, now) && row.Some? && row.value.epoch == MAX_INT64
    case Failed => true
  }

  lemma RefusingMove(db: Db, id: Id, c: Client, a: Action, cancelled: bool)
    requires !c.phase.Refused? && MoveOf(db, id, c, a, cancelled).c.phase.Refused?
    ensures RefusalCause(db.row, db.now, MoveOf(db, id, c, a, cancelled).c.phase.why)
  {
    hide Land;
    assert MAX_INT64 > 0;
  }

  /** Every refusal of Acquire has its cause at the instant at which it is given. */
  lemma {:induction false} RefusalHasCause(start: Time, actions: seq<Action>, n: nat, id: Id) returns (k: nat)
    requires n <= |actions| && IsRefused(At(start, actions, n), id)
    ensures k < n
    ensures var db := At(start, actions, k).db;
            RefusalCause(db.row, db.now, At(start, actions, n).clients[id].phase.why)
  {
    assert n > 0 by { assert id !in Init(start).clients; }
    var s, a := At(start, actions, n - 1), actions[n - 1];
    assert At(start, actions, n) == Next(s, a);
    hide Next, RefusalCause, MoveOf;
    k := n - 1;
    if id !in s.clients {
      NewClientIsBegun(s, a, id);
    } else if Global(a) || a.id != id {
      ForeignStep(s, a, id);
      k := RefusalHasCause(start, actions, n - 1, id);
    } else {
      OwnStep(s, a);
      if s.clients[id].phase.Refused? {
        RefusedIsFinal(s.db, id, s.clients[id], a, s.clients[id].store in s.cancelled);
        k := RefusalHasCause(start, actions, n - 1, id);
      } else {
        RefusingMove(s.db, id, s.clients[id], a, s.clients[id].store in s.cancelled);
      }
    }
  }

  lemma NewClientIsBegun(s: State, a: Action, id: Id)
    requires id !in s.clients
    ensures id in Next(s, a).clients ==> Next(s, a).clients[id].phase == Begun
  {
    hide MoveOf, Land;
  }

  lemma RefusedIsFinal(db: Db, id: Id, c: Client, a: Action, cancelled: bool)
    requires c.phase.Refused?
    ensures MoveOf(db, id, c, a, cancelled).c.phase == c.phase
  {
    hide Land;
  }
}
