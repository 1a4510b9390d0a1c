/** What a caller sees of a lease: only whether its Lost is closed, not its safe time. */
module LeaseLost {
  import opened Common
  import opened LeaseProtocol
  import opened LeaseSafety
  import opened LeaseTheorems

  /** The caller still believes in the lease. */
  predicate Open(s: State, id: Id) { id in s.clients && s.clients[id].lease.Some? && !s.clients[id].lease.value.lost }

  // ---------------------------------------------------------------- past the safe time the loop winds down

  /** The most steps of its own that the loop has before it once the safe time has come. */
  function StepsLeft(phase: Phase): nat {
    match phase
    case Waiting(_, _) => 5
    case RenewReady => 4
    case RenewTimed(_) => 3
    case Written(_) => 3
    case Unproven => 2
    case Proved(_) => 2
    case Reading(_) => 1
    case Measured(_, _, _) => 1
    case Top => 1
    case _ => 0
  }

  /**
   From the safe time on no step of the loop changes the row or finds it out any more: every step
   that does anything closes Lost, or adopts a proof that was answered in time, or is one of at most
   five that lead there; and only the adoption moves the safe time.
   */
  lemma LoopWindsDown(db: Db, id: Id, c: Client, a: Action, cancelled: bool)
    requires PastDeadline(db, c) && !OfReleaser(a)
    requires c.phase != Begun && c.phase != Checked && !c.phase.AcquireTimed? && !c.phase.Refused?
    ensures var m := MoveOf(db, id, c, a, cancelled);
            && m.db.row == db.row && m.c.lease.Some?
            && (m == Move(db, c) || m.c.lease.value.lost || (a.Adopt? && c.phase.Measured?)
                || StepsLeft(m.c.phase) < StepsLeft(c.phase))
            && (!a.Adopt? ==> m.c.lease.value.safeUntil == c.lease.value.safeUntil)
            && (!c.phase.Proved? ==> !m.c.phase.Proved?)
  {
    hide Land;
  }

  // ---------------------------------------------------------------- overlap as callers see it

  /**
   Those few steps, and the close of Lost that Release or Close owes, take less than d: an open Lost
   is at most d past its safe time, or past the opening of a lease that came without any.
   */
  predicate Prompt(s: State, id: Id, d: nat) {
    Open(s, id) ==>
      var c := s.clients[id];
      s.db.now + c.skew < c.lease.value.safeUntil + d || s.db.now < c.lease.value.openedAt + d
  }

  /** The proof of an open lease ran out before a later epoch was opened. */
  lemma ProofIsOutlived(s: State, a: Id, b: Id)
    requires Inv(s) && Open(s, a) && b in s.clients && s.clients[b].lease.Some?
    requires s.clients[a].epoch < s.clients[b].epoch
    ensures s.clients[a].lease.value.proof.expiry <= s.clients[b].lease.value.openedAt
  {
    hide PhaseOk, LifecycleOk, LockOk, RowOk;
    assert ClientOk(s.db, a, s.clients[a]) && ClientOk(s.db, b, s.clients[b]);
    var ea, eb := s.clients[a].epoch, s.clients[b].epoch;
    assert ea < eb - 1 ==> s.db.grants[ea].checkedAt <= s.db.grants[eb - 1].checkedAt;
  }

  /**
   The overlap that callers can see: two leases whose Lost are both open at two instants of a run are
   such for less than d, or less than d more than the excess of the earlier one.
   */
  lemma OpenOverlapIsBounded(start: Time, actions: seq<Action>, n: nat, m: nat, a: Id, b: Id, d: nat)
    requires n <= m <= |actions| && a != b
    requires Open(At(start, actions, n), a) && Open(At(start, actions, n), b)
    requires Open(At(start, actions, m), a) && Open(At(start, actions, m), b)
    requires At(start, actions, n).clients[a].epoch < At(start, actions, n).clients[b].epoch
    requires Prompt(At(start, actions, m), a, d)
    ensures var overlap := At(start, actions, m).db.now - At(start, actions, n).db.now;
            overlap < d || overlap < Excess(At(start, actions, m), a) + d
  {
    hide At;
    Reachable(start, actions, n);
    Reachable(start, actions, m);
    LeaseIsStableOverRuns(start, actions, n, m, a);
    LeaseIsStableOverRuns(start, actions, n, m, b);
    var s, t := At(start, actions, n), At(start, actions, m);
    ProofIsOutlived(t, a, b);
    SafeTimeIsExact(t, a);
    assert ClientOk(s.db, a, s.clients[a]) && ClientOk(s.db, b, s.clients[b]);
    assert s.clients[a].lease.value.openedAt <= s.db.now && s.clients[b].lease.value.openedAt <= s.db.now;
    hide Inv, ClientOk, Excess, Lead;
  }

  /** Two open leases never have the same epoch. */
  lemma OpenEpochsDiffer(start: Time, actions: seq<Action>, n: nat, a: Id, b: Id)
    requires n <= |actions| && a != b && Open(At(start, actions, n), a) && Open(At(start, actions, n), b)
    ensures At(start, actions, n).clients[a].epoch != At(start, actions, n).clients[b].epoch
  {
    hide At;
    LeaseIsItsOwnGrant(start, actions, n, a);
    LeaseIsItsOwnGrant(start, actions, n, b);
  }

  /**
   So, whichever came first: with every Lost closed in time and no excess, two leases have both Lost
   open for less than d.
   */
  lemma OpenOverlapIsBrief(start: Time, actions: seq<Action>, n: nat, m: nat, a: Id, b: Id, d: nat)
    requires n <= m <= |actions| && a != b
    requires Open(At(start, actions, n), a) && Open(At(start, actions, n), b)
    requires Open(At(start, actions, m), a) && Open(At(start, actions, m), b)
    requires Prompt(At(start, actions, m), a, d) && Prompt(At(start, actions, m), b, d)
    requires Excess(At(start, actions, m), a) <= 0 && Excess(At(start, actions, m), b) <= 0
    ensures At(start, actions, m).db.now - At(start, actions, n).db.now < d
  {
    hide At, Excess, Prompt;
    OpenEpochsDiffer(start, actions, n, a, b);
    if At(start, actions, n).clients[a].epoch < At(start, actions, n).clients[b].epoch {
      OpenOverlapIsBounded(start, actions, n, m, a, b, d);
    } else {
      OpenOverlapIsBounded(start, actions, n, m, b, a, d);
    }
  }
}
