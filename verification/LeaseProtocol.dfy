/**
 The renewable epoch lease of one name, as a state machine over global time.

 One row is shared by any number of clients.  A client is one Acquire call, the Lease
 object it may return, that lease's renewal loop, its Release callers and the share
 that Store.Close has in it.  Every action is one statement, one commit outcome or one
 local step of one of those threads; `Next` is total and an action that is not enabled
 changes nothing, so a theorem about every sequence of actions is a theorem about every
 interleaving.

 Time is an integer.  The database clock reads `now` and the clock of a client reads
 `now + skew`: all clocks advance at the same rate, and nothing is assumed about skew.
 A commit whose acknowledgement is lost leaves its transaction in flight: it keeps the
 row lock until it lands or is dropped, possibly long after the client stopped waiting.
 The token of a call is its own id, that is, tokens drawn by different calls differ.
 */
module LeaseProtocol {
  import opened Common

  type Id = nat
  type StoreId = nat
  type Time = int

  /** The stored row; it comes into being with the first committed grant. */
  datatype Row = Row(epoch: nat, holder: Option<Id>, expiry: Option<Time>, revision: nat)

  datatype Kind = Grant | Renewal | Clear

  /** Who owns the row lock, and what its transaction has written so far. */
  datatype Lock =
    | Free
    | Held(owner: Id, checkedAt: Time)
    | Staged(owner: Id, kind: Kind, next: Row, checkedAt: Time, ttl: nat, abandoned: bool)

  /** History of one committed grant; `grants[e - 1]` is the grant of epoch e. */
  datatype GrantRecord = GrantRecord(holder: Id, checkedAt: Time, ttl: nat, cleared: bool)

  datatype Db = Db(now: Time, row: Option<Row>, lock: Lock, grants: seq<GrantRecord>, commits: seq<Kind>)

  /** What one database answer proves: the local start, the expiry read, the database stamp. */
  datatype Proof = Proof(started: Time, expiry: Time, stamp: Time)

  datatype Refusal = HeldBy(epoch: nat) | EpochExhausted | Failed

  /** The thread that runs Acquire and then the renewal loop. */
  datatype Phase =
    | Begun
    | Checked
    | AcquireTimed(started: Time)
    | Written(proof: Proof)
    | Unproven
    | Reading(started: Time)
    | Proved(proof: Proof)
    | Measured(proof: Proof, remaining: int, measuredAt: Time)
    | Refused(why: Refusal)
    | Top
    | Waiting(until: Time, since: Time)
    | RenewReady
    | RenewTimed(started: Time)
    | Exited

  /** The thread that runs Release; releaseMu admits one at a time. */
  datatype Releaser = Idle | Stopping | Marking | Unregistering | Clearing | ClearWritten(matched: bool) | ClearUnproven

  /** The share of Store.Close in one lease it has collected. */
  datatype Closer = NotClosing | CloseStopping | CloseMarking

  /**
   `closes`, `proof`, `gap`, `openedAt`, `adoptedAt` and `misses` are bookkeeping of the model;
   `misses` counts the rounds since the last one that ended with a renewed row.
   */
  datatype Lease = Lease(
    safeUntil: Time, released: bool, releaseComplete: bool, lost: bool, done: bool,
    closes: nat, proof: Proof, gap: int, openedAt: Time, adoptedAt: Time, misses: nat)

  /** `roundStarted` is bookkeeping: when the transaction now being proved was timed, or failed to begin. */
  datatype Client = Client(
    store: StoreId, skew: int, ttl: nat, renewInterval: nat, epoch: nat, phase: Phase,
    lease: Option<Lease>, releaser: Releaser, closer: Closer, registered: bool, roundStarted: Time)

  datatype State = State(db: Db, clients: map<Id, Client>, cancelled: set<StoreId>)

  datatype Action =
    | Tick(delay: nat)
    | Acquire(id: Id, store: StoreId, skew: int, leaseTtl: nat, renewInterval: nat)
    | SelectForUpdate(id: Id)
    | StartProof(id: Id)
    | WriteRow(id: Id)
    | CommitAcknowledged(id: Id)
    | CommitLost(id: Id)
    | Abort(id: Id)
    | Settle(lands: bool)
    | ReadRow(id: Id)
    | ReadFailed(id: Id)
    | Measure(id: Id)
    | Adopt(id: Id)
    | LoopTop(id: Id)
    | WakeDone(id: Id)
    | WakeCancelled(id: Id)
    | WakeExpiry(id: Id)
    | WakeRenew(id: Id)
    | ReleaseStart(id: Id)
    | ReleaseLocal(id: Id)
    | ReleaseWrite(id: Id)
    | ReleaseAcknowledged(id: Id)
    | ReleaseLost(id: Id)
    | ReleaseAborted(id: Id)
    | ReleaseCancelled(id: Id)
    | ReleaseRead(id: Id)
    | ReleaseReadFailed(id: Id)
    | CancelStore(store: StoreId)
    | CollectLeases(store: StoreId)
    | CloseLocal(id: Id)

  /** The actions that are not a step of one client. */
  predicate Global(a: Action) { a.Tick? || a.Acquire? || a.Settle? || a.CancelStore? || a.CollectLeases? }

  /**
   A renewal and its reread run under a context that ends at the safe time: from then on no
   statement and no commit of theirs is answered any more.  Acquire has no such deadline.
   */
  predicate PastDeadline(db: Db, c: Client) { c.lease.Some? && db.now + c.skew >= c.lease.value.safeUntil }

  // ---------------------------------------------------------------- row predicates

  /** `expires_at > clock`: the row has an unexpired holder. */
  predicate Live(row: Option<Row>, at: Time) {
    row.Some? && row.value.holder.Some? && row.value.expiry.Some? && row.value.expiry.value > at
  }

  /** The fence `epoch = $2 AND holder = $3`. */
  predicate Matches(row: Option<Row>, id: Id, epoch: nat) {
    row.Some? && row.value.epoch == epoch && row.value.holder == Some(id)
  }

  /** The proof of ownership that renewals and rereads demand. */
  predicate Owns(row: Option<Row>, id: Id, epoch: nat, at: Time) {
    Matches(row, id, epoch) && Live(row, at)
  }

  function EpochOf(row: Option<Row>): nat { if row.Some? then row.value.epoch else 0 }

  function RevisionOf(row: Option<Row>): nat { if row.Some? then row.value.revision else 0 }

  /** Duration.Milliseconds() truncates; durations are nanoseconds. */
  function WholeMillis(duration: nat): nat { duration / 1_000_000 * 1_000_000 }

  /** conservativeRemaining with its one reading of the local clock. */
  function ConservativeRemaining(proof: Proof, localNow: Time): int {
    (proof.expiry - proof.stamp) - (localNow - proof.started)
  }

  /** lostOnce: the channel is closed by the first caller only. */
  function MarkLost(l: Lease): Lease {
    if l.lost then l else l.(lost := true, closes := l.closes + 1)
  }

  function Land(db: Db): Db
    requires db.lock.Staged?
  {
    var k := db.lock.kind;
    db.(row := Some(db.lock.next), lock := Free, commits := db.commits + [k],
    grants :=
      if k == Grant then db.grants + [GrantRecord(db.lock.owner, db.lock.checkedAt, db.lock.ttl, false)]
      else if k == Clear && db.grants != [] then
        var last := |db.grants| - 1;
        db.grants[last := db.grants[last].(cleared := true)]
      else db.grants)
  }

  // ---------------------------------------------------------------- steps of one client

  /** What a step of one client does to the shared row and to that client. */
  datatype Move = Move(db: Db, c: Client)

  /** Acquire's locking read: refuse a live holder, otherwise keep the lock. */
  function StepSelect(db: Db, id: Id, c: Client): Move {
    if c.phase != Begun || db.lock != Free then Move(db, c)
    else if Live(db.row, db.now) then Move(db, c.(phase := Refused(HeldBy(EpochOf(db.row)))))
    else if EpochOf(db.row) == MAX_INT64 then Move(db, c.(phase := Refused(EpochExhausted)))
    else Move(db.(lock := Held(id, db.now)), c.(phase := Checked, epoch := EpochOf(db.row) + 1))
  }

  function StepStartProof(db: Db, id: Id, c: Client): Move {
    var local := db.now + c.skew;
    match c.phase
    case Checked => Move(db, c.(phase := AcquireTimed(local), roundStarted := db.now))
    case RenewReady => Move(db, c.(phase := RenewTimed(local), roundStarted := db.now))
    case Unproven => Move(db, c.(phase := Reading(local)))
    case _ => Move(db, c)
  }

  /** The UPDATE of Acquire (which owns the lock) or of a renewal (which must get it). */
  function StepWrite(db: Db, id: Id, c: Client): Move {
    var e := db.now + c.ttl;
    match c.phase
    case AcquireTimed(p) =>
      if db.lock.Held? && db.lock.owner == id then
        var next := Row(c.epoch, Some(id), Some(e), RevisionOf(db.row) + 1);
        Move(db.(lock := Staged(id, Grant, next, db.lock.checkedAt, c.ttl, false)),
            c.(phase := Written(Proof(p, e, db.now))))
      else Move(db, c)
    case RenewTimed(p) =>
      if db.lock != Free || PastDeadline(db, c) then Move(db, c)
      else if !Owns(db.row, id, c.epoch, db.now) then Move(db, c.(phase := Unproven))
      else
        var next := db.row.value.(expiry := Some(e), revision := db.row.value.revision + 1);
        Move(db.(lock := Staged(id, Renewal, next, db.now, c.ttl, false)),
            c.(phase := Written(Proof(p, e, db.now))))
    case _ => Move(db, c)
  }

  function StepCommitAcknowledged(db: Db, id: Id, c: Client): Move {
    if c.phase.Written? && db.lock.Staged? && !PastDeadline(db, c) then
      Move(Land(db), c.(phase := Proved(c.phase.proof)))
    else Move(db, c)
  }

  function StepCommitLost(db: Db, id: Id, c: Client): Move {
    if c.phase.Written? && db.lock.Staged? then
      Move(db.(lock := db.lock.(abandoned := true)), c.(phase := Unproven))
    else Move(db, c)
  }

  /** A definite failure.  Before its commit Acquire just fails; every other case rereads. */
  function StepAbort(db: Db, id: Id, c: Client): Move {
    match c.phase
    case Begun => Move(db, c.(phase := Refused(Failed)))
    case Checked => Move(db.(lock := Free), c.(phase := Refused(Failed)))
    case AcquireTimed(_) => Move(db.(lock := Free), c.(phase := Refused(Failed)))
    case Written(_) => Move(db.(lock := Free), c.(phase := Unproven))
    case RenewReady => Move(db, c.(phase := Unproven, roundStarted := db.now))
    case RenewTimed(_) => Move(db, c.(phase := Unproven))
    case _ => Move(db, c)
  }

  /** resolveAcquire while no Lease exists yet, observe afterwards. */
  function StepRead(db: Db, id: Id, c: Client): Move {
    if !c.phase.Reading? || PastDeadline(db, c) then Move(db, c)
    else if Owns(db.row, id, c.epoch, db.now) then
      Move(db, c.(phase := Proved(Proof(c.phase.started, db.row.value.expiry.value, db.now))))
    else if c.lease.None? then
      Move(db, c.(phase := Refused(if Live(db.row, db.now) then HeldBy(EpochOf(db.row)) else Failed)))
    else Move(db, EndLoop(c))
  }

  function StepReadFailed(db: Db, id: Id, c: Client): Move {
    if !c.phase.Reading? then Move(db, c)
    else if c.lease.None? then Move(db, c.(phase := Refused(Failed)))
    else Move(db, EndLoop(c))
  }

  /** markLost, return, and the deferred unregister. */
  function EndLoop(c: Client): Client {
    c.(phase := Exited, registered := false,
    lease := if c.lease.Some? then Some(MarkLost(c.lease.value)) else None)
  }

  function StepMeasure(db: Db, id: Id, c: Client): Move {
    if !c.phase.Proved? then Move(db, c)
    else
      Move(db, c.(phase := Measured(c.phase.proof, ConservativeRemaining(c.phase.proof, db.now + c.skew), db.now)))
  }

  /** The misses of a lease after a round that ended with this proof. */
  function MissesAfter(c: Client, l: Lease, proof: Proof): nat {
    if proof.expiry >= c.roundStarted + c.ttl then 0 else l.misses + 1
  }

  /** The second reading of the local clock: newLease, or the end of a loop round. */
  function StepAdopt(db: Db, id: Id, c: Client): Move {
    if !c.phase.Measured? then Move(db, c)
    else
      var until := db.now + c.skew + c.phase.remaining;
      var gap := db.now - c.phase.measuredAt;
      if c.lease.None? then
        Move(db, c.(phase := Top, registered := true,
        lease := Some(Lease(until, false, false, false, false, 0, c.phase.proof, gap, db.now, db.now, 0))))
      else
        var l := c.lease.value.(misses := MissesAfter(c, c.lease.value, c.phase.proof));
        if c.phase.remaining <= 0 then Move(db, EndLoop(c.(lease := Some(l))))
        else
          Move(db, c.(phase := Top,
          lease := Some(l.(safeUntil := until, proof := c.phase.proof, gap := gap, adoptedAt := db.now))))
  }

  function StepLoopTop(db: Db, id: Id, c: Client): Move {
    if c.phase != Top || c.lease.None? then Move(db, c)
    else if c.lease.value.released then Move(db, c.(phase := Exited, registered := false))
    else if db.now + c.skew >= c.lease.value.safeUntil then Move(db, EndLoop(c))
    else Move(db, c.(phase := Waiting(c.lease.value.safeUntil, db.now)))
  }

  function StepWake(db: Db, id: Id, c: Client, a: Action, cancelled: bool): Move {
    if !c.phase.Waiting? || c.lease.None? then Move(db, c)
    else if a.WakeDone? && c.lease.value.done then Move(db, c.(phase := Exited, registered := false))
    else if a.WakeCancelled? && cancelled then Move(db, EndLoop(c))
    else if a.WakeExpiry? && db.now + c.skew >= c.phase.until then Move(db, EndLoop(c))
    else if a.WakeRenew? && db.now >= c.phase.since + c.renewInterval then Move(db, c.(phase := RenewReady))
    else Move(db, c)
  }

  function StepReleaseStart(db: Db, id: Id, c: Client): Move {
    if c.lease.None? || c.releaser != Idle || c.lease.value.releaseComplete then Move(db, c)
    else
      Move(db, c.(releaser := if c.lease.value.released then Clearing else Stopping,
      lease := Some(c.lease.value.(released := true))))
  }

  function StepReleaseLocal(db: Db, id: Id, c: Client): Move {
    if c.lease.None? then Move(db, c)
    else
      match c.releaser
      case Stopping => Move(db, c.(releaser := Marking, lease := Some(c.lease.value.(done := true))))
      case Marking => Move(db, c.(releaser := Unregistering, lease := Some(MarkLost(c.lease.value))))
      case Unregistering => Move(db, c.(releaser := Clearing, registered := false))
      case _ => Move(db, c)
  }

  function StepReleaseWrite(db: Db, id: Id, c: Client): Move {
    if c.releaser != Clearing || db.lock != Free then Move(db, c)
    else if !Matches(db.row, id, c.epoch) then Move(db, c.(releaser := ClearWritten(false)))
    else
      var next := db.row.value.(holder := None, expiry := None, revision := db.row.value.revision + 1);
      Move(db.(lock := Staged(id, Clear, next, db.now, c.ttl, false)), c.(releaser := ClearWritten(true)))
  }

  function Complete(c: Client): Client
    requires c.lease.Some?
  {
    c.(releaser := Idle, lease := Some(c.lease.value.(releaseComplete := true)))
  }

  function StepReleaseOutcome(db: Db, id: Id, c: Client, a: Action): Move {
    if c.lease.None? then Move(db, c)
    else if c.releaser == Clearing && a.ReleaseAborted? then Move(db, c.(releaser := ClearUnproven))
    else if !c.releaser.ClearWritten? then Move(db, c)
    else if c.releaser.matched && !db.lock.Staged? then Move(db, c)
    else if a.ReleaseAcknowledged? then Move(if c.releaser.matched then Land(db) else db, Complete(c))
    else if a.ReleaseLost? then
      Move(if c.releaser.matched then db.(lock := db.lock.(abandoned := true)) else db, c.(releaser := ClearUnproven))
    else Move(if c.releaser.matched then db.(lock := Free) else db, c.(releaser := ClearUnproven))
  }

  /** After an error: the caller's own context ended, or resolveRelease answers. */
  function StepReleaseResolve(db: Db, id: Id, c: Client, a: Action): Move {
    if c.lease.None? then Move(db, c)
    else if a.ReleaseCancelled? && (c.releaser == ClearUnproven || c.releaser == Clearing) then
      Move(db, c.(releaser := Idle))
    else if c.releaser != ClearUnproven then Move(db, c)
    else if a.ReleaseRead? && !Owns(db.row, id, c.epoch, db.now) then Move(db, Complete(c))
    else Move(db, c.(releaser := Idle))
  }

  function StepCloseLocal(db: Db, id: Id, c: Client): Move {
    if c.lease.None? then Move(db, c)
    else
      match c.closer
      case CloseStopping => Move(db, c.(closer := CloseMarking, lease := Some(c.lease.value.(done := true))))
      case CloseMarking => Move(db, c.(closer := NotClosing, lease := Some(MarkLost(c.lease.value))))
      case NotClosing => Move(db, c)
  }

  function MoveOf(db: Db, id: Id, c: Client, a: Action, cancelled: bool): Move {
    match a
    case SelectForUpdate(_) => StepSelect(db, id, c)
    case StartProof(_) => StepStartProof(db, id, c)
    case WriteRow(_) => StepWrite(db, id, c)
    case CommitAcknowledged(_) => StepCommitAcknowledged(db, id, c)
    case CommitLost(_) => StepCommitLost(db, id, c)
    case Abort(_) => StepAbort(db, id, c)
    case ReadRow(_) => StepRead(db, id, c)
    case ReadFailed(_) => StepReadFailed(db, id, c)
    case Measure(_) => StepMeasure(db, id, c)
    case Adopt(_) => StepAdopt(db, id, c)
    case LoopTop(_) => StepLoopTop(db, id, c)
    case WakeDone(_) => StepWake(db, id, c, a, cancelled)
    case WakeCancelled(_) => StepWake(db, id, c, a, cancelled)
    case WakeExpiry(_) => StepWake(db, id, c, a, cancelled)
    case WakeRenew(_) => StepWake(db, id, c, a, cancelled)
    case ReleaseStart(_) => StepReleaseStart(db, id, c)
    case ReleaseLocal(_) => StepReleaseLocal(db, id, c)
    case ReleaseWrite(_) => StepReleaseWrite(db, id, c)
    case ReleaseAcknowledged(_) => StepReleaseOutcome(db, id, c, a)
    case ReleaseLost(_) => StepReleaseOutcome(db, id, c, a)
    case ReleaseAborted(_) => StepReleaseOutcome(db, id, c, a)
    case ReleaseCancelled(_) => StepReleaseResolve(db, id, c, a)
    case ReleaseRead(_) => StepReleaseResolve(db, id, c, a)
    case ReleaseReadFailed(_) => StepReleaseResolve(db, id, c, a)
    case CloseLocal(_) => StepCloseLocal(db, id, c)
    case _ => Move(db, c)
  }

  // ---------------------------------------------------------------- the machine

  function Put(s: State, db: Db, id: Id, c: Client): State {
    s.(db := db, clients := s.clients[id := c])
  }

  function StepSettle(s: State, lands: bool): State {
    if s.db.lock.Staged? && s.db.lock.abandoned then
      s.(db := if lands then Land(s.db) else s.db.(lock := Free))
    else s
  }

  /** Close copies the registered leases of its store and then visits each. */
  function StepCollect(s: State, store: StoreId): State {
    if store !in s.cancelled then s
    else
      s.(clients := map id | id in s.clients ::
                      var c := s.clients[id];
                      if c.store == store && c.registered && c.lease.Some? then c.(closer := CloseStopping) else c)
  }

  function NewClient(store: StoreId, skew: int, leaseTtl: nat, renewInterval: nat, now: Time): Client {
    Client(store, skew, WholeMillis(leaseTtl), renewInterval, 0, Begun, None, Idle, NotClosing, false, now)
  }

  function Next(s: State, a: Action): State {
    match a
    case Tick(d) => s.(db := s.db.(now := s.db.now + d))
    case Acquire(id, store, skew, leaseTtl, interval) =>
      if id in s.clients then s else Put(s, s.db, id, NewClient(store, skew, leaseTtl, interval, s.db.now))
    case Settle(lands) => StepSettle(s, lands)
    case CancelStore(store) => s.(cancelled := s.cancelled + {store})
    case CollectLeases(store) => StepCollect(s, store)
    case _ =>
      if a.id !in s.clients then s
      else
        var m := MoveOf(s.db, a.id, s.clients[a.id], a, s.clients[a.id].store in s.cancelled);
        Put(s, m.db, a.id, m.c)
  }

  function Init(now: Time): State { State(Db(now, None, Free, [], []), map[], {}) }

  /** The state after the first `n` actions. */
  function At(start: Time, actions: seq<Action>, n: nat): State
    requires n <= |actions|
    decreases n
  {
    if n == 0 then Init(start) else Next(At(start, actions, n - 1), actions[n - 1])
  }
}
