/**
 Any number of processes, of the same or of different builds, that migrate one schema at once
 under mode Apply.  The advisory lock belongs to a transaction: it is taken before the version is read and
 held until the transaction ends, also when nobody waits for its answer any more.
 */
module MigrationOwners {
  import opened Common
  import opened Migrations

  type OwnerId = nat

  /** `ran` are the scripts of the open transaction, `next` the file the loop looks at. */
  datatype Phase =
    | Waiting
    | Running(version: nat, next: nat, ran: seq<Script>)
    | Lost(ran: seq<Script>)
    | Ended(success: bool)

  datatype Owner = Owner(entries: seq<Script>, current: nat, phase: Phase)

  /** `committed` is bookkeeping: the scripts whose effect is in the schema, in order. */
  datatype State = State(versions: seq<nat>, committed: seq<Script>, lock: Option<OwnerId>, owners: map<OwnerId, Owner>)

  datatype Action =
    | Begin(id: OwnerId, entries: seq<Script>, current: nat)
    | TakeLock(id: OwnerId)
    | NextFile(id: OwnerId)
    | Fail(id: OwnerId)
    | Commit(id: OwnerId, answered: bool)
    | Settle(id: OwnerId, lands: bool)

  function SetPhase(s: State, id: OwnerId, phase: Phase): State
    requires id in s.owners
  {
    s.(owners := s.owners[id := s.owners[id].(phase := phase)])
  }

  /** The transaction of `id` is over without effect. */
  function Rollback(s: State, id: OwnerId): State
    requires id in s.owners
  {
    SetPhase(s.(lock := None), id, Ended(false))
  }

  function Land(s: State, id: OwnerId, ran: seq<Script>, success: bool): State
    requires id in s.owners
  {
    SetPhase(s.(lock := None, versions := s.versions + Numbers(ran), committed := s.committed + ran), id,
             Ended(success))
  }

  /** One pass of the loop body. */
  function StepFile(s: State, id: OwnerId, o: Owner): State
    requires id in s.owners
  {
    if !o.phase.Running? || o.phase.next >= |o.entries| then s
    else
      var Running(version, k, ran) := o.phase;
      var n := o.entries[k].number;
      if n <= version then SetPhase(s, id, Running(version, k + 1, ran))
      else if n != version + 1 then Rollback(s, id)
      else SetPhase(s, id, Running(n, k + 1, ran + [o.entries[k]]))
  }

  function StepCommit(s: State, id: OwnerId, o: Owner, answered: bool): State
    requires id in s.owners
  {
    if !o.phase.Running? || o.phase.next < |o.entries| then s
    else if o.phase.version != o.current then Rollback(s, id)
    else if answered then Land(s, id, o.phase.ran, true)
    else SetPhase(s, id, Lost(o.phase.ran))
  }

  function Step(s: State, id: OwnerId, o: Owner, a: Action): State
    requires id in s.owners
  {
    match a
    case Begin(_, _, _) => s
    case TakeLock(_) =>
      if o.phase != Waiting || s.lock.Some? then s
      else if MaxVersion(s.versions) > o.current then SetPhase(s, id, Ended(false))
      else SetPhase(s.(lock := Some(id)), id, Running(MaxVersion(s.versions), 0, []))
    case NextFile(_) => StepFile(s, id, o)
    case Fail(_) =>
      if o.phase == Waiting then SetPhase(s, id, Ended(false)) else if o.phase.Running? then Rollback(s, id) else s
    case Commit(_, answered) => StepCommit(s, id, o, answered)
    case Settle(_, lands) =>
      if !o.phase.Lost? then s else if lands then Land(s, id, o.phase.ran, false) else Rollback(s, id)
  }

  function Next(s: State, a: Action): State {
    if a.id in s.owners then Step(s, a.id, s.owners[a.id], a)
    else if a.Begin? then s.(owners := s.owners[a.id := Owner(a.entries, a.current, Waiting)])
    else s
  }

  function Init(versions: seq<nat>): State { State(versions, [], None, map[]) }

  function Run(s: State, actions: seq<Action>): State
    decreases |actions|
  {
    if actions == [] then s else Next(Run(s, actions[..|actions| - 1]), actions[|actions| - 1])
  }

  // ---------------------------------------------------------------- invariant

  /** The scripts carry the numbers after `version`, one each. */
  ghost predicate Successive(version: nat, scripts: seq<Script>) {
    forall i :: 0 <= i < |scripts| ==> scripts[i].number == version + 1 + i
  }

  predicate InTransaction(phase: Phase) { phase.Running? || phase.Lost? }

  ghost predicate OwnerOk(versions: seq<nat>, lock: Option<OwnerId>, id: OwnerId, o: Owner) {
    && (InTransaction(o.phase) <==> lock == Some(id))
    && (InTransaction(o.phase) ==> Successive(MaxVersion(versions), o.phase.ran))
    && (o.phase.Running? ==> Split(o.entries, MaxVersion(versions), o.phase.next, o.phase.version, o.phase.ran))
    && (o.phase.Running? ==> o.phase.version == MaxVersion(versions) + |o.phase.ran|)
    && (o.phase.Lost? ==>
          o.current == MaxVersion(versions) + |o.phase.ran|
          && Plan(o.entries, MaxVersion(versions)) == Some(o.phase.ran))
  }

  ghost predicate Inv(start: nat, s: State) {
    && Successive(start, s.committed)
    && MaxVersion(s.versions) == start + |s.committed|
    && (s.lock.Some? ==> s.lock.value in s.owners)
    && (forall id :: id in s.owners ==> OwnerOk(s.versions, s.lock, id, s.owners[id]))
  }

  lemma {:induction false} MaxOfNumbers(versions: seq<nat>, scripts: seq<Script>)
    requires Successive(MaxVersion(versions), scripts)
    ensures MaxVersion(versions + Numbers(scripts)) == MaxVersion(versions) + |scripts|
    decreases |scripts|
  {
    hide MaxVersion;
    if scripts == [] {
      NoNumbers(versions);
    } else {
      var n := |scripts| - 1;
      MaxOfNumbers(versions, scripts[..n]);
      LastNumber(versions, scripts);
      MaxOfExtension(versions + Numbers(scripts[..n]), scripts[n].number);
    }
  }

  lemma LastNumber(versions: seq<nat>, scripts: seq<Script>)
    requires scripts != []
    ensures var n := |scripts| - 1;
            versions + Numbers(scripts) == versions + Numbers(scripts[..n]) + [scripts[n].number]
  {
    var n := |scripts| - 1;
    assert Numbers(scripts) == Numbers(scripts[..n]) + [scripts[n].number];
  }

  /** Only the owner of the lock has an open transaction, so a commit disturbs no one. */
  lemma LandKeeps(start: nat, s: State, id: OwnerId, success: bool)
    requires Inv(start, s) && id in s.owners && InTransaction(s.owners[id].phase)
    ensures Inv(start, Land(s, id, s.owners[id].phase.ran, success))
  {
    hide MaxVersion, Numbers, Plan, Split;
    var s' := Land(s, id, s.owners[id].phase.ran, success);
    assert OwnerOk(s.versions, s.lock, id, s.owners[id]);
    MaxOfNumbers(s.versions, s.owners[id].phase.ran);
    forall other | other in s'.owners ensures OwnerOk(s'.versions, s'.lock, other, s'.owners[other]) {
      assert OwnerOk(s.versions, s.lock, other, s.owners[other]);
    }
  }

  /** What the step adds to the plan of its own transaction. */
  lemma PlanProceeds(s: State, id: OwnerId, o: Owner)
    requires id in s.owners && OwnerOk(s.versions, s.lock, id, o)
    ensures Split(o.entries, MaxVersion(s.versions), 0, MaxVersion(s.versions), [])
    ensures o.phase.Running? && o.phase.next < |o.entries| ==>
              var v, k, n := o.phase.version, o.phase.next, o.entries[o.phase.next].number;
              && (n <= v ==> Split(o.entries, MaxVersion(s.versions), k + 1, v, o.phase.ran))
              && (n == v + 1 ==> Split(o.entries, MaxVersion(s.versions), k + 1, n, o.phase.ran + [o.entries[k]]))
    ensures o.phase.Running? && o.phase.next >= |o.entries| ==>
              Plan(o.entries, MaxVersion(s.versions)) == Some(o.phase.ran)
  {
    var start := MaxVersion(s.versions);
    SplitStart(o.entries, start);
    if o.phase.Running? {
      assert o.phase.next <= |o.entries|;
      if o.phase.next < |o.entries| {
        SplitStep(o.entries, start, o.phase.next, o.phase.version, o.phase.ran);
      } else {
        SplitEnd(o.entries, start, o.phase.version, o.phase.ran);
      }
    }
  }

  lemma NextKeeps(start: nat, s: State, a: Action)
    requires Inv(start, s)
    ensures Inv(start, Next(s, a))
  {
    hide MaxVersion, Numbers, Plan, Split;
    var s' := Next(s, a);
    if a.id in s.owners {
      var o := s.owners[a.id];
      assert OwnerOk(s.versions, s.lock, a.id, o);
      PlanProceeds(s, a.id, o);
      if s'.versions != s.versions || s'.committed != s.committed {
        LandKeeps(start, s, a.id, s'.owners[a.id].phase.success);
      } else {
        forall other | other in s'.owners ensures OwnerOk(s'.versions, s'.lock, other, s'.owners[other]) {
          assert OwnerOk(s.versions, s.lock, other, s.owners[other]);
        }
      }
    }
  }

  lemma {:induction false} RunKeeps(versions: seq<nat>, actions: seq<Action>)
    ensures Inv(MaxVersion(versions), Run(Init(versions), actions))
    decreases |actions|
  {
    hide Next;
    if actions != [] {
      RunKeeps(versions, actions[..|actions| - 1]);
      NextKeeps(MaxVersion(versions), Run(Init(versions), actions[..|actions| - 1]), actions[|actions| - 1]);
    }
  }

  // ---------------------------------------------------------------- results

  /**
   Over any interleaving of owners the committed scripts carry the successive versions after
   the start: each version is committed at most once, in order, and the version table agrees.
   */
  lemma EachVersionCommitsOnce(versions: seq<nat>, actions: seq<Action>, i: nat, j: nat)
    requires i < j < |Run(Init(versions), actions).committed|
    ensures var s, v := Run(Init(versions), actions), MaxVersion(versions);
            && s.committed[i].number == v + 1 + i && s.committed[j].number == v + 1 + j
            && s.committed[i] != s.committed[j]
            && MaxVersion(s.versions) == v + |s.committed|
  {
    hide Run;
    RunKeeps(versions, actions);
  }

  /** At most one owner is inside its transaction. */
  lemma OwnersAreSerialized(versions: seq<nat>, actions: seq<Action>, id: OwnerId, other: OwnerId)
    requires var s := Run(Init(versions), actions);
             id in s.owners && other in s.owners && InTransaction(s.owners[id].phase)
             && InTransaction(s.owners[other].phase)
    ensures id == other
  {
    hide Run;
    RunKeeps(versions, actions);
    var s := Run(Init(versions), actions);
    assert OwnerOk(s.versions, s.lock, id, s.owners[id]) && OwnerOk(s.versions, s.lock, other, s.owners[other]);
  }

  /** Every change of the schema is the whole plan of the build that made it, and ends at that build's version. */
  lemma EveryChangeIsComplete(versions: seq<nat>, actions: seq<Action>, a: Action)
    requires Next(Run(Init(versions), actions), a).versions != Run(Init(versions), actions).versions
    ensures var s, s' := Run(Init(versions), actions), Next(Run(Init(versions), actions), a);
            && a.id in s.owners
            && MaxVersion(s'.versions) == s.owners[a.id].current
            && var plan := Plan(s.owners[a.id].entries, MaxVersion(s.versions));
               plan.Some? && plan.value != [] && s'.committed == s.committed + plan.value
  {
    hide Run, MaxVersion, Numbers, Plan, Split;
    RunKeeps(versions, actions);
    var s := Run(Init(versions), actions);
    var o := s.owners[a.id];
    assert OwnerOk(s.versions, s.lock, a.id, o);
    PlanProceeds(s, a.id, o);
    MaxOfNumbers(s.versions, o.phase.ran);
    if o.phase.ran == [] {
      NoNumbers(s.versions);
    }
  }

  lemma NoNumbers(versions: seq<nat>)
    ensures versions + Numbers([]) == versions
  {
  }

  // ---------------------------------------------------------------- when an owner succeeds

  /** The build can bring the schema to its own version, and no further. */
  ghost predicate Reaches(o: Owner, versions: seq<nat>) {
    MaxVersion(versions) <= o.current && Complete(o.entries, MaxVersion(versions), o.current)
  }

  /** The lock and the first k files. */
  function Files(id: OwnerId, k: nat): seq<Action> { [TakeLock(id)] + seq(k, i => NextFile(id)) }

  lemma OneMoreFile(s: State, id: OwnerId, k: nat)
    ensures Run(s, Files(id, k + 1)) == Next(Run(s, Files(id, k)), NextFile(id))
  {
    assert Files(id, k + 1)[..k + 1] == Files(id, k);
  }

  /** Where the loop stands after k files: its transaction is still open, or it has met a gap. */
  ghost predicate Stands(s: State, x: State, id: OwnerId, k: nat) {
    && id in s.owners && id in x.owners
    && var o, v, phase := s.owners[id], MaxVersion(s.versions), x.owners[id].phase;
    && x.owners == s.owners[id := o.(phase := phase)] && x.versions == s.versions && x.committed == s.committed
    && if phase.Running? then x.lock == Some(id) && phase.next == k && Split(o.entries, v, k, phase.version, phase.ran)
       else x.lock.None? && phase == Ended(false) && Plan(o.entries, v).None?
  }

  lemma StandsStep(s: State, x: State, id: OwnerId, k: nat)
    requires Stands(s, x, id, k) && k < |s.owners[id].entries|
    ensures Stands(s, Next(x, NextFile(id)), id, k + 1)
  {
    var o, v, phase := s.owners[id], MaxVersion(s.versions), x.owners[id].phase;
    if phase.Running? {
      SplitStep(o.entries, v, k, phase.version, phase.ran);
    }
    hide Plan, MaxVersion, Split;
  }

  lemma {:induction false} FilesRun(s: State, id: OwnerId, k: nat)
    requires id in s.owners && s.owners[id].phase == Waiting && s.lock.None?
    requires MaxVersion(s.versions) <= s.owners[id].current && k <= |s.owners[id].entries|
    ensures Stands(s, Run(s, Files(id, k)), id, k)
    decreases k
  {
    if k == 0 {
      assert Files(id, 0)[..0] == [];
      SplitStart(s.owners[id].entries, MaxVersion(s.versions));
    } else {
      hide Run, Stands, Next;
      FilesRun(s, id, k - 1);
      OneMoreFile(s, id, k - 1);
      StandsStep(s, Run(s, Files(id, k - 1)), id, k - 1);
    }
  }

  /** What one undisturbed migration makes of the schema. */
  ghost predicate Migrated(s: State, s': State, id: OwnerId) {
    && id in s.owners
    && var o, v, success := s.owners[id], MaxVersion(s.versions), Reaches(s.owners[id], s.versions);
    && s'.owners == s.owners[id := o.(phase := Ended(success))] && s'.lock.None?
    && if success then
         && Plan(o.entries, v).Some?
         && s'.versions == s.versions + Numbers(Plan(o.entries, v).value)
         && s'.committed == s.committed + Plan(o.entries, v).value
       else s'.versions == s.versions && s'.committed == s.committed
  }

  lemma CommitStands(s: State, x: State, id: OwnerId)
    requires id in s.owners && Stands(s, x, id, |s.owners[id].entries|) && Sorted(s.owners[id].entries)
    requires MaxVersion(s.versions) <= s.owners[id].current
    ensures Migrated(s, Next(x, Commit(id, true)), id)
  {
    var o, v := s.owners[id], MaxVersion(s.versions);
    PlanReachesCurrent(o.entries, v, o.current);
    if x.owners[id].phase.Running? {
      SplitEnd(o.entries, v, x.owners[id].phase.version, x.owners[id].phase.ran);
    }
    hide Plan, MaxVersion, Numbers, Complete;
  }

  /** An owner that finds the lock free and is not disturbed succeeds exactly when its build reaches its version. */
  lemma OwnerAlone(s: State, id: OwnerId)
    requires id in s.owners && s.owners[id].phase == Waiting && s.lock.None? && Sorted(s.owners[id].entries)
    ensures Migrated(s, Run(s, Files(id, |s.owners[id].entries|) + [Commit(id, true)]), id)
  {
    var n := |s.owners[id].entries|;
    assert (Files(id, n) + [Commit(id, true)])[..n + 1] == Files(id, n);
    if MaxVersion(s.versions) <= s.owners[id].current {
      FilesRun(s, id, n);
      hide Stands, Next, Migrated;
      CommitStands(s, Run(s, Files(id, n)), id);
    } else {
      NewerStays(s, id, n);
    }
  }

  lemma {:induction false} NewerStays(s: State, id: OwnerId, k: nat)
    requires id in s.owners && s.owners[id].phase == Waiting && s.lock.None?
    requires MaxVersion(s.versions) > s.owners[id].current
    ensures Run(s, Files(id, k)) == SetPhase(s, id, Ended(false))
    decreases k
  {
    if k == 0 {
      assert Files(id, 0)[..0] == [];
    } else {
      NewerStays(s, id, k - 1);
      OneMoreFile(s, id, k - 1);
    }
  }

  /** In every run an owner fails only by an error, an unanswered commit, or a build that does not reach its version. */
  lemma FailureHasCause(versions: seq<nat>, actions: seq<Action>, a: Action)
    requires var s, s' := Run(Init(versions), actions), Next(Run(Init(versions), actions), a);
             && a.id in s.owners && Sorted(s.owners[a.id].entries)
             && !s.owners[a.id].phase.Ended? && s'.owners[a.id].phase == Ended(false)
    ensures var s := Run(Init(versions), actions);
            a.Fail? || a.Settle? || !Reaches(s.owners[a.id], s.versions)
  {
    hide Run;
    RunKeeps(versions, actions);
    var s := Run(Init(versions), actions);
    var o, v := s.owners[a.id], MaxVersion(s.versions);
    assert OwnerOk(s.versions, s.lock, a.id, o);
    if Reaches(o, s.versions) && o.phase.Running? {
      PlanReachesCurrent(o.entries, v, o.current);
      hide Plan, MaxVersion;
      if o.phase.next < |o.entries| {
        SplitStep(o.entries, v, o.phase.next, o.phase.version, o.phase.ran);
      } else {
        SplitEnd(o.entries, v, o.phase.version, o.phase.ran);
      }
    }
  }
}
