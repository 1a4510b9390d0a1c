/**
 The migration runner: one transaction that reads the version, runs the missing scripts in
 order, and commits.  The current version of the build is a parameter.
 */
module Migrations {
  import opened Common
  import opened Template

  /** An embedded file: the number in its name, and its text. */
  datatype Script = Script(number: nat, text: string)

  datatype Mode = Validate | Apply | Disabled

  datatype Result = Done | NewerThanBuild | WrongVersion | NotMonotonic | NotReached | Failed

  /** How the commit ends: answered, aborted, or committed without an answer. */
  datatype Outcome = Acknowledged | Aborted | Unanswered

  /** The files are sorted by path, hence by number; equal numbers are possible. */
  ghost predicate Sorted(entries: seq<Script>) {
    forall i, j :: 0 <= i < j < |entries| ==> entries[i].number <= entries[j].number
  }

  predicate Has(entries: seq<Script>, number: nat) { exists i :: 0 <= i < |entries| && entries[i].number == number }

  /** The scripts the loop runs from a given version, or None where it stops as not monotonic. */
  function Plan(entries: seq<Script>, version: nat): Option<seq<Script>> {
    if entries == [] then Some([])
    else if entries[0].number <= version then Plan(entries[1..], version)
    else if entries[0].number != version + 1 then None
    else
      var rest := Plan(entries[1..], version + 1);
      if rest.None? then None else Some([entries[0]] + rest.value)
  }

  // ---------------------------------------------------------------- what a plan is

  /** A plan is one script for each version above the start, without a gap. */
  lemma {:induction false} PlanIsConsecutive(entries: seq<Script>, version: nat, i: nat)
    requires Plan(entries, version).Some? && i < |Plan(entries, version).value|
    ensures Plan(entries, version).value[i].number == version + 1 + i
    ensures Plan(entries, version).value[i] in entries
    decreases |entries|
  {
    if entries[0].number <= version {
      PlanIsConsecutive(entries[1..], version, i);
    } else if i > 0 {
      PlanIsConsecutive(entries[1..], version + 1, i - 1);
    }
  }

  /** Whatever number is embedded above the start is reached by a plan. */
  lemma {:induction false} PlanReaches(entries: seq<Script>, version: nat, number: nat)
    requires Plan(entries, version).Some? && Has(entries, number)
    ensures number <= version + |Plan(entries, version).value|
    decreases |entries|
  {
    var i :| 0 <= i < |entries| && entries[i].number == number;
    if i > 0 {
      assert entries[1..][i - 1].number == number;
      PlanReaches(entries[1..], if entries[0].number <= version then version else version + 1, number);
    }
  }

  lemma PlanCovers(entries: seq<Script>, version: nat, number: nat)
    requires Plan(entries, version).Some? && version < number <= version + |Plan(entries, version).value|
    ensures Has(entries, number)
  {
    PlanIsConsecutive(entries, version, number - version - 1);
  }

  /** A gap in the embedded numbering above the version. */
  ghost predicate Gap(entries: seq<Script>, version: nat) {
    exists number :: number > version + 1 && Has(entries, number) && !Has(entries, number - 1)
  }

  lemma TailHas(entries: seq<Script>, number: nat)
    requires entries != []
    ensures Has(entries, number) <==> entries[0].number == number || Has(entries[1..], number)
  {
    if Has(entries, number) && entries[0].number != number {
      var i :| 0 <= i < |entries| && entries[i].number == number;
      assert entries[1..][i - 1].number == number;
    }
    if Has(entries[1..], number) {
      var i :| 0 <= i < |entries[1..]| && entries[1..][i].number == number;
      assert entries[i + 1].number == number;
    }
  }

  lemma GapOfTail(entries: seq<Script>, version: nat)
    requires entries != [] && entries[0].number <= version + 1
    ensures var version' := if entries[0].number <= version then version else version + 1;
            Gap(entries, version) <==> Gap(entries[1..], version')
  {
    hide Has;
    var version' := if entries[0].number <= version then version else version + 1;
    TailHas(entries, entries[0].number);
    if Gap(entries, version) {
      var number :| number > version + 1 && Has(entries, number) && !Has(entries, number - 1);
      TailHas(entries, number);
      TailHas(entries, number - 1);
      assert number > version' + 1;
    }
    if Gap(entries[1..], version') {
      var number :| number > version' + 1 && Has(entries[1..], number) && !Has(entries[1..], number - 1);
      TailHas(entries, number);
      TailHas(entries, number - 1);
    }
  }

  /** The loop stops as not monotonic exactly at a gap; a duplicate number never makes it stop. */
  lemma {:induction false} OnlyAGapStops(entries: seq<Script>, version: nat)
    requires Sorted(entries)
    ensures Plan(entries, version).None? <==> Gap(entries, version)
    decreases |entries|
  {
    if entries != [] {
      if entries[0].number > version + 1 {
        var number := entries[0].number;
        assert forall j :: 0 <= j < |entries| ==> entries[j].number >= number;
        assert Has(entries, number) && !Has(entries, number - 1);
      } else {
        GapOfTail(entries, version);
        OnlyAGapStops(entries[1..], if entries[0].number <= version then version else version + 1);
      }
    }
  }

  /** The numbers embedded above the version are exactly those up to the current one. */
  ghost predicate Complete(entries: seq<Script>, version: nat, current: nat) {
    forall number :: number > version ==> (Has(entries, number) <==> number <= current)
  }

  /** The loop ends at the current version exactly for a complete numbering. */
  lemma PlanReachesCurrent(entries: seq<Script>, version: nat, current: nat)
    requires Sorted(entries) && version <= current
    ensures Plan(entries, version).Some? && version + |Plan(entries, version).value| == current <==>
              Complete(entries, version, current)
  {
    OnlyAGapStops(entries, version);
    if Complete(entries, version, current) {
      assert !Gap(entries, version);
      var reached := version + |Plan(entries, version).value|;
      if reached < current {
        assert Has(entries, reached + 1);
        PlanReaches(entries, version, reached + 1);
      } else if reached > current {
        PlanCovers(entries, version, reached);
      }
    } else if Plan(entries, version).Some? && version + |Plan(entries, version).value| == current {
      forall number | number > version ensures Has(entries, number) <==> number <= current {
        if Has(entries, number) {
          PlanReaches(entries, version, number);
        } else if number <= current {
          PlanCovers(entries, version, number);
        }
      }
    }
  }

  /** Of two files with the same number the later one is never run. */
  lemma {:induction false} DuplicateIsSkipped(entries: seq<Script>, version: nat, i: nat, j: nat)
    requires Sorted(entries) && i < j < |entries| && entries[i].number == entries[j].number
    ensures Plan(entries, version) == Plan(entries[..j] + entries[j + 1..], version)
    decreases |entries|
  {
    var without := entries[..j] + entries[j + 1..];
    assert without[0] == entries[0] && without[1..] == entries[1..][..j - 1] + entries[1..][j..];
    var version' := if entries[0].number <= version then version else version + 1;
    if i > 0 {
      DuplicateIsSkipped(entries[1..], version', i - 1, j - 1);
    } else if entries[0].number <= version + 1 {
      LowIsSkipped(entries[1..], version', j - 1);
    }
  }

  /** A file at or below the version can be left out. */
  lemma {:induction false} LowIsSkipped(entries: seq<Script>, version: nat, j: nat)
    requires Sorted(entries) && j < |entries| && entries[j].number <= version
    ensures Plan(entries, version) == Plan(entries[..j] + entries[j + 1..], version)
    decreases |entries|
  {
    var without := entries[..j] + entries[j + 1..];
    if j == 0 {
      assert without == entries[1..];
    } else {
      assert without[0] == entries[0] && without[1..] == entries[1..][..j - 1] + entries[1..][j..];
      LowIsSkipped(entries[1..], version, j - 1);
    }
  }

  // ---------------------------------------------------------------- the version table

  /** SELECT COALESCE(MAX(version), 0). */
  function MaxVersion(versions: seq<nat>): (max: nat)
    ensures forall v :: v in versions ==> v <= max
    ensures versions != [] ==> max in versions
  {
    if versions == [] then 0
    else
      var rest := MaxVersion(versions[1..]);
      assert versions == [versions[0]] + versions[1..];
      if versions[0] > rest || |versions| == 1 then versions[0] else rest
  }

  lemma MaxOfExtension(versions: seq<nat>, v: nat)
    requires v >= MaxVersion(versions)
    ensures MaxVersion(versions + [v]) == v
  {
    var all := versions + [v];
    assert all[|versions|] == v && v in all;
    var max := MaxVersion(all);
    assert max in all;
    assert max in versions || max == v;
  }

  /** A script as it was run. */
  datatype Applied = Applied(number: nat, statement: string)

  /** The statements that were run for these scripts, one each. */
  ghost predicate StatementsOf(scripts: seq<Script>, run: seq<Applied>, schema: string, prefix: string) {
    && |run| == |scripts|
    && forall i :: 0 <= i < |scripts| ==>
         run[i].number == scripts[i].number && Renders(scripts[i].text, run[i].statement, schema, prefix)
  }

  function Numbers(scripts: seq<Script>): seq<nat> { seq(|scripts|,
                   i requires 0 <= i < |scripts| => scripts[i].number) }

  /** After `k` files the loop has run `ran`, is at `version`, and still has the rest of the plan before it. */
  predicate Split(entries: seq<Script>, start: nat, k: nat, version: nat, ran: seq<Script>) {
    && k <= |entries|
    && version == start + |ran|
    && var rest := Plan(entries[k..], version);
       Plan(entries, start) == if rest.None? then None else Some(ran + rest.value)
  }

  lemma SplitStart(entries: seq<Script>, start: nat)
    ensures Split(entries, start, 0, start, [])
  {
    assert entries[0..] == entries;
    var plan := Plan(entries, start);
    assert plan.Some? ==> [] + plan.value == plan.value;
  }

  lemma SplitEnd(entries: seq<Script>, start: nat, version: nat, ran: seq<Script>)
    requires Split(entries, start, |entries|, version, ran)
    ensures Plan(entries, start) == Some(ran)
  {
    assert entries[|entries|..] == [] && ran + [] == ran;
  }

  lemma SplitStep(entries: seq<Script>, start: nat, k: nat, version: nat, ran: seq<Script>)
    requires Split(entries, start, k, version, ran) && k < |entries|
    ensures entries[k].number <= version ==> Split(entries, start, k + 1, version, ran)
    ensures entries[k].number > version + 1 ==> Plan(entries, start).None?
    ensures entries[k].number == version + 1 ==> Split(entries, start, k + 1, version + 1, ran + [entries[k]])
  {
    assert entries[k..][1..] == entries[k + 1..] && entries[k..][0] == entries[k];
    var rest := Plan(entries[k + 1..], version + 1);
    if rest.Some? {
      assert ran + ([entries[k]] + rest.value) == ran + [entries[k]] + rest.value;
    }
  }

  /** What the loop has staged after running `ran`. */
  ghost predicate Staged(versions: seq<nat>, applied: seq<Applied>, staged: seq<nat>, statements: seq<Applied>,
                         ran: seq<Script>,
                         schema: string, prefix: string) {
    && staged == versions + Numbers(ran)
    && applied <= statements && StatementsOf(ran, statements[|applied|..], schema, prefix)
  }

  lemma StagedStep(versions: seq<nat>, applied: seq<Applied>, staged: seq<nat>, statements: seq<Applied>,
                   ran: seq<Script>,
                   schema: string, prefix: string, script: Script, statement: string)
    requires Staged(versions, applied, staged, statements, ran, schema, prefix)
    requires Renders(script.text, statement, schema, prefix)
    ensures Staged(versions, applied, staged + [script.number], statements + [Applied(script.number, statement)],
                   ran + [script], schema, prefix)
  {
    hide Renders;
    var ran', run := ran + [script], statements[|applied|..];
    assert Numbers(ran') == Numbers(ran) + [script.number];
    assert (statements + [Applied(script.number, statement)])[|applied|..] == run + [Applied(script.number, statement)];
  }

  /** The loop over the embedded files, inside the transaction: `runs(i)` and `records(i)` say which statements fail. */
  method RunMissing(schema: string, prefix: string, entries: seq<Script>, versions: seq<nat>, applied: seq<Applied>,
                    runs: nat -> bool, records: nat -> bool, orders: nat -> seq<string>)
    returns (r: Result, staged: seq<nat>, statements: seq<Applied>)
    requires ValidIdentifier(schema, 63) && ValidIdentifier(prefix, 40)
    requires forall i :: IteratesNames(orders(i))
    ensures r in {Done, NotMonotonic, Failed}
    ensures r == NotMonotonic ==> Plan(entries, MaxVersion(versions)).None?
    ensures r == Failed ==> exists i :: runs(i) || records(i)
    ensures r == Done ==>
              var plan := Plan(entries, MaxVersion(versions));
              plan.Some? && Staged(versions, applied, staged, statements, plan.value, schema, prefix)
              && MaxVersion(staged) == MaxVersion(versions) + |plan.value|
  {
    hide Renders, Plan, Split, Staged, IteratesNames, ValidIdentifier;
    staged, statements := versions, applied;
    var version := MaxVersion(versions);
    ghost var start, ran := version, [];
    StagedStart(versions, applied, schema, prefix);
    SplitStart(entries, start);
    var k := 0;
    while k < |entries|
      invariant k <= |entries|
      invariant version == MaxVersion(staged) == start + |ran|
      invariant Staged(versions, applied, staged, statements, ran, schema, prefix)
      invariant Split(entries, start, k, version, ran)
    {
      var n := entries[k].number;
      SplitStep(entries, start, k, version, ran);
      if n <= version {
        k := k + 1;
        continue;
      }
      if n != version + 1 {
        return NotMonotonic, staged, statements;
      }
      var statement := RenderMigration(entries[k].text, schema, prefix, orders(k));
      if runs(k) || records(k) {
        return Failed, staged, statements;
      }
      StagedStep(versions, applied, staged, statements, ran, schema, prefix, entries[k], statement);
      MaxOfExtension(staged, n);
      statements, staged := statements + [Applied(n, statement)], staged + [n];
      version := n;
      ran := ran + [entries[k]];
      k := k + 1;
    }
    SplitEnd(entries, start, version, ran);
    r := Done;
  }

  lemma StagedStart(versions: seq<nat>, applied: seq<Applied>, schema: string, prefix: string)
    ensures Staged(versions, applied, versions, applied, [], schema, prefix)
  {
    assert Numbers([]) == [] && applied[|applied|..] == [];
  }

  /** One schema and table prefix: the version table and the statements committed so far. */
  class Database {
    var versions: seq<nat>
    var applied: seq<Applied>

    constructor ()
      ensures versions == [] && applied == []
    {
      versions, applied := [], [];
    }

    /** The missing scripts ran once each, in order, and brought the schema to the current version. */
    twostate predicate Upgraded(entries: seq<Script>, current: nat, schema: string, prefix: string)
      reads this
    {
      var plan := Plan(entries, MaxVersion(old(versions)));
      plan.Some? && Staged(old(versions), old(applied), versions, applied, plan.value, schema, prefix)
      && MaxVersion(versions) == current
    }

    /** migrate.  `setup` says that a statement before the loop fails; `orders(i)` is the iteration order for file i. */
    method Migrate(schema: string, prefix: string, mode: Mode, current: nat, entries: seq<Script>,
                   setup: bool, runs: nat -> bool, records: nat -> bool, orders: nat -> seq<string>, outcome: Outcome)
      returns (r: Result)
      requires ValidIdentifier(schema, 63) && ValidIdentifier(prefix, 40) && Sorted(entries)
      requires forall i :: IteratesNames(orders(i))
      modifies this
      ensures r == Done && mode == Apply ==> Upgraded(entries, current, schema, prefix)
      // Under the other modes nothing changes; success of Validate means the schema was already current.
      ensures mode != Apply ==> versions == old(versions) && applied == old(applied)
      ensures mode == Disabled ==> r == Done
      ensures r == Done && mode == Validate ==> MaxVersion(versions) == current
      // A failure leaves the schema unchanged or, when only the answer of the commit was lost, fully current.
      ensures r != Done ==> (versions == old(versions) && applied == old(applied))
                            || (outcome == Unanswered && r == Failed && Upgraded(entries, current, schema, prefix))
      // With no statement failing, exactly the complete numberings succeed, and each refusal has its cause.
      ensures mode == Apply && !setup && outcome == Acknowledged && !(exists i :: runs(i) || records(i)) ==>
                var v := MaxVersion(old(versions));
                && (r == Done <==> v <= current && Complete(entries, v, current))
                && (r == NewerThanBuild <==> v > current)
                && (r == NotMonotonic <==> v <= current && Gap(entries, v))
                && (r == NotReached <==> v <= current && !Gap(entries, v) && !Complete(entries, v, current))
      ensures mode == Validate && !setup && outcome == Acknowledged ==>
                var v := MaxVersion(old(versions));
                && (r == Done <==> v == current)
                && (r == NewerThanBuild <==> v > current)
                && (r == WrongVersion <==> v < current)
      ensures r == Failed ==> setup || outcome != Acknowledged || exists i :: runs(i) || records(i)
    {
      hide Renders, Plan, Staged, IteratesNames, ValidIdentifier, Complete, Gap;
      if mode == Disabled {
        return Done;
      }
      if setup {
        return Failed;
      }
      var version := MaxVersion(versions);
      if version > current {
        return NewerThanBuild;
      }
      if mode == Validate {
        if version != current {
          return WrongVersion;
        }
        return if outcome == Acknowledged then Done else Failed;
      }
      PlanReachesCurrent(entries, version, current);
      OnlyAGapStops(entries, version);
      var ran, staged, statements := RunMissing(schema, prefix, entries, versions, applied, runs, records, orders);
      if ran != Done {
        return ran;
      }
      if MaxVersion(staged) != current {
        return NotReached;
      }
      if outcome == Aborted {
        return Failed;
      }
      versions, applied := staged, statements;
      return if outcome == Acknowledged then Done else Failed;
    }
  }
}
