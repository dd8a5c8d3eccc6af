/** The migration runner, under failures, retries and replicas that take turns on the lock. */
module Migrations {
  import opened Options
  import opened FileOrder

  const LEGACY_CUTOFF: string := "013"

  /** What the database answers to a file's SQL on the schema it finds. */
  datatype Outcome<S> = Done(schema: S) | Duplicate | Failed

  type Sql<!S> = (string, S) -> Outcome<S>

  /** What else can happen to a file in one run: nothing; an error or a crash before its commit;
      or a commit whose answer never arrives. */
  datatype Fault = NoFault | Breaks | CommitsThenBreaks

  /** The schema, the rows of schema_migrations, and the files whose SQL committed, in order. */
  datatype Db<S> = Db(schema: S, recorded: set<string>, log: seq<string>)

  datatype Applied<S> = Applied(db: Db<S>, ok: bool)

  function Apply<S>(db: Db<S>, name: string, fault: Fault, sql: Sql<S>): Applied<S> {
    if fault.Breaks? then Applied(db, false)
    else match sql(name, db.schema)
      case Failed => Applied(db, false)
      case Duplicate =>
        if LexLeq(LEGACY_CUTOFF, name) then Applied(db, false)
        else Applied(db.(recorded := db.recorded + {name}), fault.NoFault?)
      case Done(schema) =>
        // the insert meets the primary key
        if name in db.recorded then Applied(db, false)
        else Applied(Db(schema, db.recorded + {name}, db.log + [name]), fault.NoFault?)
  }

  /** The rest of a run: `applied` is what it read at its start. */
  function RunFrom<S>(db: Db<S>, applied: set<string>, files: seq<string>, faults: string -> Fault, sql: Sql<S>): Applied<S>
    decreases |files|
  {
    if files == [] then Applied(db, true)
    else if files[0] in applied then RunFrom(db, applied, files[1..], faults, sql)
    else
      var a := Apply(db, files[0], faults(files[0]), sql);
      if a.ok then RunFrom(a.db, applied, files[1..], faults, sql) else a
  }

  function Run<S>(db: Db<S>, files: seq<string>, faults: string -> Fault, sql: Sql<S>): Applied<S> {
    RunFrom(db, db.recorded, files, faults, sql)
  }

  class PGStore<S> {
    var schema: S
    var recorded: set<string>
    ghost var log: seq<string>

    constructor (schema: S)
      ensures Contents() == Db(schema, {}, [])
    {
      this.schema, recorded, log := schema, {}, [];
    }

    ghost function Contents(): Db<S>
      reads this
    {
      Db(schema, recorded, log)
    }

    method ApplyMigration(name: string, fault: Fault, sql: Sql<S>) returns (ok: bool)
      modifies this
      // the SQL commits with its record, once
      ensures !fault.Breaks? && name !in old(recorded) && sql(name, old(schema)).Done? ==>
                && schema == sql(name, old(schema)).schema && recorded == old(recorded) + {name} && log == old(log) + [name]
                && ok == fault.NoFault?
      // a legacy file whose objects exist is recorded without it
      ensures !fault.Breaks? && sql(name, old(schema)).Duplicate? && !LexLeq("013", name) ==>
                && schema == old(schema) && recorded == old(recorded) + {name} && log == old(log) && ok == fault.NoFault?
      // everything else leaves no trace
      ensures fault.Breaks? || sql(name, old(schema)).Failed? || (sql(name, old(schema)).Duplicate? && LexLeq("013", name))
              || (sql(name, old(schema)).Done? && name in old(recorded)) ==>
                && schema == old(schema) && recorded == old(recorded) && log == old(log) && !ok
      ensures Applied(Contents(), ok) == Apply(old(Contents()), name, fault, sql)
    {
      if fault.Breaks? {
        return false;
      }
      var outcome := sql(name, schema);
      match outcome {
        case Failed =>
          return false;
        case Duplicate =>
          if LexLeq(LEGACY_CUTOFF, name) {
            return false;
          }
          // rolled back: recorded outside the transaction
          recorded := recorded + {name};
        case Done(after) =>
          if name in recorded {
            return false;
          }
          schema, recorded, log := after, recorded + {name}, log + [name];
      }
      return fault.NoFault?;
    }

    method RunMigrations(entries: seq<DirEntry>, faults: string -> Fault, sql: Sql<S>) returns (ok: bool, ghost files: seq<string>)
      modifies this
      ensures Sorted(files) && multiset(files) == multiset(UpNames(entries))
      ensures Applied(Contents(), ok) == Run(old(Contents()), files, faults, sql)
    {
      var listed := ListUpMigrations(entries);
      files := listed;
      var applied := recorded;
      var i := 0;
      while i < |listed|
        invariant 0 <= i <= |listed|
        invariant RunFrom(Contents(), applied, listed[i..], faults, sql) == Run(old(Contents()), listed, faults, sql)
      {
        if listed[i] !in applied {
          ok := ApplyMigration(listed[i], faults(listed[i]), sql);
          if !ok {
            return false, files;
          }
        }
        i := i + 1;
      }
      return true, files;
    }
  }

  /** The database after file k - 1 when nothing goes wrong from file k0 on; None if some file
      cannot be applied. */
  function Straight<S>(all: seq<string>, base: Db<S>, k0: nat, k: nat, sql: Sql<S>): Option<Db<S>>
    requires k0 <= k <= |all|
    decreases k
  {
    if k == k0 then Some(base)
    else
      var before := Straight(all, base, k0, k - 1, sql);
      if before.None? then None
      else
        var a := Apply(before.value, all[k-1], NoFault, sql);
        if a.ok then Some(a.db) else None
  }

  predicate Ascending(xs: seq<string>, from: nat) {
    forall i, j | from <= i < j < |xs| :: LexLeq(xs[i], xs[j]) && xs[i] != xs[j]
  }

  /** The first k files are recorded. */
  ghost predicate RecordedTo<S>(all: seq<string>, k: nat, db: Db<S>)
    requires k <= |all|
  {
    forall x :: x in db.recorded <==> x in all[..k]
  }

  /** Beyond the log `was`, the log names files from k0 to k - 1 only, in ascending order. */
  predicate LogOf(all: seq<string>, was: seq<string>, k0: nat, k: nat, log: seq<string>)
    requires k0 <= k <= |all|
  {
    && was <= log
    && Ascending(log, |was|)
    && forall x <- log[|was|..] :: x in all[k0..k]
  }

  /** Only a file below the cutoff can be recorded without its SQL having committed. */
  predicate SkippedAreLegacy(all: seq<string>, was: seq<string>, k0: nat, k: nat, log: seq<string>)
    requires k0 <= k <= |all| && was <= log
  {
    forall i | k0 <= i < k :: all[i] in log[|was|..] || !LexLeq(LEGACY_CUTOFF, all[i])
  }

  /** What holds of the database after file k - 1. */
  ghost predicate AtFile<S>(all: seq<string>, base: Db<S>, k0: nat, k: nat, db: Db<S>)
    requires k0 <= k <= |all|
  {
    && RecordedTo(all, k, db)
    && LogOf(all, base.log, k0, k, db.log)
    && SkippedAreLegacy(all, base.log, k0, k, db.log)
  }

  lemma LogStep(all: seq<string>, was: seq<string>, k0: nat, k: nat, log: seq<string>)
    requires k0 <= k < |all| && Sorted(all) && Distinct(all) && LogOf(all, was, k0, k, log)
    ensures LogOf(all, was, k0, k + 1, log) && LogOf(all, was, k0, k + 1, log + [all[k]])
  {
    assert all[k0..k+1] == all[k0..k] + [all[k]];
    assert (log + [all[k]])[|was|..] == log[|was|..] + [all[k]];
    forall i | |was| <= i < |log| ensures LexLeq(log[i], all[k]) && log[i] != all[k] {
      assert log[i] == log[|was|..][i - |was|];
      assert log[i] in all[k0..k];
      var j :| 0 <= j < k - k0 && all[k0..k][j] == log[i];
      assert log[i] == all[k0 + j];
    }
  }

  lemma SkipStep(all: seq<string>, was: seq<string>, k0: nat, k: nat, log: seq<string>)
    requires k0 <= k < |all| && was <= log && SkippedAreLegacy(all, was, k0, k, log)
    ensures SkippedAreLegacy(all, was, k0, k + 1, log + [all[k]])
    ensures !LexLeq(LEGACY_CUTOFF, all[k]) ==> SkippedAreLegacy(all, was, k0, k + 1, log)
  {
    assert (log + [all[k]])[|was|..] == log[|was|..] + [all[k]];
  }

  lemma {:induction false} StraightAtFile<S>(all: seq<string>, base: Db<S>, k0: nat, k: nat, sql: Sql<S>)
    requires k0 <= k <= |all| && Sorted(all) && Distinct(all)
    requires RecordedTo(all, k0, base)
    requires Straight(all, base, k0, k, sql).Some?
    ensures AtFile(all, base, k0, k, Straight(all, base, k0, k, sql).value)
    decreases k
  {
    if k > k0 {
      StraightAtFile(all, base, k0, k - 1, sql);
      FileStep(all, base, k0, k - 1, Straight(all, base, k0, k - 1, sql).value, sql);
    }
  }

  lemma FileStep<S>(all: seq<string>, base: Db<S>, k0: nat, k: nat, db: Db<S>, sql: Sql<S>)
    requires k0 <= k < |all| && Sorted(all) && Distinct(all) && AtFile(all, base, k0, k, db)
    requires Apply(db, all[k], NoFault, sql).ok
    ensures AtFile(all, base, k0, k + 1, Apply(db, all[k], NoFault, sql).db)
  {
    assert all[..k+1] == all[..k] + [all[k]];
    LogStep(all, base.log, k0, k, db.log);
    SkipStep(all, base.log, k0, k, db.log);
  }

  /** A fault either stops a file before anything happened, or hides that all of it did. */
  lemma FaultIsAllOrNothing<S>(db: Db<S>, name: string, fault: Fault, sql: Sql<S>)
    ensures var a, clean := Apply(db, name, fault, sql), Apply(db, name, NoFault, sql);
            && (a.ok ==> a == clean)
            && (!a.ok ==> a.db == db || (clean.ok && a.db == clean.db))
  {
  }

  lemma NotEarlier(all: seq<string>, start: nat, i: nat)
    requires start <= i < |all| && Distinct(all)
    ensures all[i] !in all[..start]
  {
    forall j | 0 <= j < start ensures all[..start][j] != all[i] {
    }
  }

  lemma WholeSlices(all: seq<string>)
    ensures all[0..|all|] == all && all[0..] == all && all[..|all|] == all
  {
  }

  /** A run moves the database along the straight path and stops somewhere on it. */
  lemma {:induction false} RunStaysOnPath<S>(all: seq<string>, base: Db<S>, k0: nat, start: nat, i: nat, n: nat,
      db: Db<S>, applied: set<string>, faults: string -> Fault, sql: Sql<S>) returns (k: nat)
    requires i <= n <= |all| && k0 <= start <= |all| && Distinct(all)
    requires forall x :: x in applied <==> x in all[..start]
    requires var at := if i < start then start else i; Straight(all, base, k0, at, sql) == Some(db)
    ensures (if i < start then start else i) <= k <= (if n < start then start else n)
    ensures var a := RunFrom(db, applied, all[i..n], faults, sql);
            Straight(all, base, k0, k, sql) == Some(a.db) && (a.ok ==> k >= n)
    decreases n - i
  {
    k := if i < start then start else i;
    if i < n {
      assert all[i..n][1..] == all[i+1..n] && all[i..n][0] == all[i];
      if i < start {
        assert all[i] == all[..start][i];
        k := RunStaysOnPath(all, base, k0, start, i + 1, n, db, applied, faults, sql);
      } else {
        NotEarlier(all, start, i);
        FaultIsAllOrNothing(db, all[i], faults(all[i]), sql);
        var a := Apply(db, all[i], faults(all[i]), sql);
        if a.ok {
          k := RunStaysOnPath(all, base, k0, start, i + 1, n, a.db, applied, faults, sql);
        } else if a.db != db {
          k := i + 1;
        }
      }
    }
  }

  /** A run without faults gets to the end exactly when the straight path does. */
  lemma {:induction false} CleanRun<S>(all: seq<string>, base: Db<S>, k0: nat, start: nat, i: nat,
      db: Db<S>, applied: set<string>, sql: Sql<S>)
    requires i <= |all| && k0 <= start <= |all| && Distinct(all)
    requires forall x :: x in applied <==> x in all[..start]
    requires var at := if i < start then start else i; Straight(all, base, k0, at, sql) == Some(db)
    ensures var a := RunFrom(db, applied, all[i..], _ => NoFault, sql);
            var end := Straight(all, base, k0, |all|, sql);
            (a.ok <==> end.Some?) && (a.ok ==> end == Some(a.db))
    decreases |all| - i
  {
    if i < |all| {
      assert all[i..][1..] == all[i+1..] && all[i..][0] == all[i];
      if i < start {
        assert all[i] == all[..start][i];
        CleanRun(all, base, k0, start, i + 1, db, applied, sql);
      } else {
        NotEarlier(all, start, i);
        var a := Apply(db, all[i], NoFault, sql);
        if a.ok {
          CleanRun(all, base, k0, start, i + 1, a.db, applied, sql);
        } else {
          NoWayPast(all, base, k0, i + 1, |all|, sql);
        }
      }
    }
  }

  lemma {:induction false} NoWayPast<S>(all: seq<string>, base: Db<S>, k0: nat, k: nat, n: nat, sql: Sql<S>)
    requires k0 <= k <= n <= |all| && Straight(all, base, k0, k, sql).None?
    ensures Straight(all, base, k0, n, sql).None?
    decreases n
  {
    if k < n {
      NoWayPast(all, base, k0, k, n - 1, sql);
    }
  }

  /** One start of a server: how many of the files its version ships, and its faults. */
  datatype Boot = Boot(count: nat, faults: string -> Fault)

  /** The lock makes the runs of all replicas, old and new, follow one another. */
  function Boots<S>(db: Db<S>, all: seq<string>, boots: seq<Boot>, sql: Sql<S>): Db<S>
    requires forall b <- boots :: b.count <= |all|
  {
    if boots == [] then db
    else
      var b := boots[|boots|-1];
      Run(Boots(db, all, boots[..|boots|-1], sql), all[..b.count], b.faults, sql).db
  }

  /** Starting from a recorded prefix, whatever fails and however often any replica retries:
      the recorded files are a prefix of the sorted list, each file's SQL committed at most once
      and in order, and only a file below the cutoff may be recorded without its effect. */
  lemma {:induction false} RecordedIsAlwaysAPrefix<S>(all: seq<string>, base: Db<S>, k0: nat, boots: seq<Boot>, sql: Sql<S>)
      returns (k: nat)
    requires k0 <= |all| && Sorted(all) && Distinct(all)
    requires RecordedTo(all, k0, base)
    requires forall b <- boots :: b.count <= |all|
    ensures k0 <= k <= |all| && Straight(all, base, k0, k, sql) == Some(Boots(base, all, boots, sql))
    ensures AtFile(all, base, k0, k, Boots(base, all, boots, sql))
  {
    if boots == [] {
      k := k0;
    } else {
      var b := boots[|boots|-1];
      var earlier := boots[..|boots|-1];
      var start := RecordedIsAlwaysAPrefix(all, base, k0, earlier, sql);
      var db := Boots(base, all, earlier, sql);
      assert all[0..b.count] == all[..b.count];
      k := RunStaysOnPath(all, base, k0, start, 0, b.count, db, db.recorded, b.faults, sql);
    }
    StraightAtFile(all, base, k0, k, sql);
  }

  /** After any such history, a clean retry ends well exactly when one uninterrupted run from the
      start would have; and then both leave the same database. */
  lemma {:induction false} CleanRetryMatchesUninterrupted<S>(all: seq<string>, base: Db<S>, k0: nat, boots: seq<Boot>, sql: Sql<S>)
    requires k0 <= |all| && Sorted(all) && Distinct(all)
    requires RecordedTo(all, k0, base)
    requires forall b <- boots :: b.count <= |all|
    ensures var retry := Run(Boots(base, all, boots, sql), all, _ => NoFault, sql);
            var once := Run(base, all, _ => NoFault, sql);
            (retry.ok <==> once.ok) && (retry.ok ==> retry == once)
  {
    var k := RecordedIsAlwaysAPrefix(all, base, k0, boots, sql);
    var db := Boots(base, all, boots, sql);
    WholeSlices(all);
    CleanRun(all, base, k0, k, 0, db, db.recorded, sql);
    CleanRun(all, base, k0, k0, 0, base, base.recorded, sql);
  }

  /** A run over all files that completes, faults or not, leaves what one uninterrupted run would
      have, with every file recorded. */
  lemma {:induction false} CompletedMatchesUninterrupted<S>(all: seq<string>, base: Db<S>, k0: nat, boots: seq<Boot>, faults: string -> Fault, sql: Sql<S>)
    requires k0 <= |all| && Sorted(all) && Distinct(all)
    requires RecordedTo(all, k0, base)
    requires forall b <- boots :: b.count <= |all|
    ensures var last := Run(Boots(base, all, boots, sql), all, faults, sql);
            last.ok ==> last == Run(base, all, _ => NoFault, sql) && RecordedTo(all, |all|, last.db)
  {
    var start := RecordedIsAlwaysAPrefix(all, base, k0, boots, sql);
    var db := Boots(base, all, boots, sql);
    WholeSlices(all);
    var k := RunStaysOnPath(all, base, k0, start, 0, |all|, db, db.recorded, faults, sql);
    if Run(db, all, faults, sql).ok {
      assert k == |all|;
      CleanRun(all, base, k0, k0, 0, base, base.recorded, sql);
      StraightAtFile(all, base, k0, |all|, sql);
    }
  }

  /** Once every file is recorded, a run does nothing and succeeds, whatever the faults. */
  lemma {:induction false} AgainIsANoOp<S>(db: Db<S>, files: seq<string>, applied: set<string>, faults: string -> Fault, sql: Sql<S>)
    requires forall x <- files :: x in applied
    ensures RunFrom(db, applied, files, faults, sql) == Applied(db, true)
  {
    if files != [] {
      AgainIsANoOp(db, files[1..], applied, faults, sql);
    }
  }

  /** A start of a server of any version: its own listing, sorted among itself only. */
  datatype Visit = Visit(files: seq<string>, faults: string -> Fault)

  function Visits<S>(db: Db<S>, visits: seq<Visit>, sql: Sql<S>): Db<S> {
    if visits == [] then db
    else
      var v := visits[|visits|-1];
      Run(Visits(db, visits[..|visits|-1], sql), v.files, v.faults, sql).db
  }

  /** What was recorded or committed stays, and each name the log gained is new and appears once. */
  predicate LogsOnce<S>(base: Db<S>, db: Db<S>) {
    && base.recorded <= db.recorded && base.log <= db.log
    && (forall i, j | |base.log| <= i < j < |db.log| :: db.log[i] != db.log[j])
    && (forall i | |base.log| <= i < |db.log| :: db.log[i] in db.recorded && db.log[i] !in base.recorded)
  }

  /** One run, on any listing and with any faults, records an initial part of it, all of it when it
      completes, and nothing else. */
  lemma {:induction false} RunRecordsInOrder<S>(base: Db<S>, db: Db<S>, applied: set<string>, files: seq<string>,
      faults: string -> Fault, sql: Sql<S>) returns (k: nat)
    requires LogsOnce(base, db) && applied <= db.recorded
    ensures k <= |files|
    ensures var a := RunFrom(db, applied, files, faults, sql);
            && LogsOnce(base, a.db) && (a.ok ==> k == |files|)
            && a.db.recorded == db.recorded + set x | x in files[..k]
    decreases |files|
  {
    if files == [] {
      k := 0;
    } else {
      var f := files[0];
      var a := if f in applied then Applied(db, true) else Apply(db, f, faults(f), sql);
      if a.ok {
        k := RunRecordsInOrder(base, a.db, applied, files[1..], faults, sql);
        k := k + 1;
        assert files[..k] == [f] + files[1..][..k-1];
      } else {
        k := if f in a.db.recorded then 1 else 0;
        assert files[..k] == if k == 1 then [f] else [];
      }
    }
  }

  /** Whatever files the versions ship and whatever fails: no file's SQL ever commits twice, and
      none that was recorded runs again. */
  lemma {:induction false} EachFileCommitsOnce<S>(base: Db<S>, visits: seq<Visit>, sql: Sql<S>)
    ensures LogsOnce(base, Visits(base, visits, sql))
  {
    if visits != [] {
      var n := |visits| - 1;
      EachFileCommitsOnce(base, visits[..n], sql);
      var db := Visits(base, visits[..n], sql);
      var k := RunRecordsInOrder(base, db, db.recorded, visits[n].files, visits[n].faults, sql);
    }
  }

  /** The schema that the SQL of some files makes of a schema, one after the other; None if one of
      them does not succeed. */
  function Replay<S>(schema: S, names: seq<string>, sql: Sql<S>): Option<S>
    decreases |names|
  {
    if names == [] then Some(schema)
    else if sql(names[0], schema).Done? then Replay(sql(names[0], schema).schema, names[1..], sql)
    else None
  }

  lemma {:induction false} ReplayOneMore<S>(schema: S, names: seq<string>, name: string, sql: Sql<S>)
    requires Replay(schema, names, sql).Some? && sql(name, Replay(schema, names, sql).value).Done?
    ensures Replay(schema, names + [name], sql) == Some(sql(name, Replay(schema, names, sql).value).schema)
    decreases |names|
  {
    if names == [] {
      assert ([name])[1..] == [];
    } else {
      ReplayOneMore(sql(names[0], schema).schema, names[1..], name, sql);
      assert (names + [name])[1..] == names[1..] + [name];
    }
  }

  /** The schema is what the logged files make of the one it started from. */
  predicate Replays<S(==)>(base: Db<S>, db: Db<S>, sql: Sql<S>) {
    base.log <= db.log && Replay(base.schema, db.log[|base.log|..], sql) == Some(db.schema)
  }

  lemma ApplyReplays<S>(base: Db<S>, db: Db<S>, name: string, fault: Fault, sql: Sql<S>)
    requires Replays(base, db, sql)
    ensures Replays(base, Apply(db, name, fault, sql).db, sql)
  {
    var was := db.log[|base.log|..];
    assert (db.log + [name])[|base.log|..] == was + [name];
    if sql(name, db.schema).Done? {
      ReplayOneMore(base.schema, was, name, sql);
    }
  }

  lemma {:induction false} RunReplays<S>(base: Db<S>, db: Db<S>, applied: set<string>, files: seq<string>,
      faults: string -> Fault, sql: Sql<S>)
    requires Replays(base, db, sql)
    ensures Replays(base, RunFrom(db, applied, files, faults, sql).db, sql)
    decreases |files|
  {
    if files != [] {
      if files[0] in applied {
        RunReplays(base, db, applied, files[1..], faults, sql);
      } else {
        ApplyReplays(base, db, files[0], faults(files[0]), sql);
        var a := Apply(db, files[0], faults(files[0]), sql);
        if a.ok {
          RunReplays(base, a.db, applied, files[1..], faults, sql);
        }
      }
    }
  }

  /** After any starts of any versions with any faults: the schema is the starting one with the SQL
      of exactly the logged files run on it, in that order, each successfully. */
  lemma {:induction false} SchemaIsTheLogReplayed<S>(base: Db<S>, visits: seq<Visit>, sql: Sql<S>)
    ensures Replays(base, Visits(base, visits, sql), sql)
  {
    if visits == [] {
      assert base.log[|base.log|..] == [];
    } else {
      var n := |visits| - 1;
      SchemaIsTheLogReplayed(base, visits[..n], sql);
      var db := Visits(base, visits[..n], sql);
      RunReplays(base, db, db.recorded, visits[n].files, visits[n].faults, sql);
    }
  }

  /** A clean run over files none of which is recorded and whose SQL succeeds, one after the other:
      it succeeds, and the SQL of every file has run, in the listed order. */
  lemma {:induction false} CleanRunAppliesAll<S>(db: Db<S>, applied: set<string>, files: seq<string>, sql: Sql<S>)
    requires Distinct(files) && applied <= db.recorded && forall f <- files :: f !in db.recorded
    requires Replay(db.schema, files, sql).Some?
    ensures var a := RunFrom(db, applied, files, _ => NoFault, sql);
            && a.ok && a.db.log == db.log + files && Some(a.db.schema) == Replay(db.schema, files, sql)
            && forall f :: f in a.db.recorded <==> f in db.recorded || f in files
    decreases |files|
  {
    if files == [] {
      assert db.log + files == db.log;
    } else {
      var a := Apply(db, files[0], NoFault, sql);
      assert files == [files[0]] + files[1..];
      CleanRunAppliesAll(a.db, applied, files[1..], sql);
    }
  }
}
