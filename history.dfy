/** `executeMigration`: the migration history kept in each database's
    `_migrations` container, and the decision to skip, run and record a script.

    A history document is `{ id: containerName, scripts: [{ scriptName,
    executedOn }] }`: one document per target container, one entry per script
    that has run against it. The Cosmos DB client is modelled as an in-memory
    map from database name to that database's `_migrations` documents by id. */
module History {
  import opened Common
  import opened Paths

  datatype Entry = Entry(scriptName: string, executedOn: string)

  /** A `_migrations` document. `scripts` is `None` for a document that lacks
      the field, which the optional chaining of the lookup tolerates. */
  datatype Record = Record(id: string, scripts: Option<seq<Entry>>)

  /** The `_migrations` container of one database, by document id. */
  type Table = map<string, Record>

  /** Every database's `_migrations` container, by database name. */
  type Tables = map<string, Table>

  /** How the awaited `script.run(database, container)` ends. */
  datatype RunResult = Completes | Throws(error: string)

  /** What `require(scriptPath)` yields, as far as `executeMigration` uses it. */
  datatype Script = Script(databaseName: string, containerName: string, run: RunResult)

  datatype Outcome =
    | LoadFailed                  // `require(scriptPath)` threw
    | Skipped(executedOn: string) // the history already holds a truthy `executedOn`
    | RunFailed(error: string)    // `script.run` threw
    | PushFailed                  // the record has no `scripts` array, so `push` threw
    | Recorded                    // the run completed and the history was upserted
  {
    /** `script.run` was invoked. */
    predicate Ran()
    {
      RunFailed? || PushFailed? || Recorded?
    }

    /** `executeMigration` rejected. */
    predicate IsFailure()
    {
      LoadFailed? || RunFailed? || PushFailed?
    }
  }

  datatype Step = Step(outcome: Outcome, tables: Tables)

  function TableOf(tables: Tables, db: string): Table
  {
    if db in tables then tables[db] else map[]
  }

  /** `migrationsContainer.item(containerName).read()`: the document, if any. */
  function RecordOf(table: Table, containerName: string): Option<Record>
  {
    if containerName in table then Some(table[containerName]) else None
  }

  /** `scripts.find((s) => s.scriptName === name)`: the first entry with that name. */
  function FindEntry(scripts: seq<Entry>, name: string): (r: Option<Entry>)
    ensures r.None? <==> forall i :: 0 <= i < |scripts| ==> scripts[i].scriptName != name
    ensures r.Some? ==> exists i :: 0 <= i < |scripts| && scripts[i] == r.value && r.value.scriptName == name
                                    && forall j :: 0 <= j < i ==> scripts[j].scriptName != name
  {
    if scripts == [] then None
    else if scripts[0].scriptName == name then Some(scripts[0])
    else
      var r := FindEntry(scripts[1..], name);
      if r.Some? then
        var i :| 0 <= i < |scripts[1..]| && scripts[1..][i] == r.value && r.value.scriptName == name
                 && forall j :: 0 <= j < i ==> scripts[1..][j].scriptName != name;
        assert scripts[i + 1] == r.value;
        assert forall j :: 0 <= j < i + 1 ==> scripts[j].scriptName != name by {
          forall j | 0 <= j < i + 1 ensures scripts[j].scriptName != name {
            if j > 0 { assert scripts[j] == scripts[1..][j - 1]; }
          }
        }
        r
      else r
  }

  /** `migrations?.scripts?.find(...)?.executedOn`, with "" for every falsy
      result (no document, no `scripts`, no entry, an empty stamp). */
  function ExecutedOn(rec: Option<Record>, name: string): string
  {
    if rec.None? || rec.value.scripts.None? then ""
    else
      var e := FindEntry(rec.value.scripts.value, name);
      if e.None? then "" else e.value.executedOn
  }

  /** Each `_migrations` document is stored under its own id. */
  ghost predicate WellKeyed(tables: Tables)
  {
    forall db, id :: db in tables && id in tables[db] ==> tables[db][id].id == id
  }

  /** The stored history documents are the same in `a` and `b` for every
      database and container (a database may have gained an empty container). */
  ghost predicate SameHistory(a: Tables, b: Tables)
  {
    forall db :: TableOf(a, db) == TableOf(b, db)
  }

  /** `database.containers.createIfNotExists({ id: '_migrations' })` */
  function EnsureTable(tables: Tables, db: string): (r: Tables)
    ensures db in r
    ensures SameHistory(tables, r)
  {
    var r := tables[db := TableOf(tables, db)];
    assert forall d :: TableOf(tables, d) == TableOf(r, d) by {
      forall d ensures TableOf(tables, d) == TableOf(r, d) { if d != db { assert (d in r) == (d in tables); } }
    }
    r
  }

  /** `migrationsContainer.items.upsert(item)`: stores `item` under its id. */
  function Upsert(tables: Tables, db: string, item: Record): (r: Tables)
    ensures RecordOf(TableOf(r, db), item.id) == Some(item)
    ensures forall id :: id != item.id ==> RecordOf(TableOf(r, db), id) == RecordOf(TableOf(tables, db), id)
    ensures forall d :: d != db ==> TableOf(r, d) == TableOf(tables, d)
  {
    tables[db := TableOf(tables, db)[item.id := item]]
  }

  /** The truthy-or-"" `executedOn` that `script`'s target history holds for `name`. */
  function StampOf(tables: Tables, script: Script, name: string): string
  {
    ExecutedOn(RecordOf(TableOf(tables, script.databaseName), script.containerName), name)
  }

  /** The document written after a completed run: `migrations` with the new
      entry pushed, or `{ id: containerName, scripts: [entry] }`. */
  function Appended(migrations: Option<Record>, containerName: string, entry: Entry): Record
    requires migrations.Some? ==> migrations.value.scripts.Some?
  {
    if migrations.Some? then Record(migrations.value.id, Some(migrations.value.scripts.value + [entry]))
    else Record(containerName, Some([entry]))
  }

  /** `executeMigration(client, scriptPath)`, with `script` the loaded module
      (`None` when loading throws) and `timestamp` the value of
      `new Date().toISOString()`. */
  function Transition(tables: Tables, scriptPath: string, script: Option<Script>, timestamp: string): Step
  {
    if script.None? then Step(LoadFailed, tables)
    else
      var s := script.value;
      var created := EnsureTable(tables, s.databaseName);
      var name := Basename(scriptPath);
      var migrations := RecordOf(TableOf(tables, s.databaseName), s.containerName);
      var executedOn := StampOf(tables, s, name);
      if executedOn != "" then Step(Skipped(executedOn), created)
      else if s.run.Throws? then Step(RunFailed(s.run.error), created)
      else if migrations.Some? && migrations.value.scripts.None? then Step(PushFailed, created)
      else Step(Recorded, Upsert(created, s.databaseName, Appended(migrations, s.containerName, Entry(name, timestamp))))
  }

  /** A script is skipped exactly when the target container's history holds a
      truthy `executedOn` for its basename; a skip writes no history. */
  lemma SkipIffExecuted(tables: Tables, scriptPath: string, script: Script, timestamp: string)
    ensures var step := Transition(tables, scriptPath, Some(script), timestamp);
            var stamp := StampOf(tables, script, Basename(scriptPath));
            && (step.outcome.Skipped? <==> stamp != "")
            && (step.outcome.Skipped? ==> step.outcome.executedOn == stamp && SameHistory(tables, step.tables))
  {
  }

  /** `run` is invoked exactly when the script loaded and was not skipped. */
  lemma RanIffNotExecuted(tables: Tables, scriptPath: string, script: Option<Script>, timestamp: string)
    ensures var step := Transition(tables, scriptPath, script, timestamp);
            step.outcome.Ran() <==>
              script.Some? && StampOf(tables, script.value, Basename(scriptPath)) == ""
  {
  }

  /** Only a completed run writes history: every other outcome leaves every
      container's history as it was. */
  lemma FailureKeepsHistory(tables: Tables, scriptPath: string, script: Option<Script>, timestamp: string)
    ensures var step := Transition(tables, scriptPath, script, timestamp);
            !step.outcome.Recorded? ==> SameHistory(tables, step.tables)
  {
  }

  /** After a completed run the target's history is the old list with one
      entry for this script appended, or a new document holding just that
      entry; no other container's or database's history changes. */
  lemma RecordedAppendsOneEntry(tables: Tables, scriptPath: string, script: Script, timestamp: string)
    requires WellKeyed(tables)
    ensures var step := Transition(tables, scriptPath, Some(script), timestamp);
            var db, c := script.databaseName, script.containerName;
            var before := RecordOf(TableOf(tables, db), c);
            var entry := Entry(Basename(scriptPath), timestamp);
            step.outcome.Recorded? ==>
              && RecordOf(TableOf(step.tables, db), c)
                   == Some(Record(c, Some(if before.Some? then before.value.scripts.value + [entry] else [entry])))
              && (forall c' :: c' != c ==> RecordOf(TableOf(step.tables, db), c') == RecordOf(TableOf(tables, db), c'))
              && (forall db' :: db' != db ==> TableOf(step.tables, db') == TableOf(tables, db'))
  {
  }

  /** With no history document for the container, a completed run creates one
      whose id is the container name and which holds exactly one entry. */
  lemma FirstRunCreatesRecord(tables: Tables, scriptPath: string, script: Script, timestamp: string)
    requires script.run.Completes?
    requires RecordOf(TableOf(tables, script.databaseName), script.containerName).None?
    ensures var step := Transition(tables, scriptPath, Some(script), timestamp);
            && step.outcome.Recorded?
            && RecordOf(TableOf(step.tables, script.databaseName), script.containerName)
                 == Some(Record(script.containerName, Some([Entry(Basename(scriptPath), timestamp)])))
  {
  }

  lemma TransitionKeepsWellKeyed(tables: Tables, scriptPath: string, script: Option<Script>, timestamp: string)
    requires WellKeyed(tables)
    ensures WellKeyed(Transition(tables, scriptPath, script, timestamp).tables)
  {
  }

  /** Names in a history list are distinct. */
  predicate UniqueNames(scripts: seq<Entry>)
  {
    forall i, j :: 0 <= i < j < |scripts| ==> scripts[i].scriptName != scripts[j].scriptName
  }

  /** A document this program writes: a `scripts` array of distinct names,
      each with a non-empty (truthy) timestamp. */
  predicate Healthy(rec: Record)
  {
    && rec.scripts.Some?
    && UniqueNames(rec.scripts.value)
    && forall i :: 0 <= i < |rec.scripts.value| ==> rec.scripts.value[i].executedOn != ""
  }

  ghost predicate AllHealthy(tables: Tables)
  {
    forall db, id :: db in tables && id in tables[db] ==> Healthy(tables[db][id])
  }

  /** In a healthy document a name has a truthy `executedOn` exactly when it is listed. */
  lemma {:induction false} HealthyExecutedOn(rec: Record, name: string)
    requires Healthy(rec)
    ensures ExecutedOn(Some(rec), name) != "" <==>
            exists i :: 0 <= i < |rec.scripts.value| && rec.scripts.value[i].scriptName == name
  {
    var e := FindEntry(rec.scripts.value, name);
    if e.Some? {
      var i :| 0 <= i < |rec.scripts.value| && rec.scripts.value[i] == e.value && e.value.scriptName == name;
    }
  }

  /** Executing keeps every document healthy: a script is only appended when
      its name is not listed, and always with a non-empty timestamp. */
  lemma TransitionKeepsHealthy(tables: Tables, scriptPath: string, script: Option<Script>, timestamp: string)
    requires WellKeyed(tables) && AllHealthy(tables)
    requires timestamp != ""
    ensures AllHealthy(Transition(tables, scriptPath, script, timestamp).tables)
  {
    var step := Transition(tables, scriptPath, script, timestamp);
    if step.outcome.Recorded? {
      var s := script.value;
      var db, c, name := s.databaseName, s.containerName, Basename(scriptPath);
      var before := RecordOf(TableOf(tables, db), c);
      RecordedAppendsOneEntry(tables, scriptPath, s, timestamp);
      if before.Some? {
        HealthyExecutedOn(before.value, name);
        var entries := before.value.scripts.value;
        var extended := entries + [Entry(name, timestamp)];
        assert forall i :: 0 <= i < |entries| ==> entries[i].scriptName != name;
        assert UniqueNames(extended) by {
          forall i, j | 0 <= i < j < |extended| ensures extended[i].scriptName != extended[j].scriptName {
            if j == |entries| { assert extended[i] == entries[i]; }
          }
        }
        assert Healthy(Record(c, Some(extended)));
      }
      forall db', id | db' in step.tables && id in step.tables[db'] ensures Healthy(step.tables[db'][id]) {
        if db' != db || id != c { assert RecordOf(TableOf(step.tables, db'), id) == RecordOf(TableOf(tables, db'), id); }
        else { assert RecordOf(TableOf(step.tables, db), c) == Some(step.tables[db'][id]); }
      }
    }
  }

  /** Executing the same script again right after a recorded run is a no-op:
      it is skipped and changes nothing, so a script runs at most once (in a
      healthy document). */
  lemma {:induction false} SecondExecuteSkips(tables: Tables, scriptPath: string, script: Script, t1: string, t2: string)
    requires WellKeyed(tables)
    requires RecordOf(TableOf(tables, script.databaseName), script.containerName).Some? ==>
               Healthy(RecordOf(TableOf(tables, script.databaseName), script.containerName).value)
    requires t1 != ""
    requires Transition(tables, scriptPath, Some(script), t1).outcome.Recorded?
    ensures var after := Transition(tables, scriptPath, Some(script), t1).tables;
            Transition(after, scriptPath, Some(script), t2) == Step(Skipped(t1), after)
  {
    var after := Transition(tables, scriptPath, Some(script), t1).tables;
    var db, c, name := script.databaseName, script.containerName, Basename(scriptPath);
    var before := RecordOf(TableOf(tables, db), c);
    RecordedAppendsOneEntry(tables, scriptPath, script, t1);
    if before.Some? {
      HealthyExecutedOn(before.value, name);
      FindEntryAfterAbsent(before.value.scripts.value, Entry(name, t1));
    } else {
      assert FindEntry([Entry(name, t1)], name) == Some(Entry(name, t1));
    }
    assert StampOf(after, script, name) == t1;
    assert EnsureTable(after, db) == after;
  }

  /** An entry appended to a list that does not hold its name is that name's first match. */
  lemma FindEntryAfterAbsent(scripts: seq<Entry>, e: Entry)
    requires forall i :: 0 <= i < |scripts| ==> scripts[i].scriptName != e.scriptName
    ensures FindEntry(scripts + [e], e.scriptName) == Some(e)
  {
    var r := FindEntry(scripts + [e], e.scriptName);
    assert (scripts + [e])[|scripts|] == e;
    var i :| 0 <= i < |scripts + [e]| && (scripts + [e])[i] == r.value && r.value.scriptName == e.scriptName;
    if i < |scripts| { assert (scripts + [e])[i] == scripts[i]; }
  }

  /** A stored entry with a falsy `executedOn` does not protect its script:
      `find` returns that first match, so the script runs and is listed twice. */
  lemma BlankStampRunsAgain(db: string, c: string, file: string, t: string)
    requires IsEntryName(file) && t != ""
    ensures var tables := map[db := map[c := Record(c, Some([Entry(file, "")]))]];
            var script := Script(db, c, Completes);
            Transition(tables, Join("dir", file), Some(script), t)
              == Step(Recorded, map[db := map[c := Record(c, Some([Entry(file, ""), Entry(file, t)]))]])
  {
    var tables := map[db := map[c := Record(c, Some([Entry(file, "")]))]];
    BasenameOfJoin("dir", file);
    assert FindEntry([Entry(file, "")], file) == Some(Entry(file, ""));
    assert EnsureTable(tables, db) == tables;
    assert [Entry(file, "")] + [Entry(file, t)] == [Entry(file, ""), Entry(file, t)];
    var script := Script(db, c, Completes);
    var migrations := RecordOf(TableOf(tables, db), c);
    assert migrations == Some(Record(c, Some([Entry(file, "")])));
    assert StampOf(tables, script, Basename(Join("dir", file))) == "";
    var item := Appended(migrations, c, Entry(file, t));
    assert item == Record(c, Some([Entry(file, ""), Entry(file, t)]));
    assert Transition(tables, Join("dir", file), Some(script), t) == Step(Recorded, Upsert(tables, db, item));
    assert TableOf(tables, db)[c := item] == map[c := item];
  }

  /** Appending to a list that already holds `name` leaves its first match unchanged. */
  lemma {:induction false} FindEntryAppend(scripts: seq<Entry>, e: Entry, name: string)
    requires FindEntry(scripts, name).Some?
    decreases |scripts|
    ensures FindEntry(scripts + [e], name) == FindEntry(scripts, name)
  {
    assert (scripts + [e])[0] == scripts[0];
    if scripts[0].scriptName != name {
      assert (scripts + [e])[1..] == scripts[1..] + [e];
      FindEntryAppend(scripts[1..], e, name);
    }
  }

  /** When the first entry named like the script has an empty `executedOn`,
      a completed run is recorded and that first entry stays as it was, so
      the script runs again on every later execute and gains one more entry
      each time. */
  lemma BlankFirstEntryRunsEveryTime(tables: Tables, scriptPath: string, script: Script, timestamp: string)
    requires WellKeyed(tables) && script.run.Completes?
    requires RecordOf(TableOf(tables, script.databaseName), script.containerName).Some?
    requires RecordOf(TableOf(tables, script.databaseName), script.containerName).value.scripts.Some?
    requires FindEntry(RecordOf(TableOf(tables, script.databaseName), script.containerName).value.scripts.value,
                       Basename(scriptPath)) == Some(Entry(Basename(scriptPath), ""))
    ensures var step := Transition(tables, scriptPath, Some(script), timestamp);
            var after := RecordOf(TableOf(step.tables, script.databaseName), script.containerName);
            && step.outcome.Recorded?
            && WellKeyed(step.tables)
            && after.Some? && after.value.scripts.Some?
            && FindEntry(after.value.scripts.value, Basename(scriptPath)) == Some(Entry(Basename(scriptPath), ""))
  {
    var name := Basename(scriptPath);
    var before := RecordOf(TableOf(tables, script.databaseName), script.containerName).value.scripts.value;
    RecordedAppendsOneEntry(tables, scriptPath, script, timestamp);
    TransitionKeepsWellKeyed(tables, scriptPath, Some(script), timestamp);
    FindEntryAppend(before, Entry(name, timestamp), name);
  }

  /** The `_migrations` containers as the Cosmos DB client sees them. */
  class HistoryStore {
    var tables: Tables

    ghost predicate Valid()
      reads this
    {
      WellKeyed(tables)
    }

    constructor (initial: Tables)
      requires WellKeyed(initial)
      ensures Valid() && tables == initial
    {
      tables := initial;
    }

    /** `executeMigration(client, scriptPath)`: looks up the target
        container's history, skips a script already executed, otherwise runs
        it and, if the run completes, upserts the history with one new entry. */
    method Execute(scriptPath: string, script: Option<Script>, timestamp: string) returns (outcome: Outcome)
      requires Valid()
      modifies this
      ensures Valid()
      ensures Step(outcome, tables) == Transition(old(tables), scriptPath, script, timestamp)
      ensures !outcome.Recorded? ==> SameHistory(old(tables), tables)
    {
      if script.None? {
        return LoadFailed;
      }
      var s := script.value;
      if s.databaseName !in tables {
        tables := tables[s.databaseName := map[]];
      }
      var container := tables[s.databaseName];
      var scriptName := Basename(scriptPath);
      var migrations := RecordOf(container, s.containerName);
      var executedOn := ExecutedOn(migrations, scriptName);
      if executedOn != "" {
        return Skipped(executedOn);
      }
      if s.run.Throws? {
        return RunFailed(s.run.error);
      }
      var item: Record;
      if migrations.Some? {
        if migrations.value.scripts.None? {
          return PushFailed;
        }
        item := Record(migrations.value.id, Some(migrations.value.scripts.value + [Entry(scriptName, timestamp)]));
      } else {
        item := Record(s.containerName, Some([Entry(scriptName, timestamp)]));
      }
      tables := tables[s.databaseName := container[item.id := item]];
      outcome := Recorded;
    }
  }
}
