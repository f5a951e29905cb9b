/** `migrate`: checks the configuration, selects the migration scripts of the
    migrations folder and executes them one after another, stopping at the
    first one that fails. The folder listing, the set of existing paths, the
    loaded scripts and the clock readings are inputs. */
module Driver {
  import opened Common
  import opened Paths
  import opened Listing
  import opened Config
  import opened History

  const DbUrlError := "Environment var DB_URL or --dbURL option must be provided!"
  const DbKeyError := "Environment var DB_KEY or --dbKey option must be provided!"
  const DirError := MigrationsDirError

  /** The scripts beyond this many make `migrate` refuse to run. */
  const MaxMigrations := 200
  /** The scripts beyond this many make `migrate` warn. */
  const WarnMigrations := 100

  /** The position of a configuration message in the fixed reporting order. */
  function ConfigRank(m: string): nat
  {
    if m == DbUrlError then 0 else if m == DbKeyError then 1 else 2
  }

  /** `errors` is the report for these settings: a message for each missing
      setting, in the order DB_URL, DB_KEY, MIGRATIONS_DIR, and nothing else. */
  predicate ConfigReport(errors: seq<string>, endpoint: string, key: string, dirExists: bool)
  {
    && (DbUrlError in errors <==> endpoint == "")
    && (DbKeyError in errors <==> key == "")
    && (DirError in errors <==> !dirExists)
    && (forall i :: 0 <= i < |errors| ==> errors[i] in [DbUrlError, DbKeyError, DirError])
    && (forall i, j :: 0 <= i < j < |errors| ==> ConfigRank(errors[i]) < ConfigRank(errors[j]))
  }

  /** The `errors` array of `migrate`, built by successive pushes. */
  method ConfigErrors(endpoint: string, key: string, dirExists: bool) returns (errors: seq<string>)
    ensures ConfigReport(errors, endpoint, key, dirExists)
  {
    errors := [];
    if endpoint == "" {
      errors := errors + [DbUrlError];
    }
    if key == "" {
      errors := errors + [DbKeyError];
    }
    if !dirExists {
      errors := errors + [DirError];
    }
  }

  /** A report is empty exactly when every setting is present. */
  lemma ConfigReportEmpty(errors: seq<string>, endpoint: string, key: string, dirExists: bool)
    requires ConfigReport(errors, endpoint, key, dirExists)
    ensures errors == [] <==> endpoint != "" && key != "" && dirExists
  {
    if errors != [] {
      assert errors[0] in [DbUrlError, DbKeyError, DirError];
    }
  }

  lemma {:induction false} RankAtLeast(errors: seq<string>, k: nat)
    requires forall i, j :: 0 <= i < j < |errors| ==> ConfigRank(errors[i]) < ConfigRank(errors[j])
    requires k < |errors|
    ensures ConfigRank(errors[k]) >= k
  {
    if k > 0 { RankAtLeast(errors, k - 1); }
  }

  /** With nothing configured and no folder, the report is all three messages
      in their fixed order. */
  lemma ConfigReportAllMissing(errors: seq<string>)
    requires ConfigReport(errors, "", "", false)
    ensures errors == [DbUrlError, DbKeyError, DirError]
  {
    var i0 :| 0 <= i0 < |errors| && errors[i0] == DbUrlError;
    var i1 :| 0 <= i1 < |errors| && errors[i1] == DbKeyError;
    var i2 :| 0 <= i2 < |errors| && errors[i2] == DirError;
    assert i0 < i1 < i2;
    RankAtLeast(errors, |errors| - 1);
    assert |errors| == 3;
  }

  /** One script `migrate` handed to `executeMigration`, and how that ended. */
  datatype Executed = Executed(file: string, outcome: Outcome)

  datatype Run = Run(trace: seq<Executed>, tables: Tables)

  function LoadScript(scripts: map<string, Script>, path: string): Option<Script>
  {
    if path in scripts then Some(scripts[path]) else None
  }

  /** The loop over the selected files: each is executed as `${dir}/${file}`
      with the next clock reading, and a failure ends the loop. */
  function RunAll(tables: Tables, dir: string, files: seq<string>, scripts: map<string, Script>,
                  stamps: seq<string>): Run
    requires |files| <= |stamps|
    decreases files
  {
    if files == [] then Run([], tables)
    else
      var path := Join(dir, files[0]);
      var step := Transition(tables, path, LoadScript(scripts, path), stamps[0]);
      if step.outcome.IsFailure() then Run([Executed(files[0], step.outcome)], step.tables)
      else
        var rest := RunAll(step.tables, dir, files[1..], scripts, stamps[1..]);
        Run([Executed(files[0], step.outcome)] + rest.trace, rest.tables)
  }

  /** No executed script of `trace` failed. */
  predicate NoFailure(trace: seq<Executed>)
  {
    forall k :: 0 <= k < |trace| ==> !trace[k].outcome.IsFailure()
  }

  /** A run over `files1 + files2` in which no file of `files1` fails is the
      run over `files1` followed by the run over `files2` from the history it
      leaves, with the clock readings that remain. */
  lemma {:induction false} RunAllAppend(tables: Tables, dir: string, files1: seq<string>, files2: seq<string>,
                                        scripts: map<string, Script>, stamps: seq<string>)
    requires |files1| + |files2| <= |stamps|
    requires NoFailure(RunAll(tables, dir, files1, scripts, stamps).trace)
    decreases files1
    ensures var first := RunAll(tables, dir, files1, scripts, stamps);
            var second := RunAll(first.tables, dir, files2, scripts, stamps[|files1|..]);
            RunAll(tables, dir, files1 + files2, scripts, stamps) == Run(first.trace + second.trace, second.tables)
  {
    if files1 == [] {
      assert files1 + files2 == files2 && stamps[0..] == stamps;
    } else {
      var path := Join(dir, files1[0]);
      var step := Transition(tables, path, LoadScript(scripts, path), stamps[0]);
      RunAllStep(tables, dir, files1, scripts, stamps, step);
      var first := RunAll(tables, dir, files1, scripts, stamps);
      var rest := RunAll(step.tables, dir, files1[1..], scripts, stamps[1..]);
      assert first.trace[0].outcome == step.outcome;
      assert !step.outcome.IsFailure() && first == Run([first.trace[0]] + rest.trace, rest.tables);
      NoFailureTail(first.trace[0], rest.trace);
      RunAllAppend(step.tables, dir, files1[1..], files2, scripts, stamps[1..]);
      assert stamps[1..][|files1[1..]|..] == stamps[|files1|..];
      var files := files1 + files2;
      TailOfAppend(files1, files2);
      RunAllStep(tables, dir, files, scripts, stamps, step);
      var second := RunAll(rest.tables, dir, files2, scripts, stamps[|files1|..]);
      RunGlue(first.trace[0], first, rest, RunAll(tables, dir, files, scripts, stamps),
              RunAll(step.tables, dir, files[1..], scripts, stamps[1..]), second);
    }
  }

  lemma NoFailureTail(e: Executed, trace: seq<Executed>)
    requires NoFailure([e] + trace)
    ensures NoFailure(trace)
  {
    forall k | 0 <= k < |trace| ensures !trace[k].outcome.IsFailure() {
      assert trace[k] == ([e] + trace)[k + 1];
    }
  }

  lemma TailOfAppend(a: seq<string>, b: seq<string>)
    requires a != []
    ensures (a + b)[0] == a[0] && (a + b)[1..] == a[1..] + b
  {
  }

  lemma RunGlue(e: Executed, first: Run, rest: Run, whole: Run, tail: Run, second: Run)
    requires first == Run([e] + rest.trace, rest.tables)
    requires whole == Run([e] + tail.trace, tail.tables)
    requires tail == Run(rest.trace + second.trace, second.tables)
    ensures whole == Run(first.trace + second.trace, second.tables)
  {
    assert [e] + (rest.trace + second.trace) == ([e] + rest.trace) + second.trace;
  }

  /** One turn of the loop: the first file's step, then the rest unless it failed. */
  lemma RunAllStep(tables: Tables, dir: string, files: seq<string>, scripts: map<string, Script>,
                   stamps: seq<string>, step: Step)
    requires 0 < |files| <= |stamps|
    requires step == Transition(tables, Join(dir, files[0]), LoadScript(scripts, Join(dir, files[0])), stamps[0])
    ensures RunAll(tables, dir, files, scripts, stamps)
            == if step.outcome.IsFailure() then Run([Executed(files[0], step.outcome)], step.tables)
               else var rest := RunAll(step.tables, dir, files[1..], scripts, stamps[1..]);
                    Run([Executed(files[0], step.outcome)] + rest.trace, rest.tables)
  {
  }

  /** `trace` records the first `|trace|` files executed one after another,
      `states` the history before the first and after each of them. */
  ghost predicate StepsAgree(dir: string, files: seq<string>, scripts: map<string, Script>, stamps: seq<string>,
                             trace: seq<Executed>, states: seq<Tables>)
  {
    && |trace| <= |files| <= |stamps| && |states| == |trace| + 1
    && forall k :: 0 <= k < |trace| ==>
         && trace[k].file == files[k]
         && Step(trace[k].outcome, states[k + 1])
            == Transition(states[k], Join(dir, files[k]), LoadScript(scripts, Join(dir, files[k])), stamps[k])
  }

  /** One more step of the chain, for the next file. */
  lemma StepsAgreeExtend(dir: string, files: seq<string>, scripts: map<string, Script>, stamps: seq<string>,
                         trace: seq<Executed>, states: seq<Tables>, e: Executed, after: Tables)
    requires StepsAgree(dir, files, scripts, stamps, trace, states) && |trace| < |files|
    requires e.file == files[|trace|]
    requires Step(e.outcome, after) == Transition(states[|trace|], Join(dir, files[|trace|]),
                                                  LoadScript(scripts, Join(dir, files[|trace|])), stamps[|trace|])
    ensures StepsAgree(dir, files, scripts, stamps, trace + [e], states + [after])
  {
    var trace', states' := trace + [e], states + [after];
    forall k | 0 <= k < |trace'|
      ensures && trace'[k].file == files[k]
              && Step(trace'[k].outcome, states'[k + 1])
                 == Transition(states'[k], Join(dir, files[k]), LoadScript(scripts, Join(dir, files[k])), stamps[k])
    {
      assert states'[k] == states[k];
      if k < |trace| { assert trace'[k] == trace[k] && states'[k + 1] == states[k + 1]; }
    }
  }

  /** Dropping the first step of a chain leaves a chain for the remaining files. */
  lemma StepsAgreeTail(dir: string, files: seq<string>, scripts: map<string, Script>, stamps: seq<string>,
                       trace: seq<Executed>, states: seq<Tables>)
    requires StepsAgree(dir, files, scripts, stamps, trace, states) && trace != []
    ensures StepsAgree(dir, files[1..], scripts, stamps[1..], trace[1..], states[1..])
  {
    forall k | 0 <= k < |trace| - 1
      ensures && trace[1..][k].file == files[1..][k]
              && Step(trace[1..][k].outcome, states[1..][k + 1])
                 == Transition(states[1..][k], Join(dir, files[1..][k]),
                               LoadScript(scripts, Join(dir, files[1..][k])), stamps[1..][k])
    {
      assert trace[1..][k] == trace[k + 1] && files[1..][k] == files[k + 1] && stamps[1..][k] == stamps[k + 1];
      assert states[1..][k] == states[k + 1] && states[1..][k + 1] == states[k + 2];
    }
  }

  /** A chain of steps that runs to the end of the files, or stops at its
      first failure, is what `RunAll` computes. */
  lemma {:induction false} RunAllAgrees(tables: Tables, dir: string, files: seq<string>, scripts: map<string, Script>,
                                        stamps: seq<string>, trace: seq<Executed>, states: seq<Tables>)
    requires StepsAgree(dir, files, scripts, stamps, trace, states) && states[0] == tables
    requires forall k :: 0 <= k < |trace| - 1 ==> !trace[k].outcome.IsFailure()
    requires || (trace != [] && trace[|trace| - 1].outcome.IsFailure())
             || (|trace| == |files| && forall k :: 0 <= k < |trace| ==> !trace[k].outcome.IsFailure())
    decreases files
    ensures RunAll(tables, dir, files, scripts, stamps) == Run(trace, states[|trace|])
  {
    if files != [] {
      assert trace != [];
      var path := Join(dir, files[0]);
      var step := Transition(tables, path, LoadScript(scripts, path), stamps[0]);
      assert step == Step(trace[0].outcome, states[1]);
      if !step.outcome.IsFailure() {
        assert |trace| > 1 || |files| == 1;
        if |files| > 1 {
          StepsAgreeTail(dir, files, scripts, stamps, trace, states);
          RunAllAgrees(states[1], dir, files[1..], scripts, stamps[1..], trace[1..], states[1..]);
        }
        assert trace == [trace[0]] + trace[1..];
      }
    }
  }

  /** The loop is fail-fast: the files are executed in order, every one but
      the last executed succeeded, and the loop stops early only after a failure. */
  lemma {:induction false} RunAllFailFast(tables: Tables, dir: string, files: seq<string>,
                                          scripts: map<string, Script>, stamps: seq<string>)
    requires |files| <= |stamps|
    decreases files
    ensures var run := RunAll(tables, dir, files, scripts, stamps);
            && |run.trace| <= |files|
            && (forall i :: 0 <= i < |run.trace| ==> run.trace[i].file == files[i])
            && (forall i :: 0 <= i < |run.trace| - 1 ==> !run.trace[i].outcome.IsFailure())
            && (|run.trace| < |files| ==> run.trace != [] && run.trace[|run.trace| - 1].outcome.IsFailure())
  {
    if files != [] {
      var path := Join(dir, files[0]);
      var step := Transition(tables, path, LoadScript(scripts, path), stamps[0]);
      if !step.outcome.IsFailure() {
        RunAllFailFast(step.tables, dir, files[1..], scripts, stamps[1..]);
      }
    }
  }

  /** A run touches the history only through `executeMigration`, so it keeps
      every document stored under its id and, with non-empty clock readings,
      every document healthy (distinct names, truthy stamps). */
  lemma {:induction false} RunAllKeepsHistoryValid(tables: Tables, dir: string, files: seq<string>,
                                                   scripts: map<string, Script>, stamps: seq<string>)
    requires |files| <= |stamps|
    requires WellKeyed(tables)
    decreases files
    ensures WellKeyed(RunAll(tables, dir, files, scripts, stamps).tables)
    ensures AllHealthy(tables) && (forall i :: 0 <= i < |stamps| ==> stamps[i] != "")
            ==> AllHealthy(RunAll(tables, dir, files, scripts, stamps).tables)
  {
    if files != [] {
      var path := Join(dir, files[0]);
      var step := Transition(tables, path, LoadScript(scripts, path), stamps[0]);
      TransitionKeepsWellKeyed(tables, path, LoadScript(scripts, path), stamps[0]);
      if AllHealthy(tables) && (forall i :: 0 <= i < |stamps| ==> stamps[i] != "") {
        TransitionKeepsHealthy(tables, path, LoadScript(scripts, path), stamps[0]);
      }
      if !step.outcome.IsFailure() {
        RunAllKeepsHistoryValid(step.tables, dir, files[1..], scripts, stamps[1..]);
        assert forall i :: 0 <= i < |stamps[1..]| ==> stamps[1..][i] == stamps[i + 1];
      }
    }
  }

  /** When the first file fails, nothing else is executed and no history changes. */
  lemma FirstFailureStopsRun(tables: Tables, dir: string, files: seq<string>,
                             scripts: map<string, Script>, stamps: seq<string>)
    requires 0 < |files| <= |stamps|
    requires Transition(tables, Join(dir, files[0]), LoadScript(scripts, Join(dir, files[0])), stamps[0]).outcome.IsFailure()
    ensures var run := RunAll(tables, dir, files, scripts, stamps);
            |run.trace| == 1 && SameHistory(tables, run.tables)
  {
    FailureKeepsHistory(tables, Join(dir, files[0]), LoadScript(scripts, Join(dir, files[0])), stamps[0]);
  }

  datatype MigrateOutcome =
    | ConfigInvalid(errors: seq<string>)          // errors printed, then `process.exit(1)`
    | NothingToMigrate                            // the folder is empty
    | TooManyMigrations(count: nat)               // `migrate` throws before executing anything
    | Finished(trace: seq<Executed>, warned: bool) // every selected script was executed
    | Aborted(trace: seq<Executed>, warned: bool)  // the last one failed, then `process.exit(1)`
  {
    /** `migrate` ends with `process.exit(1)`. */
    predicate ExitsWithOne()
    {
      ConfigInvalid? || Aborted?
    }
  }

  /** The configuration `migrate` accepts: both credentials given and the
      resolved folder present. */
  predicate ConfigOk(s: Settings, cwd: string, existing: set<string>)
  {
    s.dbUrl != "" && s.dbKey != "" && Resolve(cwd, s.migrationsDir) in existing
  }

  /** `migrate(options)`, with `env` the process environment after
      `dotenv.config()`, `existing` the paths that exist, `listing` what
      `readdirSync` returns for the migrations folder, `scripts` the modules
      `require` loads by path and `stamps` successive clock readings. */
  method Migrate(options: Settings, env: Settings, cwd: string, existing: set<string>, listing: seq<string>,
                 scripts: map<string, Script>, stamps: seq<string>, store: HistoryStore)
    returns (outcome: MigrateOutcome)
    requires store.Valid()
    requires |listing| <= |stamps|
    modifies store
    ensures store.Valid()
    ensures var s := Resolved(options, env);
            && (outcome.ConfigInvalid? <==> !ConfigOk(s, cwd, existing))
            && (outcome.ConfigInvalid? ==>
                  ConfigReport(outcome.errors, s.dbUrl, s.dbKey, Resolve(cwd, s.migrationsDir) in existing))
    ensures ConfigOk(Resolved(options, env), cwd, existing) ==> (outcome.NothingToMigrate? <==> listing == [])
    ensures outcome.TooManyMigrations? <==>
              ConfigOk(Resolved(options, env), cwd, existing) && listing != [] && |SelectScripts(listing)| > MaxMigrations
    ensures outcome.TooManyMigrations? ==> outcome.count == |SelectScripts(listing)|
    ensures outcome.ConfigInvalid? || outcome.NothingToMigrate? || outcome.TooManyMigrations? ==>
              store.tables == old(store.tables)
    ensures outcome.Finished? || outcome.Aborted? ==>
              var run := RunAll(old(store.tables), Resolve(cwd, Resolved(options, env).migrationsDir),
                                SelectScripts(listing), scripts, stamps);
              && outcome.trace == run.trace
              && store.tables == run.tables
              && outcome.warned == (|SelectScripts(listing)| > WarnMigrations)
              && (outcome.Aborted? <==> run.trace != [] && run.trace[|run.trace| - 1].outcome.IsFailure())
  {
    var settings := Resolved(options, env);
    var endpoint, key := settings.dbUrl, settings.dbKey;
    var migrationsDir := Resolve(cwd, settings.migrationsDir);
    var errors := ConfigErrors(endpoint, key, migrationsDir in existing);
    ConfigReportEmpty(errors, endpoint, key, migrationsDir in existing);
    if |errors| > 0 {
      return ConfigInvalid(errors);
    }
    var migrationFiles := SortNames(listing);
    if |migrationFiles| == 0 {
      return NothingToMigrate;
    }
    migrationFiles := ScriptsOf(migrationFiles);
    assert migrationFiles == SelectScripts(listing);
    if |migrationFiles| > MaxMigrations {
      return TooManyMigrations(|migrationFiles|);
    }
    var warned := |migrationFiles| > WarnMigrations;
    var trace, failed := ExecuteInOrder(migrationsDir, migrationFiles, scripts, stamps, store);
    if failed {
      return Aborted(trace, warned);
    }
    return Finished(trace, warned);
  }

  /** The `for ... of` loop of `migrate` inside its `try`: executes the files in
      order and leaves the loop at the first `executeMigration` that throws. */
  method ExecuteInOrder(dir: string, files: seq<string>, scripts: map<string, Script>, stamps: seq<string>,
                        store: HistoryStore)
    returns (trace: seq<Executed>, failed: bool)
    requires store.Valid()
    requires |files| <= |stamps|
    modifies store
    ensures store.Valid()
    ensures var run := RunAll(old(store.tables), dir, files, scripts, stamps);
            && trace == run.trace
            && store.tables == run.tables
            && (failed <==> trace != [] && trace[|trace| - 1].outcome.IsFailure())
  {
    ghost var states: seq<Tables> := [store.tables];
    trace := [];
    var i := 0;
    while i < |files|
      invariant 0 <= i <= |files| && |trace| == i && |states| == i + 1
      invariant states[0] == old(store.tables) && states[i] == store.tables
      invariant store.Valid()
      invariant forall k :: 0 <= k < i ==> !trace[k].outcome.IsFailure()
      invariant StepsAgree(dir, files, scripts, stamps, trace, states)
    {
      var file := files[i];
      var path := Join(dir, file);
      var executed := store.Execute(path, LoadScript(scripts, path), stamps[i]);
      StepsAgreeExtend(dir, files, scripts, stamps, trace, states, Executed(file, executed), store.tables);
      trace := trace + [Executed(file, executed)];
      states := states + [store.tables];
      if executed.IsFailure() {
        RunAllAgrees(old(store.tables), dir, files, scripts, stamps, trace, states);
        return trace, true;
      }
      i := i + 1;
    }
    RunAllAgrees(old(store.tables), dir, files, scripts, stamps, trace, states);
    failed := false;
  }
}
