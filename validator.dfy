/** `validate`: loads every migration script of the migrations folder and
    checks the shape of what it exports, without touching a database. A
    script's exports are modelled as a JavaScript value; loading a module is
    an input that either yields that value or fails with a message. */
module Validator {
  import opened Common
  import opened Paths
  import opened Listing
  import opened Config

  /** What a module can export, as far as `validateScriptStructure` can tell
      the values apart: `typeof` and truthiness. Booleans, numbers, bigints
      and symbols are `Primitive`s that are only truthy or not. */
  datatype JsValue =
    | Undefined
    | Null
    | Primitive(truthy: bool)
    | Str(s: string)
    | Func
    | Obj(props: map<string, JsValue>)
  {
    /** JavaScript's `!!v` */
    predicate Truthy()
    {
      match this
      case Undefined => false
      case Null => false
      case Primitive(t) => t
      case Str(s) => s != ""
      case Func => true
      case Obj(_) => true
    }
  }

  /** `obj[key]`: a property that is not there reads as `undefined`. */
  function Get(props: map<string, JsValue>, key: string): JsValue
  {
    if key in props then props[key] else Undefined
  }

  /** `!script || typeof script !== 'object'` fails exactly for these. */
  predicate IsObject(v: JsValue)
  {
    v.Truthy() && v.Obj?
  }

  /** `!v || typeof v !== 'string'` fails exactly for these. */
  predicate IsNonEmptyString(v: JsValue)
  {
    v.Truthy() && v.Str?
  }

  /** `typeof props[key] === 'function'` */
  predicate HasFunction(props: map<string, JsValue>, key: string)
  {
    Get(props, key).Func?
  }

  /** The checks made on an exported object, in the order they are made. */
  datatype Rule = DatabaseNameRule | ContainerNameRule | ModeRule | QueryRule | BothModesRule

  const AllRules := [DatabaseNameRule, ContainerNameRule, ModeRule, QueryRule, BothModesRule]

  function Rank(r: Rule): nat
  {
    match r
    case DatabaseNameRule => 0
    case ContainerNameRule => 1
    case ModeRule => 2
    case QueryRule => 3
    case BothModesRule => 4
  }

  /** When a rule reports its finding for an object with these properties. */
  predicate Violates(r: Rule, props: map<string, JsValue>)
  {
    match r
    case DatabaseNameRule => !IsNonEmptyString(Get(props, "databaseName"))
    case ContainerNameRule => !IsNonEmptyString(Get(props, "containerName"))
    case ModeRule => !HasFunction(props, "updateItem") && !HasFunction(props, "run")
    case QueryRule =>
      var q := Get(props, "query");
      HasFunction(props, "updateItem") && (!IsNonEmptyString(q) || Trim(q.s) == "")
    case BothModesRule => HasFunction(props, "updateItem") && HasFunction(props, "run")
  }

  /** One string of a script's error list, told apart by what caused it; its
      text is `Text`. */
  datatype Finding =
    | NotAnObject
    | Broken(rule: Rule)
    | LoadFailure(cause: string)

  /** The prefix that marks a finding as a warning rather than an error. */
  const WarningPrefix := "[warning]"
  /** The phrase both required-export messages start with. */
  const MissingExport := "Missing or invalid required export: "
  /** What a script that cannot be loaded is reported with, before the cause. */
  const LoadFailurePrefix := "Failed to load script: "

  /** The message pushed for each finding, word for word. */
  function Text(f: Finding): string
  {
    match f
    case NotAnObject => "Module did not export an object."
    case Broken(DatabaseNameRule) => MissingExport + "databaseName (string)."
    case Broken(ContainerNameRule) => MissingExport + "containerName (string)."
    case Broken(ModeRule) =>
      "Script must export either " + "updateItem(item, axios) or run(database, container, axios) function."
    case Broken(QueryRule) =>
      "When updateItem() is exported, " + "a non-empty string export \"query\" is required."
    case Broken(BothModesRule) =>
      WarningPrefix + " Both updateItem() and run() are exported. updateItem() takes precedence during execution."
    case LoadFailure(cause) => LoadFailurePrefix + cause
  }

  /** A finding that is not a warning. */
  predicate IsHard(f: Finding)
  {
    f != Broken(BothModesRule)
  }

  /** `!String(err).startsWith('[warning]')` tells the hard findings from the
      warnings: only the both-modes message starts with the prefix. */
  lemma HardIffNoWarningPrefix(f: Finding)
    ensures IsHard(f) <==> !StartsWith(Text(f), WarningPrefix)
  {
    var t := Text(f);
    match f
    case Broken(BothModesRule) => assert t[..|WarningPrefix|] == WarningPrefix;
    case LoadFailure(cause) => assert t[0] == LoadFailurePrefix[0] == 'F';
    case NotAnObject => assert t[0] == 'M';
    case Broken(DatabaseNameRule) => assert t[0] == MissingExport[0] == 'M';
    case Broken(ContainerNameRule) => assert t[0] == MissingExport[0] == 'M';
    case Broken(ModeRule) => assert t[0] == 'S';
    case Broken(QueryRule) => assert t[0] == 'W';
  }

  /** The rules of `rules` that an object with these properties violates, in order. */
  function Fired(rules: seq<Rule>, props: map<string, JsValue>): seq<Rule>
  {
    if rules == [] then []
    else if Violates(rules[0], props) then [rules[0]] + Fired(rules[1..], props)
    else Fired(rules[1..], props)
  }

  /** The finding of each rule, rule by rule. */
  function FindingsOf(rules: seq<Rule>): (r: seq<Finding>)
    ensures |r| == |rules|
    ensures forall i :: 0 <= i < |rules| ==> r[i] == Broken(rules[i])
  {
    if rules == [] then [] else [Broken(rules[0])] + FindingsOf(rules[1..])
  }

  /** What `validateScriptStructure` reports for an export: one finding for a
      non-object, otherwise the finding of every violated rule in the order
      the rules are checked. */
  function StructureErrors(script: JsValue): seq<Finding>
  {
    if !IsObject(script) then [NotAnObject] else FindingsOf(Fired(AllRules, script.props))
  }

  /** `validateScriptStructure(script)`, building the list by successive pushes.
      The file name it is also passed is not used. */
  method ValidateScriptStructure(script: JsValue) returns (errors: seq<Finding>)
    ensures errors == StructureErrors(script)
  {
    errors := [];
    if !script.Truthy() || !script.Obj? {
      errors := errors + [NotAnObject];
      return errors;
    }
    var props := script.props;
    ghost var before := errors;
    var databaseName := Get(props, "databaseName");
    if !databaseName.Truthy() || !databaseName.Str? {
      errors := errors + [Broken(DatabaseNameRule)];
    }
    assert errors == Check(before, DatabaseNameRule, props);
    before := errors;
    var containerName := Get(props, "containerName");
    if !containerName.Truthy() || !containerName.Str? {
      errors := errors + [Broken(ContainerNameRule)];
    }
    assert errors == Check(before, ContainerNameRule, props);
    before := errors;
    var hasUpdateItem := Get(props, "updateItem").Func?;
    var hasRun := Get(props, "run").Func?;
    if !hasUpdateItem && !hasRun {
      errors := errors + [Broken(ModeRule)];
    }
    assert errors == Check(before, ModeRule, props);
    before := errors;
    if hasUpdateItem {
      var query := Get(props, "query");
      if !query.Truthy() || !query.Str? || Trim(query.s) == "" {
        errors := errors + [Broken(QueryRule)];
      }
    }
    assert errors == Check(before, QueryRule, props);
    before := errors;
    if hasUpdateItem && hasRun {
      errors := errors + [Broken(BothModesRule)];
    }
    assert errors == Check(before, BothModesRule, props);
    ReportIsStructure(props);
  }

  /** Checking rules one after the other gives the structure errors of an object. */
  lemma ReportIsStructure(props: map<string, JsValue>)
    ensures FindingsOf(Fired(AllRules, props))
            == Check(Check(Check(Check(Check([], DatabaseNameRule, props), ContainerNameRule, props),
                                       ModeRule, props), QueryRule, props), BothModesRule, props)
  {
    ReportIsFired([], AllRules, props);
    assert [] + FindingsOf(Fired(AllRules, props)) == FindingsOf(Fired(AllRules, props));
    AllRulesInOrder();
    ReportAt([], AllRules, 0, props);
    ReportAt(Check([], DatabaseNameRule, props), AllRules, 1, props);
  }

  lemma AllRulesInOrder()
    ensures AllRules[0..] == AllRules && AllRules[5..] == []
    ensures AllRules[0] == DatabaseNameRule && AllRules[1] == ContainerNameRule && AllRules[2] == ModeRule
    ensures AllRules[3] == QueryRule && AllRules[4] == BothModesRule
  {
  }

  /** Checking one rule: its finding is pushed when the rule is violated. */
  function Check(acc: seq<Finding>, r: Rule, props: map<string, JsValue>): seq<Finding>
  {
    if Violates(r, props) then acc + [Broken(r)] else acc
  }

  lemma ReportAt(acc: seq<Finding>, rules: seq<Rule>, k: nat, props: map<string, JsValue>)
    requires k < |rules|
    ensures Report(acc, rules[k..], props) == Report(Check(acc, rules[k], props), rules[k + 1..], props)
  {
    assert rules[k..][0] == rules[k] && rules[k..][1..] == rules[k + 1..];
  }

  /** The report built the way `validateScriptStructure` builds it: going
      through `rules` in order and pushing the finding of each violated one
      onto `acc`. */
  function Report(acc: seq<Finding>, rules: seq<Rule>, props: map<string, JsValue>): seq<Finding>
    decreases rules
  {
    if rules == [] then acc
    else Report(Check(acc, rules[0], props), rules[1..], props)
  }

  /** Pushing as the rules are checked yields the findings of the rules that fire. */
  lemma {:induction false} ReportIsFired(acc: seq<Finding>, rules: seq<Rule>, props: map<string, JsValue>)
    decreases rules
    ensures Report(acc, rules, props) == acc + FindingsOf(Fired(rules, props))
  {
    if rules == [] {
      assert acc + [] == acc;
    } else {
      var r := rules[0];
      var acc' := Check(acc, r, props);
      ReportIsFired(acc', rules[1..], props);
      var rest := FindingsOf(Fired(rules[1..], props));
      if Violates(r, props) {
        assert Fired(rules, props) == [r] + Fired(rules[1..], props);
        FindingsCons(r, Fired(rules[1..], props));
        AppendAssoc(acc, [Broken(r)], rest);
      } else {
        assert Fired(rules, props) == Fired(rules[1..], props);
      }
    }
  }

  lemma FindingsCons(r: Rule, rules: seq<Rule>)
    ensures FindingsOf([r] + rules) == [Broken(r)] + FindingsOf(rules)
  {
    assert ([r] + rules)[1..] == rules;
  }

  lemma AppendAssoc(a: seq<Finding>, b: seq<Finding>, c: seq<Finding>)
    ensures (a + b) + c == a + (b + c)
  {
  }

  predicate Increasing(rules: seq<Rule>)
  {
    forall i, j :: 0 <= i < j < |rules| ==> Rank(rules[i]) < Rank(rules[j])
  }

  /** `Fired` keeps exactly the violated rules, in their order. */
  lemma {:induction false} FiredSpec(rules: seq<Rule>, props: map<string, JsValue>)
    requires Increasing(rules)
    ensures Increasing(Fired(rules, props))
    ensures forall r :: r in Fired(rules, props) <==> r in rules && Violates(r, props)
    ensures |Fired(rules, props)| <= |rules|
  {
    if rules != [] {
      FiredSpec(rules[1..], props);
      var rest := Fired(rules[1..], props);
      forall j | 0 <= j < |rest| ensures Rank(rules[0]) < Rank(rest[j]) {
        assert rest[j] in rules[1..];
        var k :| 0 <= k < |rules[1..]| && rules[1..][k] == rest[j];
        assert rules[k + 1] == rest[j];
      }
      assert rules == [rules[0]] + rules[1..];
    }
  }

  /** The findings of the violated rules of a list in rank order: one per
      violated rule, each a rule finding, in rank order. */
  lemma FindingsOfFired(rules: seq<Rule>, props: map<string, JsValue>)
    requires Increasing(rules)
    ensures var errors := FindingsOf(Fired(rules, props));
            && |errors| <= |rules|
            && (forall r :: Broken(r) in errors <==> r in rules && Violates(r, props))
            && (forall i :: 0 <= i < |errors| ==> errors[i].Broken?)
            && (forall i, j :: 0 <= i < j < |errors| ==> Rank(errors[i].rule) < Rank(errors[j].rule))
  {
    var fired := Fired(rules, props);
    var errors := FindingsOf(fired);
    FiredSpec(rules, props);
    forall r ensures Broken(r) in errors <==> r in fired {
      if Broken(r) in errors {
        var i :| 0 <= i < |errors| && errors[i] == Broken(r);
        assert fired[i] == r;
      }
      if r in fired {
        var i :| 0 <= i < |fired| && fired[i] == r;
        assert errors[i] == Broken(r);
      }
    }
  }

  /** For an exported object: at most one finding per rule, in the rule
      order; each rule's finding appears exactly when the rule is violated;
      the both-modes warning comes last. */
  lemma StructureErrorsSpec(script: JsValue)
    requires IsObject(script)
    ensures var errors := StructureErrors(script);
            && |errors| <= |AllRules|
            && (forall r :: Broken(r) in errors <==> Violates(r, script.props))
            && (forall i :: 0 <= i < |errors| ==> errors[i].Broken?)
            && (forall i, j :: 0 <= i < j < |errors| ==> Rank(errors[i].rule) < Rank(errors[j].rule))
            && (Broken(BothModesRule) in errors ==> errors[|errors| - 1] == Broken(BothModesRule))
  {
    var errors := StructureErrors(script);
    assert Increasing(AllRules);
    FindingsOfFired(AllRules, script.props);
    forall r ensures r in AllRules { EveryRuleChecked(r); }
    if Broken(BothModesRule) in errors { WarningComesLast(errors); }
  }

  /** The both-modes rule has the highest rank, so in a list of rule findings
      in rank order its finding can only be the last. */
  lemma WarningComesLast(errors: seq<Finding>)
    requires forall i :: 0 <= i < |errors| ==> errors[i].Broken?
    requires forall i, j :: 0 <= i < j < |errors| ==> Rank(errors[i].rule) < Rank(errors[j].rule)
    requires Broken(BothModesRule) in errors
    ensures errors[|errors| - 1] == Broken(BothModesRule)
  {
    var k :| 0 <= k < |errors| && errors[k] == Broken(BothModesRule);
    assert Rank(errors[|errors| - 1].rule) <= Rank(BothModesRule);
    assert k == |errors| - 1;
  }

  lemma EveryRuleChecked(r: Rule)
    ensures r in AllRules
  {
    assert AllRules[Rank(r)] == r;
  }

  /** A module that does not export an object gets that one finding. */
  lemma NotObjectReportedAlone(script: JsValue)
    requires !IsObject(script)
    ensures StructureErrors(script) == [NotAnObject]
  {
  }

  /** With `updateItem` exported and a string `query`, the query is rejected
      exactly when it is empty or all whitespace. */
  lemma BlankQueryRejected(script: JsValue, query: string)
    requires IsObject(script) && HasFunction(script.props, "updateItem")
    requires Get(script.props, "query") == Str(query)
    ensures Broken(QueryRule) in StructureErrors(script) <==> AllWhitespace(query)
  {
    StructureErrorsSpec(script);
    TrimEmptyIffWhitespace(query);
  }

  /** A script that exports only `containerName = 'test'` is missing its
      database name and both entry points. */
  lemma ContainerNameOnly()
    ensures StructureErrors(Obj(map["containerName" := Str("test")])) == [Broken(DatabaseNameRule), Broken(ModeRule)]
  {
    var props := map["containerName" := Str("test")];
    assert Get(props, "updateItem") == Undefined && Get(props, "run") == Undefined;
    assert Fired(AllRules, props) == [DatabaseNameRule, ModeRule];
  }

  /** A script with a database, a container and `run` passes. */
  lemma RunScriptPasses()
    ensures StructureErrors(Obj(map["databaseName" := Str("StarWars"), "containerName" := Str("jedi"),
                                    "run" := Func])) == []
  {
    var props := map["databaseName" := Str("StarWars"), "containerName" := Str("jedi"), "run" := Func];
    assert Get(props, "updateItem") == Undefined;
    assert Fired(AllRules, props) == [];
  }

  /** A script with a database, a container, `updateItem` and a query with
      some non-whitespace character passes, as the `updateItem` examples do. */
  lemma UpdateItemScriptPasses(query: string)
    requires !AllWhitespace(query)
    ensures StructureErrors(Obj(map["databaseName" := Str("StarWars"), "containerName" := Str("jedi"),
                                    "query" := Str(query), "updateItem" := Func])) == []
  {
    var props := map["databaseName" := Str("StarWars"), "containerName" := Str("jedi"),
                     "query" := Str(query), "updateItem" := Func];
    TrimEmptyIffWhitespace(query);
    assert Get(props, "run") == Undefined && Get(props, "query") == Str(query) && HasFunction(props, "updateItem");
    assert Get(props, "databaseName") == Str("StarWars") && Get(props, "containerName") == Str("jedi");
    assert !Violates(DatabaseNameRule, props) && !Violates(ContainerNameRule, props) && !Violates(ModeRule, props);
    assert !Violates(QueryRule, props) && !Violates(BothModesRule, props);
    ReportIsStructure(props);
  }

  /** The query of the example `001-jedi-title-fix.js` is not blank. */
  lemma TitleFixQueryNotBlank()
    ensures !AllWhitespace("SELECT * FROM c WHERE c.title = \"Master\"")
  {
    assert !IsWhitespace("SELECT * FROM c WHERE c.title = \"Master\""[0]);
  }

  /** What `require` does with one script path. */
  datatype LoadResult = Loaded(exports: JsValue) | LoadFailed(message: string)

  /** One entry of `allErrors`. */
  datatype Issue = Issue(fileName: string, errors: seq<Finding>)

  /** The findings `validate` records for one file, if any: a load failure,
      or the structure errors when there are some. */
  function IssueOf(dir: string, file: string, load: string -> LoadResult): Option<Issue>
  {
    match load(Join(dir, file))
    case LoadFailed(message) => Some(Issue(file, [LoadFailure(message)]))
    case Loaded(exports) =>
      if StructureErrors(exports) == [] then None else Some(Issue(file, StructureErrors(exports)))
  }

  /** `allErrors` after the loop over `files`. */
  function IssuesOf(dir: string, files: seq<string>, load: string -> LoadResult): seq<Issue>
    decreases |files|
  {
    if files == [] then []
    else
      var earlier := IssuesOf(dir, files[..|files| - 1], load);
      match IssueOf(dir, files[|files| - 1], load)
      case None => earlier
      case Some(issue) => earlier + [issue]
  }

  predicate HardIn(errors: seq<Finding>)
  {
    exists j :: 0 <= j < |errors| && IsHard(errors[j])
  }

  /** `hasHardErrors` after the loop over the issues. */
  predicate HasHardError(issues: seq<Issue>)
  {
    exists k :: 0 <= k < |issues| && HardIn(issues[k].errors)
  }

  /** Every issue comes from one of the files, and the files with no issue
      are exactly those that load and pass every check. */
  lemma {:induction false} IssuesOfSpec(dir: string, files: seq<string>, load: string -> LoadResult)
    decreases |files|
    ensures var issues := IssuesOf(dir, files, load);
            && |issues| <= |files|
            && (forall k :: 0 <= k < |issues| ==>
                  exists i :: 0 <= i < |files| && IssueOf(dir, files[i], load) == Some(issues[k]))
            && (issues == [] <==> forall i :: 0 <= i < |files| ==> IssueOf(dir, files[i], load) == None)
            && (forall i :: 0 <= i < |files| && IssueOf(dir, files[i], load).Some? ==>
                  IssueOf(dir, files[i], load).value in issues)
  {
    IssuesComplete(dir, files, load);
    if files != [] {
      var init := files[..|files| - 1];
      IssuesOfSpec(dir, init, load);
      var issues := IssuesOf(dir, files, load);
      var earlier := IssuesOf(dir, init, load);
      forall k | 0 <= k < |issues|
        ensures exists i :: 0 <= i < |files| && IssueOf(dir, files[i], load) == Some(issues[k])
      {
        if k < |earlier| {
          var i :| 0 <= i < |init| && IssueOf(dir, init[i], load) == Some(earlier[k]);
          assert files[i] == init[i];
        } else {
          assert IssueOf(dir, files[|files| - 1], load) == Some(issues[k]);
        }
      }
      if forall i :: 0 <= i < |files| ==> IssueOf(dir, files[i], load) == None {
        assert forall i :: 0 <= i < |init| ==> IssueOf(dir, init[i], load) == None by {
          forall i | 0 <= i < |init| ensures IssueOf(dir, init[i], load) == None { assert init[i] == files[i]; }
        }
      }
      if issues == [] {
        forall i | 0 <= i < |files| ensures IssueOf(dir, files[i], load) == None {
          if i < |init| { assert files[i] == init[i]; }
        }
      }
    }
  }

  /** The positions in `files` of the files with an issue, in ascending order. */
  function FailingIndices(dir: string, files: seq<string>, load: string -> LoadResult): seq<nat>
    decreases |files|
  {
    if files == [] then []
    else
      var earlier := FailingIndices(dir, files[..|files| - 1], load);
      if IssueOf(dir, files[|files| - 1], load).Some? then earlier + [|files| - 1] else earlier
  }

  /** `allErrors` holds one issue for every file that fails, and nothing else,
      in the order of the files: the `k`-th issue is that of the `k`-th
      failing file. */
  lemma IssuesInFileOrder(dir: string, files: seq<string>, load: string -> LoadResult)
    ensures var issues := IssuesOf(dir, files, load);
            var idx := FailingIndices(dir, files, load);
            && |idx| == |issues|
            && (forall k :: 0 <= k < |idx| ==>
                  && idx[k] < |files|
                  && IssueOf(dir, files[idx[k]], load) == Some(issues[k])
                  && issues[k].fileName == files[idx[k]])
            && (forall k, l :: 0 <= k < l < |idx| ==> idx[k] < idx[l])
            && (forall i :: 0 <= i < |files| && IssueOf(dir, files[i], load).Some? ==> i in idx)
  {
    FailingIndicesAscending(dir, files, load);
    FailingIndicesMatch(dir, files, load);
    FailingIndicesCover(dir, files, load);
    var issues := IssuesOf(dir, files, load);
    var idx := FailingIndices(dir, files, load);
    forall k | 0 <= k < |idx| ensures issues[k].fileName == files[idx[k]] {
      assert IssueOf(dir, files[idx[k]], load) == Some(issues[k]);
    }
  }

  /** `idx` lists positions below `bound` in strictly ascending order. */
  predicate AscendingBelow(idx: seq<nat>, bound: nat)
  {
    && (forall k :: 0 <= k < |idx| ==> idx[k] < bound)
    && (forall k, l :: 0 <= k < l < |idx| ==> idx[k] < idx[l])
  }

  lemma {:induction false} FailingIndicesAscending(dir: string, files: seq<string>, load: string -> LoadResult)
    decreases |files|
    ensures AscendingBelow(FailingIndices(dir, files, load), |files|)
  {
    if files != [] {
      var n := |files|;
      var earlier := FailingIndices(dir, files[..n - 1], load);
      FailingIndicesAscending(dir, files[..n - 1], load);
      if IssueOf(dir, files[n - 1], load).Some? {
        var idx := earlier + [n - 1];
        assert FailingIndices(dir, files, load) == idx;
        forall k, l | 0 <= k < l < |idx| ensures idx[k] < idx[l] {
          assert idx[k] == earlier[k];
          if l < |earlier| { assert idx[l] == earlier[l]; }
        }
      }
    }
  }

  lemma {:induction false} FailingIndicesMatch(dir: string, files: seq<string>, load: string -> LoadResult)
    decreases |files|
    ensures var issues := IssuesOf(dir, files, load);
            var idx := FailingIndices(dir, files, load);
            && |idx| == |issues|
            && (forall k :: 0 <= k < |idx| ==>
                  idx[k] < |files| && IssueOf(dir, files[idx[k]], load) == Some(issues[k]))
  {
    if files != [] {
      var n := |files|;
      var init := files[..n - 1];
      FailingIndicesMatch(dir, init, load);
      var earlier := FailingIndices(dir, init, load);
      forall k | 0 <= k < |earlier| ensures files[earlier[k]] == init[earlier[k]] {
      }
    }
  }

  lemma {:induction false} FailingIndicesCover(dir: string, files: seq<string>, load: string -> LoadResult)
    decreases |files|
    ensures forall i :: 0 <= i < |files| && IssueOf(dir, files[i], load).Some? ==>
              i in FailingIndices(dir, files, load)
  {
    if files != [] {
      var n := |files|;
      var init := files[..n - 1];
      FailingIndicesCover(dir, init, load);
      forall i | 0 <= i < n - 1 && IssueOf(dir, files[i], load).Some?
        ensures i in FailingIndices(dir, files, load)
      {
        assert files[i] == init[i];
      }
    }
  }

  /** Every failing file's issue is collected. */
  lemma IssuesComplete(dir: string, files: seq<string>, load: string -> LoadResult)
    ensures forall i :: 0 <= i < |files| && IssueOf(dir, files[i], load).Some? ==>
              IssueOf(dir, files[i], load).value in IssuesOf(dir, files, load)
  {
    var all := IssuesOf(dir, files, load);
    IssuesInFileOrder(dir, files, load);
    var idx := FailingIndices(dir, files, load);
    forall i | 0 <= i < |files| && IssueOf(dir, files[i], load).Some?
      ensures IssueOf(dir, files[i], load).value in all
    {
      var k :| 0 <= k < |idx| && idx[k] == i;
      assert all[k] == IssueOf(dir, files[i], load).value;
    }
  }

  /** A load failure is always a hard error, and an issue made of warnings
      only is a script that passes every check but exports both `updateItem`
      and `run`. */
  lemma IssueSeverity(dir: string, file: string, load: string -> LoadResult)
    requires IssueOf(dir, file, load).Some?
    ensures var issue := IssueOf(dir, file, load).value;
            && issue.fileName == file
            && issue.errors != []
            && (!HardIn(issue.errors) <==> issue.errors == [Broken(BothModesRule)])
            && (load(Join(dir, file)).LoadFailed? ==> HardIn(issue.errors))
  {
    var issue := IssueOf(dir, file, load).value;
    match load(Join(dir, file))
    case LoadFailed(message) =>
      assert IsHard(issue.errors[0]);
    case Loaded(exports) =>
      if IsObject(exports) {
        StructureErrorsSpec(exports);
        if !HardIn(issue.errors) {
          var errors := issue.errors;
          assert errors[0] == Broken(BothModesRule);
          assert errors[|errors| - 1] == Broken(BothModesRule);
        }
      } else {
        assert IsHard(issue.errors[0]);
      }
  }

  /** `validate` ends without a failing exit code despite issues exactly when
      every issue is the both-modes warning alone. */
  lemma SoftIssuesAreWarnings(dir: string, files: seq<string>, load: string -> LoadResult)
    ensures var issues := IssuesOf(dir, files, load);
            !HasHardError(issues) <==> forall k :: 0 <= k < |issues| ==> issues[k].errors == [Broken(BothModesRule)]
  {
    var issues := IssuesOf(dir, files, load);
    IssuesOfSpec(dir, files, load);
    forall k | 0 <= k < |issues|
      ensures !HardIn(issues[k].errors) <==> issues[k].errors == [Broken(BothModesRule)]
    {
      var i :| 0 <= i < |files| && IssueOf(dir, files[i], load) == Some(issues[k]);
      IssueSeverity(dir, files[i], load);
    }
  }

  datatype ValidateOutcome =
    | FolderMissing(errors: seq<string>)           // errors printed, then `process.exit(1)`
    | NoScripts                                    // no ".js" file in the folder
    | Issues(issues: seq<Issue>, hardErrors: bool) // `process.exit(1)` when there are hard errors
    | Validated(count: nat)                        // "Validation successful. <count> migration scripts validated."
  {
    /** `validate` ends with `process.exit(1)`. */
    predicate ExitsWithOne()
    {
      FolderMissing? || (Issues? && hardErrors)
    }
  }

  /** `validate(options)`, with `env` the process environment after
      `dotenv.config()`, `existing` the paths that exist, `listing` what
      `readdirSync` returns for the migrations folder and `load` what
      `require` does with a script's path. */
  method Validate(options: Settings, env: Settings, cwd: string, existing: set<string>, listing: seq<string>,
                  load: string -> LoadResult)
    returns (outcome: ValidateOutcome)
    ensures var dir := Resolve(cwd, Resolved(options, env).migrationsDir);
            var files := SelectScripts(listing);
            && (outcome.FolderMissing? <==> dir !in existing)
            && (outcome.FolderMissing? ==> outcome.errors == [MigrationsDirError])
            && (outcome.NoScripts? <==> dir in existing && files == [])
            && (outcome.Issues? ==>
                  && outcome.issues == IssuesOf(dir, files, load) && outcome.issues != []
                  && (outcome.hardErrors <==> HasHardError(outcome.issues)))
            && (outcome.Validated? <==> dir in existing && files != [] && IssuesOf(dir, files, load) == [])
            && (outcome.Validated? ==> outcome.count == |files|)
  {
    var migrationsDir := Resolve(cwd, Resolved(options, env).migrationsDir);
    var errors: seq<string> := [];
    if migrationsDir !in existing {
      errors := errors + [MigrationsDirError];
    }
    if |errors| > 0 {
      return FolderMissing(errors);
    }
    var migrationFiles := SortNames(listing);
    migrationFiles := ScriptsOf(migrationFiles);
    assert migrationFiles == SelectScripts(listing);
    if |migrationFiles| == 0 {
      return NoScripts;
    }
    var allErrors := CollectIssues(migrationsDir, migrationFiles, load);
    if |allErrors| > 0 {
      var hasHardErrors := AnyHardError(allErrors);
      return Issues(allErrors, hasHardErrors);
    }
    return Validated(|migrationFiles|);
  }

  /** The `for ... of` loop over the files with its `try`/`catch`. */
  method CollectIssues(dir: string, files: seq<string>, load: string -> LoadResult)
    returns (allErrors: seq<Issue>)
    ensures allErrors == IssuesOf(dir, files, load)
  {
    allErrors := [];
    var i := 0;
    while i < |files|
      invariant 0 <= i <= |files|
      invariant allErrors == IssuesOf(dir, files[..i], load)
    {
      var fileName := files[i];
      assert files[..i + 1][..i] == files[..i];
      match load(Join(dir, fileName)) {
        case LoadFailed(message) =>
          allErrors := allErrors + [Issue(fileName, [LoadFailure(message)])];
        case Loaded(scriptModule) =>
          var scriptErrors := ValidateScriptStructure(scriptModule);
          if |scriptErrors| > 0 {
            allErrors := allErrors + [Issue(fileName, scriptErrors)];
          }
      }
      i := i + 1;
    }
    assert files[..i] == files;
  }

  /** The nested loop that sets `hasHardErrors`. */
  method AnyHardError(issues: seq<Issue>) returns (hasHardErrors: bool)
    ensures hasHardErrors <==> HasHardError(issues)
  {
    hasHardErrors := false;
    var k := 0;
    while k < |issues|
      invariant 0 <= k <= |issues|
      invariant hasHardErrors <==> exists k' :: 0 <= k' < k && HardIn(issues[k'].errors)
    {
      var errors := issues[k].errors;
      var j := 0;
      ghost var before := hasHardErrors;
      while j < |errors|
        invariant 0 <= j <= |errors|
        invariant hasHardErrors <==> before || exists j' :: 0 <= j' < j && IsHard(errors[j'])
      {
        HardIffNoWarningPrefix(errors[j]);
        if !StartsWith(Text(errors[j]), WarningPrefix) {
          hasHardErrors := true;
        }
        j := j + 1;
      }
      k := k + 1;
    }
  }
}
