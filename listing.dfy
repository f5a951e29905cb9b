/** Choosing the migration scripts from a directory listing: the listing is
    sorted with the default string order (`readdirSync(dir).sort()`) and then
    only the names ending in ".js" are kept. Both `migrate` and `validate`
    select their files this way. */
module Listing {
  import opened Common

  predicate Sorted(s: seq<string>)
  {
    forall i, j :: 0 <= i < j < |s| ==> LexLe(s[i], s[j])
  }

  predicate IsScriptName(file: string)
  {
    EndsWith(file, ".js")
  }

  /** Inserts `x` into a sorted list before the first element it does not exceed. */
  function Insert(x: string, s: seq<string>): (r: seq<string>)
    requires Sorted(s)
    ensures Sorted(r)
    ensures multiset(r) == multiset(s) + multiset{x}
  {
    if s == [] then [x]
    else if LexLe(x, s[0]) then
      forall j | 0 < j < |s| ensures LexLe(x, s[j]) { LexLeTransitive(x, s[0], s[j]); }
      SortedCons(x, s);
      [x] + s
    else
      LexLeTotal(x, s[0]);
      var t := Insert(x, s[1..]);
      assert s == [s[0]] + s[1..];
      BoundedAfterInsert(s[0], s[1..], x, t);
      SortedCons(s[0], t);
      [s[0]] + t
  }

  /** A sorted list stays sorted with an element in front that it does not exceed. */
  lemma SortedCons(y: string, t: seq<string>)
    requires Sorted(t)
    requires forall j :: 0 <= j < |t| ==> LexLe(y, t[j])
    ensures Sorted([y] + t)
  {
    forall i, j | 0 <= i < j < |[y] + t| ensures LexLe(([y] + t)[i], ([y] + t)[j]) {
      if i > 0 { assert ([y] + t)[i] == t[i - 1]; }
      assert ([y] + t)[j] == t[j - 1];
    }
  }

  /** A lower bound of a sorted list and of `x` bounds the list with `x` added. */
  lemma BoundedAfterInsert(a: string, rest: seq<string>, x: string, t: seq<string>)
    requires Sorted([a] + rest) && LexLe(a, x)
    requires multiset(t) == multiset(rest) + multiset{x}
    ensures forall j :: 0 <= j < |t| ==> LexLe(a, t[j])
  {
    forall j | 0 <= j < |t| ensures LexLe(a, t[j]) {
      assert t[j] in multiset(t);
      if t[j] != x {
        assert t[j] in multiset(rest);
        var k :| 0 <= k < |rest| && rest[k] == t[j];
        assert ([a] + rest)[0] == a && ([a] + rest)[k + 1] == t[j];
      }
    }
  }

  /** `names.sort()`: the names in ascending order, each as often as it occurs. */
  function SortNames(names: seq<string>): (r: seq<string>)
    ensures Sorted(r)
    ensures multiset(r) == multiset(names)
  {
    if names == [] then []
    else
      assert names == [names[0]] + names[1..];
      Insert(names[0], SortNames(names[1..]))
  }

  /** `files.filter((f) => f.endsWith('.js'))` */
  function ScriptsOf(files: seq<string>): (r: seq<string>)
  {
    if files == [] then []
    else if IsScriptName(files[0]) then [files[0]] + ScriptsOf(files[1..])
    else ScriptsOf(files[1..])
  }

  /** The filter keeps exactly the ".js" names, each as often as it occurs. */
  lemma {:induction false} ScriptsOfCounts(files: seq<string>, x: string)
    ensures multiset(ScriptsOf(files))[x] == if IsScriptName(x) then multiset(files)[x] else 0
  {
    if files != [] {
      ScriptsOfCounts(files[1..], x);
      assert files == [files[0]] + files[1..];
    }
  }

  /** The filter keeps elements in their order: every pair of kept names was
      in the same order before (so a sorted list stays sorted). */
  lemma {:induction false} ScriptsOfKeepsOrder(files: seq<string>)
    requires Sorted(files)
    ensures Sorted(ScriptsOf(files))
  {
    if files != [] {
      var rest := ScriptsOf(files[1..]);
      ScriptsOfKeepsOrder(files[1..]);
      if IsScriptName(files[0]) {
        forall j | 0 <= j < |rest| ensures LexLe(files[0], rest[j]) {
          assert rest[j] in multiset(rest);
          ScriptsOfCounts(files[1..], rest[j]);
          assert rest[j] in multiset(files[1..]);
          var k :| 0 <= k < |files[1..]| && files[1..][k] == rest[j];
          assert files[k + 1] == rest[j];
        }
      }
    }
  }

  lemma {:induction false} ScriptsOfLength(files: seq<string>)
    ensures |ScriptsOf(files)| <= |files|
  {
    if files != [] { ScriptsOfLength(files[1..]); }
  }

  /** The scripts a run works on: the ".js" names of the sorted listing. */
  function SelectScripts(listing: seq<string>): (r: seq<string>)
    ensures |r| <= |listing|
  {
    var sorted := SortNames(listing);
    assert |sorted| == |multiset(sorted)| == |multiset(listing)| == |listing|;
    ScriptsOfLength(sorted);
    ScriptsOf(sorted)
  }

  /** The selected scripts are in ascending order and are exactly the ".js"
      entries of the listing, each as often as it is listed. */
  lemma SelectScriptsSpec(listing: seq<string>)
    ensures Sorted(SelectScripts(listing))
    ensures forall x :: multiset(SelectScripts(listing))[x]
                        == if IsScriptName(x) then multiset(listing)[x] else 0
    ensures forall x :: x in SelectScripts(listing) <==> x in listing && IsScriptName(x)
  {
    var sorted := SortNames(listing);
    ScriptsOfKeepsOrder(sorted);
    forall x ensures multiset(SelectScripts(listing))[x]
                     == if IsScriptName(x) then multiset(listing)[x] else 0 {
      ScriptsOfCounts(sorted, x);
    }
    forall x ensures x in SelectScripts(listing) <==> x in listing && IsScriptName(x) {
      ScriptsOfCounts(sorted, x);
      assert x in SelectScripts(listing) <==> x in multiset(SelectScripts(listing));
      assert x in listing <==> x in multiset(listing);
    }
  }

  /** Only the ".js" names are ever selected, so a listing without one selects nothing. */
  lemma NoScriptsSelectsNothing(listing: seq<string>)
    requires forall i :: 0 <= i < |listing| ==> !IsScriptName(listing[i])
    ensures SelectScripts(listing) == []
  {
    SelectScriptsSpec(listing);
  }
}
