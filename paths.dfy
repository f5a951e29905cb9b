/** The three pieces of Node's `path` module the tool relies on, for POSIX
    paths: `path.basename`, `path.resolve` against the working directory, and
    the template string `${dir}/${file}` that names a migration script. */
module Paths {
  import opened Common

  /** The path without its trailing '/' characters. */
  function StripTrailingSlashes(p: string): string
  {
    if |p| > 0 && p[|p| - 1] == '/' then StripTrailingSlashes(p[..|p| - 1]) else p
  }

  /** The text after the last '/'. */
  function AfterLastSlash(p: string): string
  {
    if |p| == 0 || p[|p| - 1] == '/' then "" else AfterLastSlash(p[..|p| - 1]) + [p[|p| - 1]]
  }

  /** Stripping leaves a prefix that does not end in '/', and removes only '/'. */
  lemma {:induction false} StripTrailingSlashesSpec(p: string)
    ensures var r := StripTrailingSlashes(p);
            && |r| <= |p| && r == p[..|r|]
            && (r == [] || r[|r| - 1] != '/')
            && forall i :: |r| <= i < |p| ==> p[i] == '/'
  {
    if |p| > 0 && p[|p| - 1] == '/' {
      StripTrailingSlashesSpec(p[..|p| - 1]);
    }
  }

  /** The result is the longest suffix of `p` without '/': it holds no '/',
      and it is either all of `p` or preceded by a '/'. */
  lemma {:induction false} AfterLastSlashSpec(p: string)
    ensures var r := AfterLastSlash(p);
            && |r| <= |p| && r == p[|p| - |r|..]
            && '/' !in r
            && (|r| < |p| ==> p[|p| - |r| - 1] == '/')
  {
    if |p| > 0 && p[|p| - 1] != '/' {
      var q := p[..|p| - 1];
      AfterLastSlashSpec(q);
      var r := AfterLastSlash(q);
      var c := p[|p| - 1];
      assert AfterLastSlash(p) == r + [c];
      assert q[|q| - |r|..] + [c] == p[|p| - |r| - 1..];
      assert '/' !in r + [c] by {
        forall i | 0 <= i < |r| + 1 ensures (r + [c])[i] != '/' {
          if i < |r| { assert (r + [c])[i] == r[i]; }
        }
      }
      if |r| < |q| {
        assert p[|p| - |r| - 2] == q[|q| - |r| - 1];
      }
    }
  }

  /** `path.basename(p)` */
  function Basename(p: string): string
  {
    AfterLastSlash(StripTrailingSlashes(p))
  }

  /** `${dir}/${file}` */
  function Join(dir: string, file: string): string
  {
    dir + "/" + file
  }

  /** A name a directory listing can hold: non-empty and without '/'. */
  predicate IsEntryName(file: string)
  {
    file != "" && '/' !in file
  }

  /** `path.basename` undoes `${dir}/${file}` for every directory entry name,
      whatever the directory. */
  lemma BasenameOfJoin(dir: string, file: string)
    requires IsEntryName(file)
    ensures Basename(Join(dir, file)) == file
  {
    var p := Join(dir, file);
    assert p[|p| - 1] == file[|file| - 1];
    assert StripTrailingSlashes(p) == p;
    AfterLastSlashSpec(p);
    var r := AfterLastSlash(p);
    assert p[|p| - |file|..] == file;
    assert p[|p| - |file| - 1] == '/';
  }

  /** `path.resolve(cwd, p)` without normalisation: an empty argument names the
      working directory itself, an absolute one stands for itself, a relative
      one is appended to the working directory. */
  function Resolve(cwd: string, p: string): string
  {
    if p == "" then cwd else if p[0] == '/' then p else Join(cwd, p)
  }

  /** An empty setting names the working directory and an absolute one is
      kept as it is. Against an absolute working directory the result is
      absolute, so resolving it once more, against any directory, changes
      nothing. */
  lemma ResolveSpec(cwd: string, p: string)
    ensures p == "" ==> Resolve(cwd, p) == cwd
    ensures p != "" && p[0] == '/' ==> Resolve(cwd, p) == p
    ensures StartsWith(cwd, "/") ==> StartsWith(Resolve(cwd, p), "/")
    ensures StartsWith(cwd, "/") ==> forall other :: Resolve(other, Resolve(cwd, p)) == Resolve(cwd, p)
  {
    var r := Resolve(cwd, p);
    if StartsWith(cwd, "/") {
      if p != "" && p[0] != '/' { assert r[0] == cwd[0]; }
      assert r != "" && r[0] == '/';
    }
  }
}
