/**
 * Where the launcher looks for files next to its own executable
 * (launch_server and open_logs_folder in src-tauri/src/lib.rs): the
 * executable's directory, except that inside a macOS application bundle
 * (a directory ending in Contents/MacOS) the launcher first steps out of the
 * bundle with "../../../".
 */
module BundlePath {

  /** The targets the code tells apart with `#[cfg(target_os = ...)]`. */
  datatype Os = MacOS | Windows | Linux | OtherOs

  /** An absolute path, as its components below the root; ".." is the parent-directory component. */
  type Path = seq<string>

  const ParentDir: string := ".."

  /** The components of "Contents/MacOS". */
  const BundleTail: Path := ["Contents", "MacOS"]

  /** The components of "../../../". */
  const OutOfBundle: Path := [ParentDir, ParentDir, ParentDir]

  /** A component that names an entry (not a step to the parent). */
  predicate IsName(c: string) {
    c != ParentDir
  }

  predicate AllNames(p: Path) {
    forall i :: 0 <= i < |p| ==> IsName(p[i])
  }

  /** `Path::ends_with`, which compares whole components: `p` is some path
      followed by the components of `tail`. */
  predicate EndsWith(p: Path, tail: Path)
    ensures EndsWith(p, tail) <==> exists q :: p == q + tail
  {
    SuffixSlice(p, tail);
    |tail| <= |p| && p[|p| - |tail|..] == tail
  }

  /** The last |tail| components are `tail` exactly when some path followed by `tail` is `p`. */
  lemma SuffixSlice(p: Path, tail: Path)
    ensures (|tail| <= |p| && p[|p| - |tail|..] == tail) <==> exists q :: p == q + tail
  {
    if |tail| <= |p| && p[|p| - |tail|..] == tail {
      assert p == p[..|p| - |tail|] + tail;
    }
    if exists q :: p == q + tail {
      var q :| p == q + tail;
      assert p[|p| - |tail|..] == tail;
    }
  }

  /** `Path::parent` of a path that has one (every path but the root). */
  function Dir(p: Path): (d: Path)
    requires p != []
    ensures |d| == |p| - 1 && d + [p[|p| - 1]] == p
  {
    p[..|p| - 1]
  }

  /** True when the macOS bundle rule applies to the executable's directory:
      on macOS, its last two components are Contents and MacOS. */
  predicate InBundle(exeDir: Path, os: Os)
    ensures InBundle(exeDir, os) <==>
      os == MacOS && |exeDir| >= 2 && exeDir[|exeDir| - 2] == "Contents" && exeDir[|exeDir| - 1] == "MacOS"
  {
    assert EndsWith(exeDir, BundleTail) <==> |exeDir| >= 2 && exeDir[|exeDir| - 2..] == BundleTail;
    os == MacOS && EndsWith(exeDir, BundleTail)
  }

  /** The path of `name` next to the executable whose directory is `exeDir`:
      `exeDir`, then "../../../" when the bundle rule applies, then `name`.
      Inside a bundle App.app/Contents/MacOS it resolves to `name` in the
      directory that contains App.app; anywhere else, to `name` in `exeDir`. */
  function Beside(exeDir: Path, os: Os, name: string): (p: Path)
    ensures IsName(name) && InBundle(exeDir, os) && |exeDir| >= 3 && IsName(exeDir[|exeDir| - 3]) ==>
      Resolve(p) == Resolve(exeDir[..|exeDir| - 3]) + [name]
    ensures IsName(name) && !InBundle(exeDir, os) ==> Resolve(p) == Resolve(exeDir) + [name]
  {
    if InBundle(exeDir, os) then
      var n := |exeDir|;
      if n >= 3 && IsName(exeDir[n - 3]) && IsName(name) then
        assert exeDir[n - 2..] == BundleTail;
        assert exeDir == exeDir[..n - 3] + [exeDir[n - 3]] + BundleTail;
        LeaveBundle(exeDir[..n - 3], exeDir[n - 3], name);
        exeDir + OutOfBundle + [name]
      else
        exeDir + OutOfBundle + [name]
    else
      if IsName(name) then
        StayInDir(exeDir, name);
        exeDir + [name]
      else
        exeDir + [name]
  }

  // ---------------------------------------------------------------------------
  // Lexical resolution of "..", to state where Beside ends up

  /** Resolves the components of `p` from the directory `dir`: a ".." drops the
      last component (and stays put at the root), any other component is entered.
      This is what `canonicalize` computes when no component is a symbolic link. */
  function ResolveFrom(dir: Path, p: Path): Path
    decreases |p|
  {
    if p == [] then dir
    else if p[0] == ParentDir then ResolveFrom(if dir == [] then [] else dir[..|dir| - 1], p[1..])
    else ResolveFrom(dir + [p[0]], p[1..])
  }

  function Resolve(p: Path): Path {
    ResolveFrom([], p)
  }

  lemma {:induction false} ResolveFromAppend(dir: Path, p: Path, q: Path)
    ensures ResolveFrom(dir, p + q) == ResolveFrom(ResolveFrom(dir, p), q)
    decreases |p|
  {
    if p == [] {
      assert p + q == q;
    } else {
      assert (p + q)[0] == p[0] && (p + q)[1..] == p[1..] + q;
      var next := if p[0] == ParentDir then (if dir == [] then [] else dir[..|dir| - 1]) else dir + [p[0]];
      ResolveFromAppend(next, p[1..], q);
    }
  }

  lemma {:induction false} ResolveFromNames(dir: Path, p: Path)
    requires AllNames(p)
    ensures ResolveFrom(dir, p) == dir + p
    decreases |p|
  {
    if p == [] {
      assert dir + p == dir;
    } else {
      assert dir + [p[0]] + p[1..] == dir + p;
      ResolveFromNames(dir + [p[0]], p[1..]);
    }
  }

  /** A path without ".." resolves to itself. */
  lemma ResolveNames(p: Path)
    requires AllNames(p)
    ensures Resolve(p) == p
  {
    ResolveFromNames([], p);
  }

  /** Resolving never produces a "..", starting from a directory without one. */
  lemma {:induction false} ResolveFromKeepsNames(dir: Path, p: Path)
    requires AllNames(dir)
    ensures AllNames(ResolveFrom(dir, p))
    decreases |p|
  {
    if p != [] {
      var next := if p[0] == ParentDir then (if dir == [] then [] else dir[..|dir| - 1]) else dir + [p[0]];
      assert AllNames(next);
      ResolveFromKeepsNames(next, p[1..]);
    }
  }

  /** A resolved path is already resolved. */
  lemma ResolveIdempotent(p: Path)
    ensures Resolve(Resolve(p)) == Resolve(p)
  {
    ResolveFromKeepsNames([], p);
    ResolveNames(Resolve(p));
  }

  /** Entering three directories and leaving them again comes back to where it started. */
  lemma ResolveInAndOut(dir: Path, a: string, b: string, c: string)
    requires IsName(a) && IsName(b) && IsName(c)
    ensures ResolveFrom(dir, [a, b, c] + OutOfBundle) == dir
  {
    var d1, d2, d3 := dir + [a], dir + [a] + [b], dir + [a] + [b] + [c];
    assert d3[..|d3| - 1] == d2 && d2[..|d2| - 1] == d1 && d1[..|d1| - 1] == dir;
    var s0 := [a, b, c] + OutOfBundle;
    assert s0[0] == a && s0[1..] == [b, c] + OutOfBundle;
    assert s0[1..][0] == b && s0[1..][1..] == [c] + OutOfBundle;
    assert s0[1..][1..][0] == c && s0[1..][1..][1..] == OutOfBundle;
    calc {
      ResolveFrom(dir, [a, b, c] + OutOfBundle);
      ResolveFrom(d1, [b, c] + OutOfBundle);
      ResolveFrom(d2, [c] + OutOfBundle);
      ResolveFrom(d3, OutOfBundle);
      ResolveFrom(d2, [ParentDir, ParentDir]);
      ResolveFrom(d1, [ParentDir]);
      ResolveFrom(dir, []);
    }
  }

  /** Pushing "../../../" onto App.app/Contents/MacOS lands in the directory that contains App.app. */
  lemma LeaveBundleDir(base: Path, app: string)
    requires IsName(app)
    ensures Resolve(base + [app] + BundleTail + OutOfBundle) == Resolve(base)
  {
    assert base + [app] + BundleTail + OutOfBundle == base + ([app, "Contents", "MacOS"] + OutOfBundle);
    ResolveFromAppend([], base, [app, "Contents", "MacOS"] + OutOfBundle);
    ResolveInAndOut(Resolve(base), app, "Contents", "MacOS");
  }

  /** ... and a name pushed after that names an entry of that directory. */
  lemma LeaveBundle(base: Path, app: string, name: string)
    requires IsName(app) && IsName(name)
    ensures Resolve(base + [app] + BundleTail + OutOfBundle + [name]) == Resolve(base) + [name]
  {
    LeaveBundleDir(base, app);
    StayInDir(base + [app] + BundleTail + OutOfBundle, name);
  }

  /** Pushing a name onto a directory resolves to that name in the resolved directory. */
  lemma StayInDir(dir: Path, name: string)
    requires IsName(name)
    ensures Resolve(dir + [name]) == Resolve(dir) + [name]
  {
    ResolveFromAppend([], dir, [name]);
    ResolveFromNames(Resolve(dir), [name]);
  }

  /** On every target but macOS the rule never applies. */
  lemma BesideOffMacOS(exeDir: Path, os: Os, name: string)
    requires os != MacOS
    ensures Beside(exeDir, os, name) == exeDir + [name]
  {
  }

  /** Inside App.app/Contents/MacOS on macOS, the rule applies and the path
      resolves next to App.app. */
  lemma BesideBundleLeavesApp(base: Path, app: string, name: string)
    requires IsName(app) && IsName(name)
    ensures InBundle(base + [app] + BundleTail, MacOS)
    ensures Resolve(Beside(base + [app] + BundleTail, MacOS, name)) == Resolve(base) + [name]
  {
    var exeDir := base + [app] + BundleTail;
    assert exeDir[|exeDir| - 2..] == BundleTail;
    assert exeDir[..|exeDir| - 3] == base && exeDir[|exeDir| - 3] == app;
  }
}
