/** Best-effort removal of stale build output before a run. */
module Cleaner {
  import opened Paths
  import opened HostOS

  /** `target` (Maven) and `build` (Gradle) under the build directory, in the order tried. */
  function StaleDirs(buildDir: Path): seq<Path>
  {
    [buildDir + ["target"], buildDir + ["build"]]
  }

  /** `q` goes away when its ancestor `dir` is cleaned: `dir` exists and its removal succeeds. */
  predicate Swept(paths: set<Path>, faults: map<Path, string>, dir: Path, q: Path)
  {
    dir in paths && dir !in faults && dir <= q
  }

  /** One round of the loop: remove `dir` if it exists; a failing removal changes nothing. */
  function CleanOne(paths: set<Path>, faults: map<Path, string>, dir: Path): set<Path>
  {
    if dir in paths && dir !in faults then Removed(paths, dir) else paths
  }

  /** The state after the loop has handled `dirs`, one after another. */
  function CleanAll(paths: set<Path>, faults: map<Path, string>, dirs: seq<Path>): set<Path>
  {
    if dirs == [] then paths
    else CleanOne(CleanAll(paths, faults, dirs[..|dirs| - 1]), faults, dirs[|dirs| - 1])
  }

  /** Cleaning removes exactly the paths under an existing, removable `target` or `build`;
      a failure on one of them does not keep the other from being removed. */
  function Cleaned(paths: set<Path>, faults: map<Path, string>, buildDir: Path): (r: set<Path>)
    ensures r <= paths
    ensures forall q :: q in paths ==>
      (q in r <==> !Swept(paths, faults, buildDir + ["target"], q) && !Swept(paths, faults, buildDir + ["build"], q))
  {
    var dirs := StaleDirs(buildDir);
    assert dirs[..1] == [dirs[0]] && dirs[..1][..0] == [] && dirs[..2] == dirs;
    assert !(dirs[1] <= dirs[0]) && !(dirs[0] <= dirs[1]) by {
      assert dirs[0][|buildDir|] != dirs[1][|buildDir|];
    }
    var first := CleanOne(paths, faults, dirs[0]);
    assert CleanAll(paths, faults, dirs[..1]) == first;
    assert dirs[1] in first <==> dirs[1] in paths;
    CleanAll(paths, faults, dirs)
  }

  /** Cleaning twice leaves the same state as cleaning once. */
  lemma CleanIdempotent(paths: set<Path>, faults: map<Path, string>, buildDir: Path)
    ensures Cleaned(Cleaned(paths, faults, buildDir), faults, buildDir) == Cleaned(paths, faults, buildDir)
  {
    var once := Cleaned(paths, faults, buildDir);
    var twice := Cleaned(once, faults, buildDir);
    forall q | q in once ensures q in twice {
      assert !Swept(once, faults, buildDir + ["target"], q);
      assert !Swept(once, faults, buildDir + ["build"], q);
    }
  }
}
