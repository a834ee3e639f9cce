/** The operating system as the build manager sees it: which paths exist, which removals and
    copies fail, what os.walk yields, the inherited environment, and child processes. */
module HostOS {
  import opened Paths
  import opened Results

  /** One `(root, dirs, files)` triple of os.walk, without the sub-directory names. */
  datatype WalkEntry = WalkEntry(dir: Path, files: set<string>)

  /** One child-process launch: `subprocess.run(cmd, cwd=cwd, env=env)`. */
  datatype Invocation = Invocation(cmd: seq<string>, cwd: Path, env: map<string, string>)

  /** What a launch yields: the process ran to completion, leaving the filesystem as `after`
      (the build writes its class tree there), or it could not be started (or the binary could
      not be made executable) and an exception with `error` was raised. */
  datatype LaunchResult =
    | Exited(returncode: int, stdout: string, stderr: string, after: set<Path>)
    | LaunchFailed(error: string)

  /** The paths left after removing the whole tree rooted at `root`. */
  function Removed(paths: set<Path>, root: Path): (r: set<Path>)
    ensures r <= paths
    ensures forall q :: q in paths && !(root <= q) ==> q in r
    ensures forall q :: q in r ==> !(root <= q)
  {
    set q | q in paths && !(root <= q)
  }

  /** The copy of the tree rooted at `src`, re-rooted at `dst`. */
  function Mirrored(paths: set<Path>, src: Path, dst: Path): (r: set<Path>)
    ensures forall s :: src + s in paths ==> dst + s in r
    ensures forall q :: q in r ==> dst <= q && src + q[|dst|..] in paths
  {
    var r := set q | q in paths && src <= q :: dst + q[|src|..];
    assert forall s :: src + s in paths ==> dst + (src + s)[|src|..] in r;
    assert forall s :: (src + s)[|src|..] == s;
    assert forall q :: src <= q ==> q == src + q[|src|..];
    r
  }

  /** The proper ancestors of `p` (without the empty path): the directories `os.makedirs`
      creates before `p` when they are missing. */
  function Ancestors(p: Path): (r: set<Path>)
    ensures forall q :: q in r <==> 0 < |q| && q < p
  {
    var r := set k | 0 < k < |p| :: p[..k];
    assert forall q :: 0 < |q| && q < p ==> q == p[..|q|];
    r
  }

  /** The paths `shutil.copytree(src, dst)` creates besides the copy itself: `dst` and its
      missing ancestors. */
  function Created(paths: set<Path>, dst: Path): (r: set<Path>)
    ensures forall q :: q in r <==> q == dst || (q in Ancestors(dst) && q !in paths)
  {
    (Ancestors(dst) - paths) + {dst}
  }

  /** What os.walk(root) yields: the recorded listing, or nothing for a root that has none. */
  function WalkOf(walks: map<Path, seq<WalkEntry>>, root: Path): seq<WalkEntry>
  {
    if root in walks then walks[root] else []
  }

  class Host {
    /** Every existing file and directory. */
    var paths: set<Path>
    /** Paths whose removal or creation raises an OSError, with the error's text. */
    const faults: map<Path, string>
    /** Trees that cannot be read (unreadable, or not a directory), so copying them fails. */
    const unreadable: set<Path>
    /** The listing os.walk yields for a root, in the filesystem's own traversal order. */
    const walks: map<Path, seq<WalkEntry>>
    /** os.environ, which the manager reads but never changes. */
    const environ: map<string, string>
    /** What a child process launched with a given invocation on a given filesystem yields,
        including the filesystem it leaves behind. */
    const oracle: (Invocation, set<Path>) -> LaunchResult
    /** Every child-process launch attempted so far (also those whose chmod or spawn raised),
        oldest first. */
    var launched: seq<Invocation>

    constructor (paths: set<Path>, faults: map<Path, string>, unreadable: set<Path>,
                 walks: map<Path, seq<WalkEntry>>, environ: map<string, string>,
                 oracle: (Invocation, set<Path>) -> LaunchResult)
      ensures this.paths == paths && this.faults == faults && this.unreadable == unreadable
      ensures this.walks == walks
      ensures this.environ == environ && this.oracle == oracle && launched == []
    {
      this.paths := paths;
      this.faults := faults;
      this.unreadable := unreadable;
      this.walks := walks;
      this.environ := environ;
      this.oracle := oracle;
      launched := [];
    }

    /** shutil.rmtree(p) on an existing path: removes the tree, or raises and changes nothing. */
    method RemoveTree(p: Path) returns (err: Option<string>)
      requires p in paths
      modifies this
      ensures err == if p in faults then Some(faults[p]) else None
      ensures paths == if p in faults then old(paths) else Removed(old(paths), p)
      ensures launched == old(launched)
    {
      if p in faults {
        err := Some(faults[p]);
      } else {
        err := None;
        paths := Removed(paths, p);
      }
    }

    /** shutil.copytree(src, dst): fails, changing nothing, when the source is missing or
        unreadable, the destination exists, or the destination or a missing ancestor cannot be
        created; otherwise creates the missing ancestors and a mirror of the source tree. */
    method CopyTree(src: Path, dst: Path) returns (ok: bool)
      modifies this
      ensures ok == (src in old(paths) && src !in unreadable && dst !in old(paths)
                     && Created(old(paths), dst) !! faults.Keys)
      ensures paths == if ok then old(paths) + Ancestors(dst) + Mirrored(old(paths), src, dst) else old(paths)
      ensures launched == old(launched)
    {
      ok := src in paths && src !in unreadable && dst !in paths && Created(paths, dst) !! faults.Keys;
      if ok {
        paths := paths + Ancestors(dst) + Mirrored(paths, src, dst);
      }
    }

    /** shutil.copy(src, dst) of an existing file: creates `dst`, or raises and changes nothing. */
    method CopyFile(src: Path, dst: Path) returns (err: Option<string>)
      requires src in paths
      modifies this
      ensures err == if dst in faults then Some(faults[dst]) else None
      ensures paths == if dst in faults then old(paths) else old(paths) + {dst}
      ensures launched == old(launched)
    {
      if dst in faults {
        err := Some(faults[dst]);
      } else {
        err := None;
        paths := paths + {dst};
      }
    }

    /** os.chmod of the binary followed by subprocess.run: the oracle decides the outcome and,
        when the child ran, what it leaves on the filesystem. */
    method Launch(inv: Invocation) returns (r: LaunchResult)
      modifies this
      ensures r == oracle(inv, old(paths))
      ensures launched == old(launched) + [inv]
      ensures paths == if r.Exited? then r.after else old(paths)
    {
      r := oracle(inv, paths);
      launched := launched + [inv];
      if r.Exited? {
        paths := r.after;
      }
    }
  }
}
