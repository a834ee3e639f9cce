/** Copying the compiled class tree to the caller's output directory after a successful build. */
module Extractor {
  import opened Paths
  import opened Results
  import opened HostOS

  /** Maven's, Gradle's and legacy Gradle's class trees, in the order they are probed. */
  function ClassTrees(buildDir: Path): seq<Path>
  {
    [buildDir + ["target", "classes"],
     buildDir + ["build", "classes", "java", "main"],
     buildDir + ["build", "classes", "main"]]
  }

  /** The source tree: the first of the three candidates that exists, if any. */
  function SelectSource(paths: set<Path>, buildDir: Path): (r: Option<Path>)
    ensures r.None? <==> forall j :: 0 <= j < 3 ==> ClassTrees(buildDir)[j] !in paths
    ensures r.Some? ==> exists j :: 0 <= j < 3 && r.value == ClassTrees(buildDir)[j] && r.value in paths
                          && forall i :: 0 <= i < j ==> ClassTrees(buildDir)[i] !in paths
  {
    var trees := ClassTrees(buildDir);
    if trees[0] in paths then Some(trees[0])
    else if trees[1] in paths then Some(trees[1])
    else if trees[2] in paths then Some(trees[2])
    else None
  }

  /** The exception that escapes extraction (if any) and the resulting paths. */
  datatype Extraction = Extraction(raised: Option<string>, paths: set<Path>)

  /** `output/classes`, the destination of the copy. */
  function Destination(output: Path): Path
  {
    output + ["classes"]
  }

  /** Extraction: nothing happens when no class tree exists; otherwise an existing destination
      is deleted (a failure to delete it escapes as an exception), then the source tree is copied
      there, creating missing parent directories (a failed copy is only logged). */
  function ExtractSpec(paths: set<Path>, faults: map<Path, string>, unreadable: set<Path>,
                       buildDir: Path, output: Path): (x: Extraction)
    ensures SelectSource(paths, buildDir).None? ==> x == Extraction(None, paths)
    ensures x.raised.Some? <==>
      SelectSource(paths, buildDir).Some? && Destination(output) in paths && Destination(output) in faults
    ensures x.raised.Some? ==> x == Extraction(Some(faults[Destination(output)]), paths)
    ensures forall q :: q in paths && !(Destination(output) <= q) ==> q in x.paths
    ensures forall q :: q in x.paths && q !in paths ==> Destination(output) <= q || q in Ancestors(Destination(output))
  {
    match SelectSource(paths, buildDir)
    case None => Extraction(None, paths)
    case Some(src) =>
      var dest := Destination(output);
      if dest in paths && dest in faults then Extraction(Some(faults[dest]), paths)
      else
        var cleared := if dest in paths then Removed(paths, dest) else paths;
        var copied := if src in cleared && src !in unreadable && Created(cleared, dest) !! faults.Keys
                      then cleared + Ancestors(dest) + Mirrored(cleared, src, dest) else cleared;
        Extraction(None, copied)
  }

  /** No path lies under `dir` unless `dir` itself exists, as on a real filesystem. */
  predicate Rooted(paths: set<Path>, dir: Path)
  {
    forall q :: q in paths && dir <= q ==> dir in paths
  }

  /** Full replace, never a merge: after a successful extraction the destination holds exactly
      a copy of the source tree, whatever the destination held before. */
  lemma ExtractReplacesDestination(paths: set<Path>, faults: map<Path, string>, unreadable: set<Path>,
                                   buildDir: Path, output: Path)
    requires SelectSource(paths, buildDir).Some?
    requires SelectSource(paths, buildDir).value !in unreadable
    requires Created(paths, Destination(output)) !! faults.Keys
    requires !(Destination(output) <= SelectSource(paths, buildDir).value)
    requires Rooted(paths, Destination(output))
    ensures ExtractSpec(paths, faults, unreadable, buildDir, output).raised.None?
    ensures forall s :: Destination(output) + s in ExtractSpec(paths, faults, unreadable, buildDir, output).paths
                        <==> SelectSource(paths, buildDir).value + s in paths
                             && !(Destination(output) <= SelectSource(paths, buildDir).value + s)
  {
    var src, dest := SelectSource(paths, buildDir).value, Destination(output);
    var cleared := if dest in paths then Removed(paths, dest) else paths;
    assert forall q :: q in cleared ==> !(dest <= q);
    assert src in cleared;
    assert Created(cleared, dest) == Created(paths, dest);
    var x := ExtractSpec(paths, faults, unreadable, buildDir, output);
    assert x.paths == cleared + Ancestors(dest) + Mirrored(cleared, src, dest);
    forall s ensures dest + s in x.paths <==> src + s in cleared {
      assert dest <= dest + s;
      assert (dest + s)[|dest|..] == s;
      assert dest + s !in Ancestors(dest);
    }
  }

  /** An existing `output/classes` is deleted before the copy is tried, so when the copy then
      fails (here: the source tree cannot be read) the old classes are gone, no class is left
      at the destination, and no exception escapes. */
  lemma FailedCopyLeavesNoClasses(paths: set<Path>, faults: map<Path, string>, unreadable: set<Path>,
                                  buildDir: Path, output: Path)
    requires SelectSource(paths, buildDir).Some?
    requires SelectSource(paths, buildDir).value in unreadable
    requires Destination(output) in paths && Destination(output) !in faults
    ensures ExtractSpec(paths, faults, unreadable, buildDir, output).raised.None?
    ensures Destination(output) !in ExtractSpec(paths, faults, unreadable, buildDir, output).paths
    ensures forall q :: Destination(output) <= q ==> q !in ExtractSpec(paths, faults, unreadable, buildDir, output).paths
  {
    var dest := Destination(output);
    assert ExtractSpec(paths, faults, unreadable, buildDir, output).paths == Removed(paths, dest);
  }
}
