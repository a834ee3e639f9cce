/** Locating a build tool's executable under its installation root. */
module Resolver {
  import opened Paths
  import opened Results
  import opened HostOS

  /** A walked directory holds the tool when it lists a file called `name` and the directory
      of `root/name` is itself called "bin". */
  predicate HoldsBinary(e: WalkEntry, name: string)
  {
    name in e.files && BaseName(Parent(e.dir + [name])) == "bin"
  }

  /** The position of the first walked directory that holds the tool, or |walk| if none does. */
  function FirstBinIndex(walk: seq<WalkEntry>, name: string): (k: nat)
    ensures k <= |walk|
    ensures forall j :: 0 <= j < k ==> !HoldsBinary(walk[j], name)
    ensures k < |walk| ==> HoldsBinary(walk[k], name)
  {
    if walk == [] then 0
    else if HoldsBinary(walk[0], name) then 0
    else 1 + FirstBinIndex(walk[1..], name)
  }

  /** The fallback search's answer: `root/name` for the first walked directory holding it. */
  function FirstBin(walk: seq<WalkEntry>, name: string): Option<Path>
  {
    var k := FirstBinIndex(walk, name);
    if k < |walk| then Some(walk[k].dir + [name]) else None
  }

  /** Resolution: the canonical `home/bin/name` when it exists, else the walk's first match. */
  function ResolveTool(paths: set<Path>, home: Path, walk: seq<WalkEntry>, name: string): (r: Option<Path>)
    ensures home + ["bin", name] in paths ==> r == Some(home + ["bin", name])
    ensures r.None? <==> home + ["bin", name] !in paths && forall e :: e in walk ==> !HoldsBinary(e, name)
    ensures r.Some? ==> BaseName(r.value) == name && BaseName(Parent(r.value)) == "bin"
    ensures r.Some? && home + ["bin", name] !in paths ==>
      exists k :: 0 <= k < |walk| && r.value == walk[k].dir + [name] && HoldsBinary(walk[k], name)
                  && forall j :: 0 <= j < k ==> !HoldsBinary(walk[j], name)
  {
    var canonical := home + ["bin", name];
    if canonical in paths then
      assert Parent(canonical) == home + ["bin"];
      Some(canonical)
    else
      var k := FirstBinIndex(walk, name);
      assert k < |walk| ==> Parent(walk[k].dir + [name]) == walk[k].dir;
      FirstBin(walk, name)
  }

  /** The `for root, dirs, files in os.walk(home)` loop that stops at the first match. */
  method SearchWalk(walk: seq<WalkEntry>, name: string) returns (found: Option<Path>)
    ensures found == FirstBin(walk, name)
  {
    found := None;
    var i := 0;
    while i < |walk|
      invariant 0 <= i <= |walk|
      invariant found == None
      invariant forall j :: 0 <= j < i ==> !HoldsBinary(walk[j], name)
    {
      if HoldsBinary(walk[i], name) {
        found := Some(walk[i].dir + [name]);
        assert FirstBinIndex(walk, name) == i;
        break;
      }
      i := i + 1;
    }
  }

  /** Resolves `name` under `home` on the host: canonical path first, then the search. */
  method ResolveBinary(host: Host, home: Path, name: string) returns (bin: Option<Path>)
    ensures bin == ResolveTool(host.paths, home, WalkOf(host.walks, home), name)
  {
    bin := Some(home + ["bin", name]);
    if home + ["bin", name] !in host.paths {
      bin := SearchWalk(WalkOf(host.walks, home), name);
    }
  }
}
