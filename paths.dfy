/** Filesystem paths as sequences of components, and their textual form. */
module Paths {

  /** A path as its list of components; an absolute path starts with the empty component,
      so `["", "data", "tmp"]` is `/data/tmp`. Joining a relative part is concatenation,
      and an empty relative part (the string "") is the empty sequence. */
  type Path = seq<string>

  /** The separator of entries in the PATH variable (os.pathsep on POSIX). */
  const PathListSep: string := ":"

  /** The path as a string, components joined with "/". */
  function Render(p: Path): string
  {
    if |p| == 0 then "" else if |p| == 1 then p[0] else Render(p[..|p| - 1]) + "/" + p[|p| - 1]
  }

  /** os.path.dirname */
  function Parent(p: Path): Path
  {
    if p == [] then [] else p[..|p| - 1]
  }

  /** os.path.basename */
  function BaseName(p: Path): string
  {
    if p == [] then "" else p[|p| - 1]
  }

  /** The rendering of a path ends with the rendering of its last component. */
  lemma RenderEndsWith(p: Path, x: string)
    ensures |Render(p + [x])| >= |x|
    ensures Render(p + [x])[|Render(p + [x])| - |x|..] == x
  {
    var q := p + [x];
    assert q[..|q| - 1] == p;
  }

  /** `sep.join(parts)` */
  function JoinWith(sep: string, parts: seq<string>): string
  {
    if |parts| == 0 then "" else if |parts| == 1 then parts[0]
    else JoinWith(sep, parts[..|parts| - 1]) + sep + parts[|parts| - 1]
  }
}
