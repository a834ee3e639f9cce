/** The command lines of the two build backends. */
module Commands {
  import opened Paths
  import opened Results

  const MavenGoals: seq<string> := ["package", "-DskipTests", "-T", "1C"]
  /** Flags that switch off the npm/node sub-builds; always present, in this order. */
  const NodeSkipFlags: seq<string> := ["-Dskip.npm=true", "-Dskip.node=true", "-Dskip.installnodenpm=true"]
  const GradleTasks: seq<string> := ["compileJava", "-x", "test", "--stacktrace", "--info"]

  /** The Maven command: fixed goals, the `distribution` module exclusion when asked for, the
      node-skipping flags, and `-s settings` when a settings file is given. */
  function MavenCommand(mvn: Path, excludeDistribution: bool, settings: Option<Path>): (cmd: seq<string>)
    ensures |cmd| == 8 + (if excludeDistribution then 2 else 0) + (if settings.Some? then 2 else 0)
    ensures cmd[..5] == [Render(mvn), "package", "-DskipTests", "-T", "1C"]
    ensures excludeDistribution <==> cmd[5] == "-pl"
    ensures excludeDistribution ==> cmd[6] == "!distribution"
    ensures var k := if excludeDistribution then 7 else 5; cmd[k..k + 3] == NodeSkipFlags
    ensures settings.Some? ==> cmd[|cmd| - 2..] == ["-s", Render(settings.value)]
  {
    [Render(mvn)] + MavenGoals
      + (if excludeDistribution then ["-pl", JoinWith(",", ["!distribution"])] else [])
      + NodeSkipFlags
      + (if settings.Some? then ["-s", Render(settings.value)] else [])
  }

  /** The Gradle command: fixed tasks, then `--init-script path` when a script is given. */
  function GradleCommand(gradle: Path, initScript: Option<Path>): (cmd: seq<string>)
    ensures |cmd| == if initScript.Some? then 8 else 6
    ensures cmd[..6] == [Render(gradle), "compileJava", "-x", "test", "--stacktrace", "--info"]
    ensures initScript.Some? ==> cmd[6..] == ["--init-script", Render(initScript.value)]
  {
    [Render(gradle)] + GradleTasks
      + (if initScript.Some? then ["--init-script", Render(initScript.value)] else [])
  }

  /** The module exclusion and the settings option appear anywhere in the Maven command exactly
      when they were asked for, given that the binary is called `mvn` and the settings file
      `settings.xml`. */
  lemma MavenOptionsIff(mvn: Path, excludeDistribution: bool, settings: Option<Path>)
    requires BaseName(mvn) == "mvn"
    requires settings.Some? ==> BaseName(settings.value) == "settings.xml"
    ensures "-pl" in MavenCommand(mvn, excludeDistribution, settings) <==> excludeDistribution
    ensures "-s" in MavenCommand(mvn, excludeDistribution, settings) <==> settings.Some?
  {
    var cmd := MavenCommand(mvn, excludeDistribution, settings);
    NotFlag(mvn, "mvn");
    if settings.Some? {
      NotFlag(settings.value, "settings.xml");
    }
    var fixed := MavenGoals + NodeSkipFlags;
    assert "-pl" !in fixed && "-s" !in fixed && "!distribution" != "-s";
    forall i | 0 <= i < |cmd|
      ensures cmd[i] == "-pl" ==> excludeDistribution
      ensures cmd[i] == "-s" ==> settings.Some?
    {
      var k := if excludeDistribution then 7 else 5;
      if 1 <= i < 5 {
        assert cmd[i] == MavenGoals[i - 1];
      } else if k <= i < k + 3 {
        assert cmd[i] == cmd[k..k + 3][i - k];
      } else if i >= k + 3 {
        assert settings.Some? && cmd[i] in cmd[|cmd| - 2..];
      }
    }
  }

  /** The init script appears anywhere in the Gradle command exactly when it was given. */
  lemma GradleInitScriptIff(gradle: Path, initScript: Option<Path>)
    requires BaseName(gradle) == "gradle"
    requires initScript.Some? ==> BaseName(initScript.value) == "init.gradle"
    ensures "--init-script" in GradleCommand(gradle, initScript) <==> initScript.Some?
  {
    var cmd := GradleCommand(gradle, initScript);
    NotFlag(gradle, "gradle");
    if initScript.Some? {
      NotFlag(initScript.value, "init.gradle");
    }
    if initScript.None? {
      forall i | 0 <= i < |cmd| ensures cmd[i] != "--init-script" {
        if i >= 1 {
          assert cmd[i] in GradleTasks;
        }
      }
    }
  }

  /** A path whose last component is `last` never renders as one of the flags. */
  lemma NotFlag(p: Path, last: string)
    requires BaseName(p) == last
    requires last in {"mvn", "settings.xml", "gradle", "init.gradle"}
    ensures Render(p) != "-pl" && Render(p) != "-s" && Render(p) != "--init-script"
  {
    assert p == p[..|p| - 1] + [last];
    RenderEndsWith(p[..|p| - 1], last);
  }
}
