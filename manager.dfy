/** The build execution manager: clean, run the configured backend, extract the classes on
    success, and report `(success, logs)`. */
module LocalManagerModel {
  import opened Paths
  import opened Results
  import opened PyValues
  import opened HostOS
  import opened Environment
  import opened Resolver
  import opened Commands
  import opened Cleaner
  import opened Extractor

  /** The manager's settings, fixed when it is created. `initTemplate` is the `init.gradle`
      template that ships next to the manager's own source file. */
  datatype LocalManager = LocalManager(
    workspace: Path,
    envConfig: map<string, Value>,
    buildRelativePath: Path,
    jdk8Home: Path,
    jdk17Home: Path,
    mavenHome: Path,
    gradleHome: Path,
    initTemplate: Path)

  /** The constructor: every tool lives under the fixed installation root `tmpRoot`. */
  function NewLocalManager(workspace: Path, envConfig: map<string, Value>, buildRelativePath: Path,
                           tmpRoot: Path, moduleDir: Path): (m: LocalManager)
    ensures m.workspace == workspace && m.envConfig == envConfig && m.buildRelativePath == buildRelativePath
    ensures m.jdk8Home == tmpRoot + ["jdks", "temurin8"] && m.jdk17Home == tmpRoot + ["jdks", "temurin17"]
    ensures m.mavenHome == tmpRoot + ["maven"] && m.gradleHome == tmpRoot + ["gradle"]
    ensures m.initTemplate == moduleDir + ["templates", "init.gradle"]
    ensures m.jdk8Home != m.jdk17Home && m.mavenHome != m.gradleHome
    ensures tmpRoot <= m.jdk8Home && tmpRoot <= m.jdk17Home && tmpRoot <= m.mavenHome && tmpRoot <= m.gradleHome
  {
    var n := |tmpRoot|;
    assert (tmpRoot + ["jdks", "temurin8"])[n + 1] != (tmpRoot + ["jdks", "temurin17"])[n + 1];
    assert (tmpRoot + ["maven"])[n] != (tmpRoot + ["gradle"])[n];
    LocalManager(workspace, envConfig, buildRelativePath,
                 tmpRoot + ["jdks", "temurin8"], tmpRoot + ["jdks", "temurin17"],
                 tmpRoot + ["maven"], tmpRoot + ["gradle"],
                 moduleDir + ["templates", "init.gradle"])
  }

  /** The directory the build runs in: the workspace joined with the relative build path. */
  function BuildDir(m: LocalManager): Path
  {
    m.workspace + m.buildRelativePath
  }

  /** `env_config.get("build_tool", "maven")` */
  function BuildTool(m: LocalManager): Value
  {
    if "build_tool" in m.envConfig then m.envConfig["build_tool"] else Text("maven")
  }

  /** `env_config.get("jdk_version", 8)` */
  function JdkVersion(m: LocalManager): Value
  {
    if "jdk_version" in m.envConfig then m.envConfig["jdk_version"] else Int(8)
  }

  /** The backend-specific part of `_run_build`: the resolved binary and the command line, or an
      early `(-1, message)` return, or an exception; `paths` is the filesystem afterwards. */
  datatype Prepared =
    | Ready(cmd: seq<string>, bin: Path, paths: set<Path>)
    | Refuse(code: int, message: string)
    | Raise(error: string)

  /** The Gradle branch: resolve `gradle`, build the command, and copy the init-script template
      into the workspace when it exists (that copy may raise). */
  function GradleSetup(m: LocalManager, paths: set<Path>, faults: map<Path, string>,
                       walks: map<Path, seq<WalkEntry>>): (g: Prepared)
    ensures g.Refuse? <==> ResolveTool(paths, m.gradleHome, WalkOf(walks, m.gradleHome), "gradle").None?
    ensures g.Refuse? ==> g == Refuse(-1, "Gradle binary not found in " + Render(m.gradleHome))
    ensures g.Raise? <==> ResolveTool(paths, m.gradleHome, WalkOf(walks, m.gradleHome), "gradle").Some?
                          && m.initTemplate in paths && m.workspace + ["init.gradle"] in faults
    ensures g.Raise? ==> g.error == faults[m.workspace + ["init.gradle"]]
    ensures g.Ready? ==> BaseName(g.bin) == "gradle" && BaseName(Parent(g.bin)) == "bin"
    ensures g.Ready? ==> g.paths == if m.initTemplate in paths then paths + {m.workspace + ["init.gradle"]} else paths
  {
    match ResolveTool(paths, m.gradleHome, WalkOf(walks, m.gradleHome), "gradle")
    case None => Refuse(-1, "Gradle binary not found in " + Render(m.gradleHome))
    case Some(gradle) =>
      var initScript := m.workspace + ["init.gradle"];
      if m.initTemplate in paths && initScript in faults then Raise(faults[initScript])
      else if m.initTemplate in paths then Ready(GradleCommand(gradle, Some(initScript)), gradle, paths + {initScript})
      else Ready(GradleCommand(gradle, None), gradle, paths)
  }

  /** The Maven branch: resolve `mvn` and build the command from which paths exist. */
  function MavenSetup(m: LocalManager, paths: set<Path>, walks: map<Path, seq<WalkEntry>>): (g: Prepared)
    ensures g.Refuse? <==> ResolveTool(paths, m.mavenHome, WalkOf(walks, m.mavenHome), "mvn").None?
    ensures g.Refuse? ==> g == Refuse(-1, "Maven binary not found in " + Render(m.mavenHome))
    ensures !g.Raise?
    ensures g.Ready? ==> BaseName(g.bin) == "mvn" && BaseName(Parent(g.bin)) == "bin" && g.paths == paths
  {
    match ResolveTool(paths, m.mavenHome, WalkOf(walks, m.mavenHome), "mvn")
    case None => Refuse(-1, "Maven binary not found in " + Render(m.mavenHome))
    case Some(mvn) =>
      var settings := m.workspace + ["settings.xml"];
      Ready(MavenCommand(mvn, BuildDir(m) + ["distribution"] in paths,
                         if settings in paths then Some(settings) else None), mvn, paths)
  }

  /** What `_run_build` decides from the configuration and the filesystem: return early with an
      exit code and message, raise, or launch one process on the filesystem `paths`. */
  datatype Plan =
    | Refused(code: int, message: string)
    | Raises(error: string)
    | Launch(inv: Invocation, paths: set<Path>)

  /** The decisions of `_run_build`, taken on the filesystem `paths`. */
  function PlanBuild(m: LocalManager, paths: set<Path>, faults: map<Path, string>,
                     walks: map<Path, seq<WalkEntry>>, environ: map<string, string>): (p: Plan)
    ensures BuildTool(m) != Text("gradle") && BuildTool(m) != Text("maven") ==>
      p == Refused(-1, "Unknown build tool: " + Str(BuildTool(m)))
    ensures p.Refused? ==> p.code == -1
    ensures p.Raises? ==> BuildTool(m) == Text("gradle")
    ensures p.Launch? ==> p.inv.cwd == BuildDir(m) && "JAVA_HOME" in p.inv.env
                          && p.inv.env["JAVA_HOME"] == Render(JavaHome(JdkVersion(m), m.jdk8Home, m.jdk17Home))
  {
    var tool := BuildTool(m);
    var javaHome := JavaHome(JdkVersion(m), m.jdk8Home, m.jdk17Home);
    var prepared :=
      if tool == Text("gradle") then GradleSetup(m, paths, faults, walks)
      else if tool == Text("maven") then MavenSetup(m, paths, walks)
      else Refuse(-1, "Unknown build tool: " + Str(tool));
    match prepared
    case Refuse(code, msg) => Refused(code, msg)
    case Raise(e) => Raises(e)
    case Ready(cmd, bin, after) =>
      Launch(Invocation(cmd, BuildDir(m), ComposedEnv(environ, javaHome, Parent(bin))), after)
  }

  /** The `(exit_code, logs)` of a completed launch: the code verbatim and stdout, a newline,
      stderr; a launch that raised gives -1 and the exception's text. */
  function LaunchLogs(r: LaunchResult): (int, string)
  {
    match r
    case Exited(code, out, err, _) => (code, out + "\n" + err)
    case LaunchFailed(e) => (-1, e)
  }

  /** What `_run_build` returns or raises under a plan, given the process oracle. */
  function Outcome(p: Plan, oracle: (Invocation, set<Path>) -> LaunchResult): Step<(int, string)>
  {
    match p
    case Refused(code, msg) => Done((code, msg))
    case Raises(e) => Raised(e)
    case Launch(inv, atLaunch) => Done(LaunchLogs(oracle(inv, atLaunch)))
  }

  /** The paths after `_run_build` under a plan: what the child left behind when it ran, the
      paths at launch when it could not be started, the old paths when nothing was launched. */
  function PathsAfter(p: Plan, paths: set<Path>, oracle: (Invocation, set<Path>) -> LaunchResult): set<Path>
  {
    match p
    case Launch(inv, atLaunch) =>
      var r := oracle(inv, atLaunch);
      if r.Exited? then r.after else atLaunch
    case _ => paths
  }

  /** The processes `_run_build` launches under a plan: one, or none. */
  function Launches(p: Plan): seq<Invocation>
  {
    if p.Launch? then [p.inv] else []
  }

  /** Python truthiness of `output_path`: given and not the empty string. The empty string is the
      empty path; every other path, the root `[""]` included, has a non-empty text. */
  predicate Requested(outputPath: Option<Path>)
  {
    outputPath.Some? && outputPath.value != []
  }

  /** `execute`'s result from the run step and the exception (if any) that escaped extraction:
      success exactly when the build exited with 0 and nothing raised; the build's logs on a
      normal return, the exception's text otherwise. */
  function Verdict(run: Step<(int, string)>, extractionRaised: Option<string>): (r: (bool, string))
    ensures r.0 <==> run.Done? && run.value.0 == 0 && extractionRaised.None?
    ensures run.Raised? ==> r.1 == run.error
    ensures run.Done? && (run.value.0 != 0 || extractionRaised.None?) ==> r.1 == run.value.1
    ensures run.Done? && run.value.0 == 0 && extractionRaised.Some? ==> r.1 == extractionRaised.value
  {
    match run
    case Raised(e) => (false, e)
    case Done((code, logs)) =>
      if code != 0 then (false, logs)
      else if extractionRaised.Some? then (false, extractionRaised.value)
      else (true, logs)
  }

  /** `_clean_target_on_host`: tries to remove `target` and `build`, swallowing failures. */
  method CleanTargetOnHost(m: LocalManager, host: Host)
    modifies host
    ensures host.paths == Cleaned(old(host.paths), host.faults, BuildDir(m))
    ensures host.launched == old(host.launched)
  {
    var dirs := StaleDirs(BuildDir(m));
    for i := 0 to |dirs|
      invariant host.paths == CleanAll(old(host.paths), host.faults, dirs[..i])
      invariant host.launched == old(host.launched)
    {
      assert dirs[..i + 1][..i] == dirs[..i];
      if dirs[i] in host.paths {
        var err := host.RemoveTree(dirs[i]);
        // a failed removal is only logged
      }
    }
    assert dirs[..|dirs|] == dirs;
  }

  /** The Gradle branch of `_run_build`. */
  method PrepareGradle(m: LocalManager, host: Host) returns (g: Prepared)
    modifies host
    ensures g == GradleSetup(m, old(host.paths), host.faults, host.walks)
    ensures host.paths == if g.Ready? then g.paths else old(host.paths)
    ensures host.launched == old(host.launched)
  {
    var found := ResolveBinary(host, m.gradleHome, "gradle");
    if found.None? {
      return Refuse(-1, "Gradle binary not found in " + Render(m.gradleHome));
    }
    var gradle := found.value;
    var cmd := [Render(gradle)] + GradleTasks;
    if m.initTemplate in host.paths {
      var initScript := m.workspace + ["init.gradle"];
      // outside the try: a failed copy escapes `_run_build`
      var err := host.CopyFile(m.initTemplate, initScript);
      if err.Some? {
        return Raise(err.value);
      }
      cmd := cmd + ["--init-script", Render(initScript)];
    }
    g := Ready(cmd, gradle, host.paths);
  }

  /** The Maven branch of `_run_build`. */
  method PrepareMaven(m: LocalManager, host: Host) returns (g: Prepared)
    ensures g == MavenSetup(m, host.paths, host.walks)
  {
    var found := ResolveBinary(host, m.mavenHome, "mvn");
    if found.None? {
      return Refuse(-1, "Maven binary not found in " + Render(m.mavenHome));
    }
    var mvn := found.value;
    var cmd := [Render(mvn)] + MavenGoals;
    var exclusions: seq<string> := [];
    if BuildDir(m) + ["distribution"] in host.paths {
      exclusions := exclusions + ["!distribution"];
    }
    if exclusions != [] {
      cmd := cmd + ["-pl", JoinWith(",", exclusions)];
    }
    cmd := cmd + NodeSkipFlags;
    var settingsXml := m.workspace + ["settings.xml"];
    if settingsXml in host.paths {
      cmd := cmd + ["-s", Render(settingsXml)];
    }
    g := Ready(cmd, mvn, host.paths);
  }

  /** `_run_build`: compose the environment, resolve the tool, build the command, launch. */
  method RunBuild(m: LocalManager, host: Host) returns (r: Step<(int, string)>)
    modifies host
    ensures var p := PlanBuild(m, old(host.paths), host.faults, host.walks, host.environ);
      && r == Outcome(p, host.oracle)
      && host.paths == PathsAfter(p, old(host.paths), host.oracle)
      && host.launched == old(host.launched) + Launches(p)
  {
    var buildTool := BuildTool(m);
    var jdkVersion := JdkVersion(m);
    var env := host.environ;
    var javaHome: Path;
    if Str(jdkVersion) == "17" {
      javaHome := m.jdk17Home;
    } else {
      javaHome := m.jdk8Home;
    }
    assert javaHome == JavaHome(jdkVersion, m.jdk8Home, m.jdk17Home);
    env := env["JAVA_HOME" := Render(javaHome)];
    var pathElements := [Render(javaHome + ["bin"])];
    var cwd := BuildDir(m);

    var prepared: Prepared;
    if buildTool == Text("gradle") {
      prepared := PrepareGradle(m, host);
    } else if buildTool == Text("maven") {
      prepared := PrepareMaven(m, host);
    } else {
      return Done((-1, "Unknown build tool: " + Str(buildTool)));
    }
    match prepared
    case Refuse(code, msg) =>
      return Done((code, msg));
    case Raise(e) =>
      return Raised(e);
    case Ready(cmd, bin, _) =>
      pathElements := pathElements + [Render(Parent(bin))];
      assert pathElements[..1] == [pathElements[0]];
      assert JoinWith(PathListSep, pathElements) == pathElements[0] + PathListSep + pathElements[1];
      assert ("PATH" in env) == ("PATH" in host.environ);
      env := env["PATH" := JoinWith(PathListSep, pathElements) + PathListSep + (if "PATH" in env then env["PATH"] else "")];
      assert env == ComposedEnv(host.environ, javaHome, Parent(bin));
      var launched := host.Launch(Invocation(cmd, cwd, env));
      r := Done(LaunchLogs(launched));
  }

  /** `_extract_artifacts`: returns the exception that escapes it, if any. */
  method ExtractArtifacts(m: LocalManager, host: Host, outputPath: Path) returns (raised: Option<string>)
    modifies host
    ensures var x := ExtractSpec(old(host.paths), host.faults, host.unreadable, BuildDir(m), outputPath);
      raised == x.raised && host.paths == x.paths
    ensures host.launched == old(host.launched)
  {
    raised := None;
    var source := SelectSource(host.paths, BuildDir(m));
    if source.None? {
      return;
    }
    var destClasses := Destination(outputPath);
    if destClasses in host.paths {
      // outside the try: a failure here escapes to the caller
      raised := host.RemoveTree(destClasses);
      if raised.Some? {
        return;
      }
    }
    var copied := host.CopyTree(source.value, destClasses);
    // a failed copy is only logged
  }

  /** The observable effect of one `execute` call: its result, the filesystem afterwards and the
      processes it launched. */
  datatype Execution = Execution(success: bool, logs: string, paths: set<Path>, launched: seq<Invocation>)

  /** `execute` on a host state: clean, plan and run the build on the cleaned paths, and extract
      from what the build left behind when it exited with 0 and an output path is given. */
  function ExecuteSpec(m: LocalManager, paths: set<Path>, faults: map<Path, string>, unreadable: set<Path>,
                       walks: map<Path, seq<WalkEntry>>, environ: map<string, string>,
                       oracle: (Invocation, set<Path>) -> LaunchResult, outputPath: Option<Path>): (e: Execution)
    ensures e.success ==> |e.launched| == 1
    ensures !Requested(outputPath) ==>
      e.paths == PathsAfter(PlanBuild(m, Cleaned(paths, faults, BuildDir(m)), faults, walks, environ),
                            Cleaned(paths, faults, BuildDir(m)), oracle)
    ensures var c := Cleaned(paths, faults, BuildDir(m));
      var p := PlanBuild(m, c, faults, walks, environ);
      var run := Outcome(p, oracle);
      !(run.Done? && run.value.0 == 0) ==> e.paths == PathsAfter(p, c, oracle) && !e.success
    ensures var run := Outcome(PlanBuild(m, Cleaned(paths, faults, BuildDir(m)), faults, walks, environ), oracle);
      !Requested(outputPath) ==>
        && (e.success <==> run.Done? && run.value.0 == 0)
        && (run.Done? ==> e.logs == run.value.1)
        && (run.Raised? ==> e.logs == run.error)
  {
    var cleaned := Cleaned(paths, faults, BuildDir(m));
    var p := PlanBuild(m, cleaned, faults, walks, environ);
    var run := Outcome(p, oracle);
    var built := PathsAfter(p, cleaned, oracle);
    var extracting := run.Done? && run.value.0 == 0 && Requested(outputPath);
    var x := if extracting then ExtractSpec(built, faults, unreadable, BuildDir(m), outputPath.value)
             else Extraction(None, built);
    var (success, logs) := Verdict(run, x.raised);
    Execution(success, logs, x.paths, Launches(p))
  }

  /** `execute`: clean, run, extract when the build exited with 0 and an output path was given;
      any exception that escapes becomes `(False, str(e))`. */
  method Execute(m: LocalManager, host: Host, outputPath: Option<Path>) returns (success: bool, logs: string)
    modifies host
    ensures var e := ExecuteSpec(m, old(host.paths), host.faults, host.unreadable, host.walks, host.environ,
                                 host.oracle, outputPath);
      && (success, logs) == (e.success, e.logs)
      && host.paths == e.paths
      && host.launched == old(host.launched) + e.launched
  {
    CleanTargetOnHost(m, host);
    var run := RunBuild(m, host);
    match run
    case Raised(e) =>
      return false, e;
    case Done(result) =>
      var (exitCode, buildLogs) := result;
      logs := buildLogs;
      if exitCode == 0 {
        if outputPath.Some? && outputPath.value != [] {
          var raised := ExtractArtifacts(m, host, outputPath.value);
          if raised.Some? {
            return false, raised.value;
          }
        }
        return true, logs;
      } else {
        return false, logs;
      }
  }

  /** A Maven launch runs `mvn` as resolved, with the command and environment the rules give:
      `-pl !distribution` exactly when `distribution` exists in the build directory and
      `-s settings.xml` exactly when the workspace holds that file. */
  lemma MavenLaunch(m: LocalManager, paths: set<Path>, faults: map<Path, string>,
                    walks: map<Path, seq<WalkEntry>>, environ: map<string, string>)
    requires BuildTool(m) == Text("maven")
    requires ResolveTool(paths, m.mavenHome, WalkOf(walks, m.mavenHome), "mvn").Some?
    ensures var mvn := ResolveTool(paths, m.mavenHome, WalkOf(walks, m.mavenHome), "mvn").value;
      var p := PlanBuild(m, paths, faults, walks, environ);
      && p.Launch? && p.paths == paths
      && p.inv.env == ComposedEnv(environ, JavaHome(JdkVersion(m), m.jdk8Home, m.jdk17Home), Parent(mvn))
      && ("-pl" in p.inv.cmd <==> BuildDir(m) + ["distribution"] in paths)
      && ("-s" in p.inv.cmd <==> m.workspace + ["settings.xml"] in paths)
      && p.inv.cmd == MavenCommand(mvn, BuildDir(m) + ["distribution"] in paths,
                                   if m.workspace + ["settings.xml"] in paths then Some(m.workspace + ["settings.xml"]) else None)
  {
    var mvn := ResolveTool(paths, m.mavenHome, WalkOf(walks, m.mavenHome), "mvn").value;
    var settings := m.workspace + ["settings.xml"];
    var cmd := MavenCommand(mvn, BuildDir(m) + ["distribution"] in paths, if settings in paths then Some(settings) else None);
    assert MavenSetup(m, paths, walks) == Ready(cmd, mvn, paths);
    var env := ComposedEnv(environ, JavaHome(JdkVersion(m), m.jdk8Home, m.jdk17Home), Parent(mvn));
    assert PlanBuild(m, paths, faults, walks, environ) == Launch(Invocation(cmd, BuildDir(m), env), paths);
    MavenOptionsIff(mvn, BuildDir(m) + ["distribution"] in paths, if settings in paths then Some(settings) else None);
  }

  /** A Gradle launch runs `gradle` as resolved, with `--init-script` exactly when the template
      exists (and was copied into the workspace). */
  lemma GradleLaunch(m: LocalManager, paths: set<Path>, faults: map<Path, string>,
                     walks: map<Path, seq<WalkEntry>>, environ: map<string, string>)
    requires BuildTool(m) == Text("gradle")
    requires PlanBuild(m, paths, faults, walks, environ).Launch?
    ensures var gradle := ResolveTool(paths, m.gradleHome, WalkOf(walks, m.gradleHome), "gradle");
      var p := PlanBuild(m, paths, faults, walks, environ);
      && gradle.Some?
      && p.inv.env == ComposedEnv(environ, JavaHome(JdkVersion(m), m.jdk8Home, m.jdk17Home), Parent(gradle.value))
      && ("--init-script" in p.inv.cmd <==> m.initTemplate in paths)
      && (m.initTemplate in paths ==> m.workspace + ["init.gradle"] in p.paths)
      && p.inv.cmd == GradleCommand(gradle.value, if m.initTemplate in paths then Some(m.workspace + ["init.gradle"]) else None)
  {
    var gradle := ResolveTool(paths, m.gradleHome, WalkOf(walks, m.gradleHome), "gradle").value;
    var initScript := m.workspace + ["init.gradle"];
    GradleInitScriptIff(gradle, if m.initTemplate in paths then Some(initScript) else None);
  }

  /** A missing `build_tool` key behaves exactly like `"maven"`. */
  lemma DefaultBuildToolIsMaven(m: LocalManager, paths: set<Path>, faults: map<Path, string>,
                                walks: map<Path, seq<WalkEntry>>, environ: map<string, string>)
    requires "build_tool" !in m.envConfig
    ensures PlanBuild(m, paths, faults, walks, environ)
         == PlanBuild(m.(envConfig := m.envConfig["build_tool" := Text("maven")]), paths, faults, walks, environ)
  {
    var m' := m.(envConfig := m.envConfig["build_tool" := Text("maven")]);
    assert BuildTool(m') == BuildTool(m) == Text("maven");
    assert JdkVersion(m') == JdkVersion(m);
    assert MavenSetup(m', paths, walks) == MavenSetup(m, paths, walks) by {
      assert m'.mavenHome == m.mavenHome && m'.workspace == m.workspace && BuildDir(m') == BuildDir(m);
    }
  }

  /** A successful build still reports failure when an existing `output/classes` cannot be
      deleted: that deletion is outside the extraction's try, so execute's catch-all turns the
      exception into `(False, str(e))`. */
  lemma DestinationRemovalFailureFailsBuild(logs: string, paths: set<Path>, faults: map<Path, string>,
                                            unreadable: set<Path>, buildDir: Path, output: Path)
    requires SelectSource(paths, buildDir).Some?
    requires Destination(output) in paths && Destination(output) in faults
    ensures Verdict(Done((0, logs)), ExtractSpec(paths, faults, unreadable, buildDir, output).raised)
         == (false, faults[Destination(output)])
  {
  }

  /** After a build that exited with 0, with an output path given, `execute` extracts from the
      filesystem the build left behind and reports the build's logs unless extraction raised. */
  lemma ExecuteAfterSuccessfulBuild(m: LocalManager, paths: set<Path>, faults: map<Path, string>,
                                    unreadable: set<Path>, walks: map<Path, seq<WalkEntry>>,
                                    environ: map<string, string>,
                                    oracle: (Invocation, set<Path>) -> LaunchResult, output: Path)
    requires var p := PlanBuild(m, Cleaned(paths, faults, BuildDir(m)), faults, walks, environ);
      p.Launch? && oracle(p.inv, p.paths).Exited? && oracle(p.inv, p.paths).returncode == 0
    requires output != []
    ensures var p := PlanBuild(m, Cleaned(paths, faults, BuildDir(m)), faults, walks, environ);
      var x := ExtractSpec(oracle(p.inv, p.paths).after, faults, unreadable, BuildDir(m), output);
      var e := ExecuteSpec(m, paths, faults, unreadable, walks, environ, oracle, Some(output));
      && e.success == x.raised.None?
      && e.paths == x.paths
      && e.launched == [p.inv]
  {
    var cleaned := Cleaned(paths, faults, BuildDir(m));
    var p := PlanBuild(m, cleaned, faults, walks, environ);
    var r := oracle(p.inv, p.paths);
    assert Outcome(p, oracle) == Done((0, r.stdout + "\n" + r.stderr));
    assert PathsAfter(p, cleaned, oracle) == r.after;
  }

  /** The classes a successful build leaves in `target/classes` reach `output/classes`, and
      nothing that was there before survives: after `execute`, the destination holds exactly a
      copy of the tree the build wrote. */
  lemma ExecuteDeliversBuiltClasses(m: LocalManager, paths: set<Path>, faults: map<Path, string>,
                                    unreadable: set<Path>, walks: map<Path, seq<WalkEntry>>,
                                    environ: map<string, string>,
                                    oracle: (Invocation, set<Path>) -> LaunchResult, output: Path)
    requires var p := PlanBuild(m, Cleaned(paths, faults, BuildDir(m)), faults, walks, environ);
      p.Launch? && oracle(p.inv, p.paths).Exited? && oracle(p.inv, p.paths).returncode == 0
    requires output != []
    requires var p := PlanBuild(m, Cleaned(paths, faults, BuildDir(m)), faults, walks, environ);
      var after := oracle(p.inv, p.paths).after;
      var src := BuildDir(m) + ["target", "classes"];
      && src in after && src !in unreadable
      && Created(after, Destination(output)) !! faults.Keys
      && Rooted(after, Destination(output))
      && !(Destination(output) <= src) && !(src <= Destination(output))
    ensures var p := PlanBuild(m, Cleaned(paths, faults, BuildDir(m)), faults, walks, environ);
      var e := ExecuteSpec(m, paths, faults, unreadable, walks, environ, oracle, Some(output));
      && e.success
      && forall s :: Destination(output) + s in e.paths
                     <==> BuildDir(m) + ["target", "classes"] + s in oracle(p.inv, p.paths).after
  {
    var p := PlanBuild(m, Cleaned(paths, faults, BuildDir(m)), faults, walks, environ);
    var after := oracle(p.inv, p.paths).after;
    var src := BuildDir(m) + ["target", "classes"];
    ExecuteAfterSuccessfulBuild(m, paths, faults, unreadable, walks, environ, oracle, output);
    assert SelectSource(after, BuildDir(m)) == Some(src);
    ExtractReplacesDestination(after, faults, unreadable, BuildDir(m), output);
  }

  /** The scenario of a rebuild: the build leaves `target/classes/A.class`, and a stale
      `B.class` from an earlier run sits in `output/classes`; afterwards the output holds
      `A.class` and no longer `B.class`. */
  lemma RebuildReplacesStaleClass(m: LocalManager, paths: set<Path>, faults: map<Path, string>,
                                  unreadable: set<Path>, walks: map<Path, seq<WalkEntry>>,
                                  environ: map<string, string>,
                                  oracle: (Invocation, set<Path>) -> LaunchResult, output: Path)
    requires var p := PlanBuild(m, Cleaned(paths, faults, BuildDir(m)), faults, walks, environ);
      p.Launch? && oracle(p.inv, p.paths).Exited? && oracle(p.inv, p.paths).returncode == 0
    requires output != []
    requires var p := PlanBuild(m, Cleaned(paths, faults, BuildDir(m)), faults, walks, environ);
      var after := oracle(p.inv, p.paths).after;
      var src := BuildDir(m) + ["target", "classes"];
      && src in after && src !in unreadable
      && Created(after, Destination(output)) !! faults.Keys
      && Rooted(after, Destination(output))
      && !(Destination(output) <= src) && !(src <= Destination(output))
      && src + ["A.class"] in after && src + ["B.class"] !in after
    requires Destination(output) + ["B.class"] in paths
    ensures var e := ExecuteSpec(m, paths, faults, unreadable, walks, environ, oracle, Some(output));
      && e.success
      && Destination(output) + ["A.class"] in e.paths
      && Destination(output) + ["B.class"] !in e.paths
  {
    ExecuteDeliversBuiltClasses(m, paths, faults, unreadable, walks, environ, oracle, output);
    var p := PlanBuild(m, Cleaned(paths, faults, BuildDir(m)), faults, walks, environ);
    var e := ExecuteSpec(m, paths, faults, unreadable, walks, environ, oracle, Some(output));
    var src := BuildDir(m) + ["target", "classes"];
    SameChild(e.paths, oracle(p.inv, p.paths).after, Destination(output), src, "A.class");
    SameChild(e.paths, oracle(p.inv, p.paths).after, Destination(output), src, "B.class");
  }

  /** One entry of two trees that hold the same relative paths. */
  lemma SameChild(left: set<Path>, right: set<Path>, l: Path, r: Path, name: string)
    requires forall s :: l + s in left <==> r + s in right
    ensures l + [name] in left <==> r + [name] in right
  {
  }
}
