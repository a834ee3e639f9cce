# LocalManager build execution, modelled in Dafny

This project models the build execution manager of a Java build agent (`LocalManager` in
`src/execution/local_manager.py`). The manager compiles a Java workspace with Maven or Gradle in
four steps. It cleans stale output. It composes a child environment with the selected JDK. It
resolves the build tool and launches it. If the build exits with 0, it copies the compiled
class tree to an output directory. The call then reports `(success, logs)`.

The operating system is one object, `HostOS.Host`. It holds the set of existing paths, a
fault map that says which paths cannot be removed or created and with what error text, and the
trees that cannot be read. It also holds the listings `os.walk` yields, a snapshot of
`os.environ`, an oracle, and the log of attempted launches. The oracle is given a child's
invocation and the filesystem at launch. It says how the child ends and which paths it leaves
behind, which is how a build writes the `target/classes` or `build/classes/...` tree that
extraction then copies. The manager's settings never change after construction, so
`LocalManager` is a datatype. Its operations are methods that modify the host:

- `CleanTargetOnHost` is proved against `Cleaned`.
- `RunBuild` is proved against `PlanBuild`, `Outcome` and `PathsAfter`. It uses `PrepareGradle`/`PrepareMaven`
  for the two backends and the walk loop `SearchWalk`.
- `ExtractArtifacts` is proved against `ExtractSpec`.
- `Execute` is proved against `ExecuteSpec`, which composes the three and maps the result
  with `Verdict`.

Paths are sequences of components (`Paths.Path`). They are rendered with `/` wherever the source
puts a path into a command line or an environment variable.

Points of the code that the model keeps as written:

- In `_extract_artifacts`, the copy at src/execution/local_manager.py:222-226 is wrapped in a
  `try` that only logs, while the `rmtree` of an existing `output/classes` at :219-220 is not.
  A failed deletion therefore reaches the catch-all of `execute` (:55-57), and a build that
  exited with 0 is reported as `(False, str(e))` (`DestinationRemovalFailureFailsBuild`). A
  failed copy after a successful deletion is only logged: the old classes are gone, none are
  copied, and the build is still reported as a success (`FailedCopyLeavesNoClasses`).
- In `_run_build`, the `shutil.copy` of the `init.gradle` template (:123) is outside the `try`
  of :170-191, so a failed copy raises out of `_run_build` and `execute` returns
  `(False, str(e))`.
- The docstring of `_run_build` (:77-78) names a three-element result. The code returns
  `(exit_code, logs)`, and so does the model.
- A child's own exit code is returned verbatim, so a negative code from the tool is possible
  and is not told apart from the manager's `-1`.

## Model

| member | source | states |
|---|---|---|
| `PyValues.StrIs17` | src/execution/local_manager.py:89 | `str(jdk_version) == "17"` holds for the integer 17 and the string "17" and for no other configuration value |
| `Environment.JavaHome` | src/execution/local_manager.py:88-92 | JAVA_HOME is the JDK 17 home for `jdk_version` 17 or "17", and the JDK 8 home for every other value, including the default 8 |
| `Environment.ComposedEnv` | src/execution/local_manager.py:86-98 | the child environment is the inherited one with JAVA_HOME set to the selected home and PATH = `java_home/bin` : tool bin dir : inherited PATH (empty when unset); every other inherited variable is unchanged and no other key is added |
| `Resolver.FirstBinIndex` | src/execution/local_manager.py:109-113 | the index of the first walked directory that lists the binary and whose base name is `bin`; no earlier entry qualifies |
| `Resolver.SearchWalk` | src/execution/local_manager.py:107-113 | the os.walk loop with `break` returns `root/name` for exactly that first qualifying entry, or nothing |
| `Resolver.ResolveTool` | src/execution/local_manager.py:105-115 | the canonical `home/bin/name` wins when it exists; otherwise the first qualifying walked directory; no result exactly when neither exists; any result is a file called `name` in a directory called `bin` |
| `Resolver.ResolveBinary` | src/execution/local_manager.py:129-137 | the imperative resolution on the host yields `ResolveTool` of its current paths and walk |
| `Commands.MavenCommand` | src/execution/local_manager.py:141-156 | `[mvn, package, -DskipTests, -T, 1C]`, then `-pl !distribution` exactly when asked, then the three node-skipping flags in order, then `-s settings` when given; the length is 8, 10 or 12 |
| `Commands.MavenOptionsIff` | src/execution/local_manager.py:143-156 | `-pl` occurs anywhere in the Maven command iff the exclusion was asked for, and `-s` iff a settings file was given |
| `Commands.GradleCommand` | src/execution/local_manager.py:117-124 | `[gradle, compileJava, -x, test, --stacktrace, --info]`, extended with `--init-script path` exactly when a script is given |
| `Commands.GradleInitScriptIff` | src/execution/local_manager.py:119-124 | `--init-script` occurs anywhere in the Gradle command iff a script was given |
| `Cleaner.Cleaned` | src/execution/local_manager.py:59-72 | cleaning removes exactly the paths under an existing, removable `target` or `build` of the build directory and nothing else; a failed removal of one does not stop the other |
| `Cleaner.CleanIdempotent` | src/execution/local_manager.py:63-72 | cleaning twice leaves the same paths as cleaning once |
| `Extractor.SelectSource` | src/execution/local_manager.py:200-215 | the source is the first existing of `target/classes`, `build/classes/java/main`, `build/classes/main`; none exactly when none exists |
| `Extractor.ExtractSpec` | src/execution/local_manager.py:193-226 | no source: no change and no exception; an exception escapes exactly when a source exists and an existing `output/classes` cannot be deleted, and then nothing changes; no path outside `output/classes` is removed, and the only paths created outside it are its missing parent directories |
| `Extractor.FailedCopyLeavesNoClasses` | src/execution/local_manager.py:219-226 | when `output/classes` exists and is deleted but the copy then fails, no exception escapes and `output/classes` no longer exists: the old classes are lost |
| `Extractor.ExtractReplacesDestination` | src/execution/local_manager.py:217-223 | after a successful extraction `output/classes` holds exactly a copy of the source tree: a full replace, never a merge with what was there before |
| `LocalManagerModel.NewLocalManager` | src/execution/local_manager.py:7-17 | the workspace, configuration and relative build path are kept as given; the homes are `root/jdks/temurin8`, `root/jdks/temurin17`, `root/maven` and `root/gradle` under the installation root, and the template is `templates/init.gradle` next to the source file; so the JDK homes differ and the tool homes differ |
| `LocalManagerModel.GradleSetup` | src/execution/local_manager.py:103-126 | Gradle returns `(-1, "Gradle binary not found in <home>")` exactly when resolution fails; it raises exactly when the template exists and its copy into the workspace fails; otherwise it runs a binary `bin/gradle` and the workspace gains `init.gradle` iff the template exists |
| `LocalManagerModel.MavenSetup` | src/execution/local_manager.py:128-158 | Maven returns `(-1, "Maven binary not found in <home>")` exactly when resolution fails, never raises, and changes no path |
| `LocalManagerModel.PlanBuild` | src/execution/local_manager.py:82-161 | an unknown `build_tool` gives `(-1, "Unknown build tool: <str(tool)>")` and no launch; every early return has code -1; only Gradle can raise; a launch runs in the build directory with JAVA_HOME set to the selected home |
| `LocalManagerModel.MavenLaunch` | src/execution/local_manager.py:141-164 | a Maven launch runs exactly `MavenCommand` of the resolved `mvn`, whether `distribution` exists in the build directory, and the workspace's `settings.xml` when it exists; so `-pl` occurs iff `distribution` exists and `-s` iff the workspace holds `settings.xml`; the environment is the composed one with `dirname(mvn)` on PATH |
| `LocalManagerModel.GradleLaunch` | src/execution/local_manager.py:117-164 | a Gradle launch runs exactly `GradleCommand` of the resolved `gradle` and, when the template exists, the workspace's `init.gradle`; so `--init-script` occurs iff the template exists, in which case the workspace now holds `init.gradle`; the environment is the composed one with `dirname(gradle)` on PATH |
| `LocalManagerModel.DefaultBuildToolIsMaven` | src/execution/local_manager.py:82 | a configuration without `build_tool` behaves exactly like one with `"maven"` |
| `LocalManagerModel.Verdict` | src/execution/local_manager.py:42-57 | success exactly when the build exited with 0 and no exception escaped; the build's logs on a normal return, the exception's text otherwise |
| `LocalManagerModel.DestinationRemovalFailureFailsBuild` | src/execution/local_manager.py:219-220 | a build that exited with 0 is reported as failed with the error text when an existing `output/classes` cannot be deleted |
| `LocalManagerModel.CleanTargetOnHost` | src/execution/local_manager.py:59-72 | the loop over `target` and `build` leaves exactly `Cleaned` of the old paths and launches nothing |
| `LocalManagerModel.PrepareGradle` | src/execution/local_manager.py:103-126 | the Gradle branch, run step by step on the host, yields `GradleSetup` and its paths |
| `LocalManagerModel.PrepareMaven` | src/execution/local_manager.py:128-158 | the Maven branch, extending the command step by step, yields `MavenSetup` |
| `LocalManagerModel.RunBuild` | src/execution/local_manager.py:74-191 | the result is the plan's outcome: an early return, the escaping exception, or `(returncode, stdout + "\n" + stderr)` of the one launched process (`(-1, str(e))` when the launch raises); one launch is recorded whenever a launch is attempted, also when chmod or the spawn raises; the paths become what the child left behind, stay as at launch when it could not start, and change only by the `init.gradle` copy otherwise |
| `LocalManagerModel.ExecuteSpec` | src/execution/local_manager.py:36-57 | a reported success always comes with exactly one launch; when the run did not exit with 0 (a nonzero exit, a `-1` refusal or an exception), nothing is extracted and the call reports failure; when the output path is not truthy (absent or the empty string, never `/`), nothing is extracted, the call succeeds exactly when the build exited with 0, and the logs are the run's logs or the exception's text |
| `LocalManagerModel.ExecuteAfterSuccessfulBuild` | src/execution/local_manager.py:45-51 | after a build that exited with 0 and with an output path, `execute` extracts from the filesystem the build left behind, succeeds iff that extraction raised nothing, and launched exactly the build |
| `LocalManagerModel.ExecuteDeliversBuiltClasses` | src/execution/local_manager.py:36-57 | when the build leaves `target/classes` and the copy can be made, `execute` succeeds and `output/classes` holds exactly the relative paths of the tree the build wrote, whatever it held before |
| `LocalManagerModel.RebuildReplacesStaleClass` | src/execution/local_manager.py:217-223 | a class the build wrote (`A.class`) is in `output/classes` afterwards, and a stale class from an earlier run (`B.class`) that the build did not write is gone |
| `LocalManagerModel.ExtractArtifacts` | src/execution/local_manager.py:193-226 | extraction on the host yields `ExtractSpec` of the old paths and launches nothing |
| `LocalManagerModel.Execute` | src/execution/local_manager.py:36-57 | the call's result, the filesystem afterwards and the launches are those of `ExecuteSpec`: clean, run on the cleaned paths, extract from what the build left only when the exit code is 0 and the output path is truthy, and report `Verdict` of the run and of any exception from extraction |
| `HostOS.Host.RemoveTree` | src/execution/local_manager.py:70 | `shutil.rmtree` removes the whole tree, or raises with the fault's text and changes nothing |
| `HostOS.Host.CopyTree` | src/execution/local_manager.py:223 | `shutil.copytree` succeeds exactly when the source exists and is readable, the destination does not exist, and neither it nor a missing parent is a path that cannot be created; it then creates the missing parents and a mirror of the source tree; otherwise it changes nothing |
| `HostOS.Host.CopyFile` | src/execution/local_manager.py:123 | `shutil.copy` creates the destination, or raises with the fault's text and changes nothing |
| `HostOS.Host.Launch` | src/execution/local_manager.py:171-184 | chmod and `subprocess.run` give the oracle's answer for the invocation on the current filesystem and record one attempted launch; a child that ran leaves the filesystem the oracle gives, one that could not start changes nothing |

## Left out

- Logging (`logger.*`) and `_validate_tools` (src/execution/local_manager.py:21-34): they only emit messages.
- `os.chmod` and `subprocess.run` are one oracle from the invocation (command, working directory, environment) and the filesystem at launch to an exit (with the filesystem the child leaves) or a raised error. Permission bits and what Maven or Gradle actually compile are not modelled; a launch that raises after the child has started changing files is not modelled either.
- Why a tree cannot be read (permissions, a file where a directory is expected) is not modelled; `HostOS.Host.unreadable` names the trees whose copy fails.
- The traversal order of `os.walk`: each root's listing is given as input. Listings are not kept consistent with the path set.
- File contents: what the copied `init.gradle` holds, and what `copytree` copies beyond the shape of the tree.
- Failures part-way through `rmtree`, `copytree` or `copy` are not modelled. Each either completes or raises and changes nothing.
- Path strings are sequences of components. `os.path.join` with an absolute later part, trailing separators and normalisation are not modelled.
- Configuration values are integers, strings, booleans and None. Floats and other Python objects are not modelled.
- The hard-coded installation root and the directory of the source file are parameters of `NewLocalManager`.
- `os.environ` is a snapshot the manager reads and never changes.
- `src/healing/prompts.py` holds only prompt text and has no logic.
- `HostOS.Host.RemoveTree` and `HostOS.Host.CopyFile` require an existing path. The manager checks existence before each call.
- `Extractor.ExtractReplacesDestination` and `LocalManagerModel.ExecuteDeliversBuiltClasses` assume that no path lies under `output/classes` unless that directory exists, as on a real filesystem. They also assume that the destination does not contain the source tree, and the second one that the source does not contain the destination either.
