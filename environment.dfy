/** JDK selection and the environment handed to the build process. */
module Environment {
  import opened Paths
  import opened PyValues

  /** The JDK home for a configured `jdk_version`: a two-way switch on `str(v) == "17"`. */
  function JavaHome(jdkVersion: Value, jdk8Home: Path, jdk17Home: Path): (home: Path)
    ensures jdkVersion == Int(17) || jdkVersion == Text("17") ==> home == jdk17Home
    ensures !(jdkVersion == Int(17) || jdkVersion == Text("17")) ==> home == jdk8Home
  {
    StrIs17(jdkVersion);
    if Str(jdkVersion) == "17" then jdk17Home else jdk8Home
  }

  /** The PATH value: the JDK's bin directory, then the build tool's bin directory, then the
      inherited PATH (empty when unset), separated by os.pathsep. */
  function ComposedPath(inherited: map<string, string>, javaHome: Path, toolBin: Path): string
  {
    JoinWith(PathListSep, [Render(javaHome + ["bin"]), Render(toolBin)]) + PathListSep
      + (if "PATH" in inherited then inherited["PATH"] else "")
  }

  /** The child's environment: a copy of the inherited one with JAVA_HOME set and PATH
      prefixed; every other variable is passed through unchanged. */
  function ComposedEnv(inherited: map<string, string>, javaHome: Path, toolBin: Path): (env: map<string, string>)
    ensures env.Keys == inherited.Keys + {"JAVA_HOME", "PATH"}
    ensures env["JAVA_HOME"] == Render(javaHome)
    ensures env["PATH"] == Render(javaHome + ["bin"]) + ":" + Render(toolBin) + ":"
                           + (if "PATH" in inherited then inherited["PATH"] else "")
    ensures forall k :: k in inherited && k != "JAVA_HOME" && k != "PATH" ==> env[k] == inherited[k]
  {
    var parts := [Render(javaHome + ["bin"]), Render(toolBin)];
    assert parts[..1] == [parts[0]];
    assert JoinWith(PathListSep, parts[..1]) == parts[0];
    assert JoinWith(PathListSep, parts) == parts[0] + ":" + parts[1];
    var withHome := inherited["JAVA_HOME" := Render(javaHome)];
    withHome["PATH" := ComposedPath(inherited, javaHome, toolBin)]
  }
}
