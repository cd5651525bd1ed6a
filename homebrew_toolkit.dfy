/** Homebrew (`HomebrewToolkitEnvironment`, `HomebrewScriptableToolkit`): the
    package manager's tools, optionally with a shell installed as a package.
    In strict mode on a GNU-like system the system's own tool directories are
    taken out of the inherited `PATH`. */
module HomebrewToolkit {
  import opened Wrappers
  import opened Text
  import opened ToolkitEnvironment
  import opened Diagnostics
  import opened Toolkits
  import SystemToolkit

  const Name: string := "brew"
  const Description: string := "Homebrew package manager."
  const FamilyName: string := "Homebrew"
  const FamilyTraits: FamilyTraits := NoTraits

  /** A Homebrew installation: the package manager's own installation path,
      and, for the scriptable toolkit, the directory of the shell package and
      that package's name. */
  datatype HomebrewInstance = HomebrewInstance(
    installationPath: Option<string>,
    shellPackagePath: string,
    shellPackageName: string)

  /** `Environment`: an empty (non-null) environment. */
  const ContributedEnvironment: Env := map[]

  /** The scriptable toolkit as the registry sees it. */
  function Record(instance: HomebrewInstance): Toolkit {
    Toolkit(
      Name, Description, instance.installationPath,
      Family(FamilyName, FamilyTraits), false,
      Some(Scripting(NoIsolation, Verbatim)),
      Some(Some(ContributedEnvironment)))
  }

  /** The directories whose tools a GNU-like system provides. */
  const SystemPaths: seq<Option<string>> := [Some("/bin"), Some("/usr/bin")]

  /** Strict mode strips the system directories only where the System family is
      GNU-like. */
  predicate StripsSystemPaths(host: Host, options: ExecutionOptions) {
    options.strict && HasFlag(SystemToolkit.FamilyTraits(host.os), Alike)
  }

  /** `PATH` without the system directories, when it is defined and not
      empty. */
  function WithoutSystemPaths(cfg: Config, env: Env): Env {
    var path := GetValueOrNull(cfg, env, PathVariable);
    if path.Some? && path.value != "" then SetValue(cfg, env, PathVariable, Some(RemovedPath(cfg, path.value, SystemPaths)))
    else env
  }

  /** What `ConfigureEnvironment` makes of the inherited environment. */
  function ConfiguredEnvironment(host: Host, options: ExecutionOptions): Env {
    var env := if StripsSystemPaths(host, options) then WithoutSystemPaths(host.cfg, host.inherited) else host.inherited;
    CombineEntries(host.cfg, env, ContributedEnvironment)
  }

  /** The environment of every process the toolkit starts: configured first,
      then overlaid by the caller's variables. */
  function FileEnvironment(host: Host, environment: Option<Env>, options: ExecutionOptions): Env {
    var env := ConfiguredEnvironment(host, options);
    if environment.None? then env else CombineEntries(host.cfg, env, environment.value)
  }

  /** `ConfigureEnvironment`. */
  method ConfigureEnvironment(host: Host, d: EnvironmentDictionary, options: ExecutionOptions)
    requires d.Valid() && d.cfg == host.cfg && d.entries == host.inherited
    modifies d
    ensures d.Valid()
    ensures d.entries == ConfiguredEnvironment(host, options)
  {
    if options.strict && HasFlag(SystemToolkit.FamilyTraits(host.os), Alike) {
      d.RemovePaths(SystemPaths);
    }
    d.CombineWith(Some(ContributedEnvironment));
  }

  /** The process `ExecuteFileCore(path, arguments)` starts. */
  function FileProcess(
    host: Host, path: string, arguments: seq<string>, environment: Option<Env>, options: ExecutionOptions): ProcessDescriptor
  {
    ProcessDescriptor(path, arguments, FileEnvironment(host, environment, options), None)
  }

  /** `ExecuteFileCore`. */
  method ExecuteFileCore(
    host: Host, path: string, arguments: seq<string>, environment: Option<Env>, options: ExecutionOptions)
    returns (r: ProcessDescriptor)
    requires host.Valid() && WfOption(host.cfg, environment)
    ensures r == FileProcess(host, path, arguments, environment, options)
  {
    var processEnvironment := new EnvironmentDictionary.FromEnv(host.cfg, host.inherited);
    ConfigureEnvironment(host, processEnvironment, options);
    processEnvironment.CombineWith(environment);
    r := ProcessDescriptor(path, arguments, processEnvironment.entries, None);
  }

  /** The shell: `bin/<package name>` inside the shell package. */
  function ShellPath(host: Host, instance: HomebrewInstance): string {
    host.combine(host.combine(instance.shellPackagePath, "bin"), instance.shellPackageName)
  }

  /** `GetShellPath`: the shell must exist. */
  method GetShellPath(host: Host, instance: HomebrewInstance) returns (r: Result<string, Error>)
    ensures r.Success? <==> ShellPath(host, instance) in host.files
    ensures r.Success? ==> r.value == ShellPath(host, instance)
    ensures r.Failure? ==> r.error == ModuleNotFound(ShellPath(host, instance))
  {
    var packagePath := instance.shellPackagePath;
    var shellPath := host.combine(host.combine(packagePath, "bin"), instance.shellPackageName);
    if shellPath !in host.files {
      return Failure(ModuleNotFound(shellPath));
    }
    return Success(shellPath);
  }

  /** The process `ExecuteShell(arguments)` starts, or the failure it raises. */
  function ShellProcess(
    host: Host, instance: HomebrewInstance, arguments: seq<string>, environment: Option<Env>, options: ExecutionOptions)
    : Result<ProcessDescriptor, Error>
  {
    var shellPath := ShellPath(host, instance);
    if shellPath !in host.files then Failure(ModuleNotFound(shellPath))
    else Success(FileProcess(host, shellPath, arguments, environment, options))
  }

  /** `ExecuteShell`. */
  method ExecuteShell(
    host: Host, instance: HomebrewInstance, arguments: seq<string>, environment: Option<Env>, options: ExecutionOptions)
    returns (r: Result<ProcessDescriptor, Error>)
    requires host.Valid() && WfOption(host.cfg, environment)
    ensures r == ShellProcess(host, instance, arguments, environment, options)
  {
    var shellPath := GetShellPath(host, instance);
    if shellPath.Failure? {
      return Failure(shellPath.error);
    }
    var process := ExecuteFileCore(host, shellPath.value, arguments, environment, options);
    r := Success(process);
  }

  /** `ExecuteShellCommand`: `-e -o pipefail -c command arguments...`, which
      both Bash and zsh accept. */
  method ExecuteShellCommand(
    host: Host, instance: HomebrewInstance, command: string, arguments: seq<string>,
    environment: Option<Env>, options: ExecutionOptions) returns (r: Result<ProcessDescriptor, Error>)
    requires host.Valid() && WfOption(host.cfg, environment)
    ensures r == ShellProcess(host, instance, ["-e", "-o", "pipefail", "-c", command] + arguments, environment, options)
  {
    r := ExecuteShell(host, instance, ["-e", "-o", "pipefail", "-c", command] + arguments, environment, options);
  }

  /** `ExecuteShellFile`: the shell runs the script at `path`. */
  method ExecuteShellFile(
    host: Host, instance: HomebrewInstance, path: string, arguments: seq<string>,
    environment: Option<Env>, options: ExecutionOptions) returns (r: Result<ProcessDescriptor, Error>)
    requires host.Valid() && WfOption(host.cfg, environment)
    ensures r == ShellProcess(host, instance, [path] + arguments, environment, options)
  {
    r := ExecuteShell(host, instance, [path] + arguments, environment, options);
  }

  /** `ExecuteFile`: the file itself is started, with no shell in between. */
  method ExecuteFile(
    host: Host, path: string, arguments: seq<string>, environment: Option<Env>, options: ExecutionOptions)
    returns (r: ProcessDescriptor)
    requires host.Valid() && WfOption(host.cfg, environment)
    ensures r == FileProcess(host, path, arguments, environment, options)
  {
    r := ExecuteFileCore(host, path, arguments, environment, options);
  }

  // ---------------------------------------------------------------------------
  // Properties
  // ---------------------------------------------------------------------------

  /** Without strict mode, or on Linux, the inherited environment is used as
      it is; in strict mode elsewhere a non-empty inherited `PATH` loses
      `/bin` and `/usr/bin` and keeps its other entries in order, once each. */
  lemma ConfiguredPath(host: Host, options: ExecutionOptions)
    ensures !StripsSystemPaths(host, options) ==> ConfiguredEnvironment(host, options) == host.inherited
    ensures StripsSystemPaths(host, options) <==> options.strict && host.os != Linux
    ensures var path := GetValueOrNull(host.cfg, host.inherited, PathVariable);
            StripsSystemPaths(host, options) && path.Some? && path.value != "" ==>
              var sep := host.cfg.pathSeparator;
              var key := PathKey(host.cfg);
              var stripped := TryGetValue(host.cfg, ConfiguredEnvironment(host, options), PathVariable);
              && stripped.Some? && stripped.value.Some?
              && Split(stripped.value.value, sep) == DistinctExcept(Split(path.value, sep), key, {key("/bin"), key("/usr/bin")})
              && UniqueKeys(Split(stripped.value.value, sep), key)
              && (forall q :: q in Split(stripped.value.value, sep) ==> key(q) != key("/bin") && key(q) != key("/usr/bin"))
              && (forall p :: p in Split(path.value, sep) && key(p) != key("/bin") && key(p) != key("/usr/bin") ==>
                    exists q :: q in Split(stripped.value.value, sep) && key(q) == key(p))
  {
    var cfg := host.cfg;
    var env := if StripsSystemPaths(host, options) then WithoutSystemPaths(cfg, host.inherited) else host.inherited;
    CombineWithEmpty(cfg, env);
    assert StripsSystemPaths(host, options) <==> options.strict && host.os != Linux by {
      assert HasFlag(SystemToolkit.FamilyTraits(host.os), Alike) <==> host.os != Linux;
    }
    var path := GetValueOrNull(cfg, host.inherited, PathVariable);
    if StripsSystemPaths(host, options) && path.Some? && path.value != "" {
      StrippedPathEntries(cfg, path.value);
    }
  }

  /** The entries left after the system directories are taken out of `path`. */
  lemma StrippedPathEntries(cfg: Config, path: string)
    ensures var sep := cfg.pathSeparator;
            var key := PathKey(cfg);
            var stripped := Split(RemovedPath(cfg, path, SystemPaths), sep);
            && stripped == DistinctExcept(Split(path, sep), key, {key("/bin"), key("/usr/bin")})
            && UniqueKeys(stripped, key)
            && (forall q :: q in stripped ==> key(q) != key("/bin") && key(q) != key("/usr/bin"))
            && (forall p :: p in Split(path, sep) && key(p) != key("/bin") && key(p) != key("/usr/bin") ==>
                  exists q :: q in stripped && key(q) == key(p))
  {
    RemovedPathEntries(cfg, path, SystemPaths);
    assert ExcludedKeys(cfg, SystemPaths) == {PathKey(cfg)("/bin"), PathKey(cfg)("/usr/bin")} by {
      assert SystemPaths[0].value == "/bin" && SystemPaths[1].value == "/usr/bin";
    }
  }

  /** The caller's variables win over what the toolkit configured, except for
      `PATH` and the flag variables, which are merged. */
  lemma CallerOverrides(host: Host, environment: Env, options: ExecutionOptions, k: string)
    requires k in environment
    requires var configured := ConfiguredEnvironment(host, options);
             UnionName(configured, environment, k) != PathVariable && !IsFlagsVariable(UnionName(configured, environment, k))
    ensures FileEnvironment(host, Some(environment), options)[k].value == environment[k].value
  {
    CombineLaterWins(host.cfg, ConfiguredEnvironment(host, options), environment, k);
  }

  /** The entries of the example `PATH`. */
  lemma ExamplePathEntries()
    ensures Split("/bin:/usr/bin:/opt/mytool/bin", ':') == ["/bin", "/usr/bin", "/opt/mytool/bin"]
  {
    var parts := ["/bin", "/usr/bin", "/opt/mytool/bin"];
    ExampleJoined(parts);
    ExampleSegments(parts);
    SplitJoin(parts, ':');
  }

  /** Proof step of `ExamplePathEntries`: the three entries joined by `:`. */
  lemma ExampleJoined(parts: seq<string>)
    requires parts == ["/bin", "/usr/bin", "/opt/mytool/bin"]
    ensures Join(parts, ':') == "/bin:/usr/bin:/opt/mytool/bin"
  {
    assert Join(parts[2..], ':') == parts[2];
    assert Join(parts[1..], ':') == parts[1] + [':'] + parts[2];
    assert Join(parts, ':') == parts[0] + [':'] + (parts[1] + [':'] + parts[2]);
    ExampleSpelled();
  }

  /** Proof step of `ExampleJoined`: the joined literal, spelled out. */
  lemma ExampleSpelled()
    ensures "/bin" + ":" + ("/usr/bin" + ":" + "/opt/mytool/bin") == "/bin:/usr/bin:/opt/mytool/bin"
  {
    assert "/usr/bin" + ":" + "/opt/mytool/bin" == "/usr/bin:/opt/mytool/bin";
  }

  /** Proof step of `ExamplePathEntries`: no entry contains the separator. */
  lemma ExampleSegments(parts: seq<string>)
    requires parts == ["/bin", "/usr/bin", "/opt/mytool/bin"]
    ensures Segments(parts, ':')
  {
    assert ':' !in parts[0];
    assert ':' !in parts[1];
    assert ':' !in parts[2];
  }

  /** The strict-mode example: on a GNU-like system `/bin:/usr/bin:/opt/mytool/bin`
      becomes `/opt/mytool/bin`. */
  lemma StrictPathExample()
    ensures var cfg := Config(false, false, ':');
            RemovedPath(cfg, "/bin:/usr/bin:/opt/mytool/bin", SystemPaths) == "/opt/mytool/bin"
  {
    var cfg := Config(false, false, ':');
    var parts := ["/bin", "/usr/bin", "/opt/mytool/bin"];
    ExamplePathEntries();
    assert SplitPath(cfg, "/bin:/usr/bin:/opt/mytool/bin") == parts;
    ExampleExcluded(cfg, parts);
    assert JoinPaths(cfg, ["/opt/mytool/bin"]) == "/opt/mytool/bin";
  }

  /** Proof step of `StrictPathExample`: only `/opt/mytool/bin` survives the exclusion. */
  lemma ExampleExcluded(cfg: Config, parts: seq<string>)
    requires cfg == Config(false, false, ':')
    requires parts == ["/bin", "/usr/bin", "/opt/mytool/bin"]
    ensures DistinctExcept(parts, PathKey(cfg), ExcludedKeys(cfg, SystemPaths)) == ["/opt/mytool/bin"]
  {
    assert ExcludedKeys(cfg, SystemPaths) == {"/bin", "/usr/bin"} by {
      assert SystemPaths[0].value == "/bin" && SystemPaths[1].value == "/usr/bin";
    }
    var key := PathKey(cfg);
    assert key("/bin") == "/bin" && key("/usr/bin") == "/usr/bin" && key("/opt/mytool/bin") == "/opt/mytool/bin";
    assert DistinctExcept(parts[2..], key, {"/bin", "/usr/bin"}) == ["/opt/mytool/bin"] by {
      assert parts[2..][1..] == [];
    }
    assert DistinctExcept(parts, key, {"/bin", "/usr/bin"}) == ["/opt/mytool/bin"] by {
      assert parts[1..][1..] == parts[2..];
    }
  }
}
