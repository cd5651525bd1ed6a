/** MSYS2 (`MSys2Toolkit`): one toolkit per MSYS2 environment (UCRT64,
    MINGW64, ...), scripted through the installation's `usr/bin/sh.exe`, a
    Bash in POSIX disguise. */
module MSys2Toolkit {
  import opened Wrappers
  import opened Text
  import opened ToolkitEnvironment
  import opened Diagnostics
  import opened Toolkits
  import opened ShellCommandLine

  const FamilyName: string := "MSYS2"
  const Traits: FamilyTraits := Installable | Portable
  const RepositoryPrefixVariable: string := "GNU_TK_MSYS2_REPOSITORY_PREFIX"

  /** An MSYS2 environment as the deployment library reports it; `shellPath`
      and `binPath` are `usr/bin/sh.exe` and `usr/bin` resolved against the
      installation. */
  datatype MSys2Environment = MSys2Environment(
    name: string,
    installationPath: string,
    displayName: string,
    setupInstallationPath: Option<string>,
    shellPath: string,
    binPath: string)

  /** `Name`: the family and environment names, lower-cased. */
  function Name(e: MSys2Environment): (r: string)
    ensures |r| == |FamilyName| + 1 + |e.name|
    ensures forall i :: 0 <= i < |r| ==> !('A' <= r[i] <= 'Z')
    ensures r == ToLowerAsciiString(FamilyName) + "-" + ToLowerAsciiString(e.name)
  {
    ToLowerAsciiConcat(FamilyName + "-", e.name);
    ToLowerAsciiConcat(FamilyName, "-");
    ToLowerAsciiString(FamilyName + "-" + e.name)
  }

  /** The toolkit as the registry sees it: no isolation, drive paths rewritten
      at the root (no `/cygdrive` prefix), and the MSYS variables as its
      contribution. The family lacks `FilePathTranslation`. */
  function Record(host: Host, e: MSys2Environment): Toolkit {
    Toolkit(
      Name(e), e.displayName, e.setupInstallationPath,
      Family(FamilyName, Traits), false,
      Some(Scripting(NoIsolation, DriveRewrite(None))),
      Some(Some(ContributedEnvironment(host, e))))
  }

  lemma NameExample(e: MSys2Environment)
    requires e.name == "UCRT64"
    ensures Name(e) == "msys2-ucrt64"
  {
    assert FamilyName + "-" + e.name == "MSYS2-UCRT64";
  }

  /** The environments whose package repositories are known. */
  const KnownEnvironments: set<string> := {"UCRT64", "CLANG64", "CLANGARM64", "MSYS", "MINGW64", "MINGW32"}

  /** The package-name prefix of an environment's repository; null for an
      unknown environment. */
  function RepositoryPrefix(mSystem: string): (r: Option<string>)
    ensures r.Some? <==> mSystem in KnownEnvironments
    ensures r == Some("") <==> mSystem == "MSYS"
    ensures r.Some? && mSystem != "MSYS" ==>
              |r.value| > 10 && r.value[..10] == "mingw-w64-" && r.value[|r.value| - 1] == '-'
  {
    if mSystem == "UCRT64" then Some("mingw-w64-ucrt-x86_64-")
    else if mSystem == "CLANG64" then Some("mingw-w64-clang-x86_64-")
    else if mSystem == "CLANGARM64" then Some("mingw-w64-clang-aarch64-")
    else if mSystem == "MSYS" then Some("")
    else if mSystem == "MINGW64" then Some("mingw-w64-x86_64-")
    else if mSystem == "MINGW32" then Some("mingw-w64-i686-")
    else None
  }

  // ---------------------------------------------------------------------------
  // Environment configuration
  // ---------------------------------------------------------------------------

  /** The variables `ConfigureEnvironment` writes over `env`. */
  function Configured(cfg: Config, env: Env, mSystem: string): Env {
    var env1 := SetValue(cfg, env, "MSYSTEM", Some(mSystem));
    var env2 := SetValue(cfg, env1, "MSYSCON", Some(""));
    SetValue(cfg, env2, RepositoryPrefixVariable, RepositoryPrefix(mSystem))
  }

  /** The variables `ConfigureShellEnvironment` writes over `env`. */
  function ShellConfigured(cfg: Config, env: Env): Env {
    SetValue(cfg, SetValue(cfg, env, "CHERE_INVOKING", Some("1")), "MSYS2_PATH_TYPE", Some("inherit"))
  }

  method ConfigureEnvironment(d: EnvironmentDictionary, e: MSys2Environment)
    requires d.Valid()
    modifies d
    ensures d.Valid()
    ensures d.entries == Configured(d.cfg, old(d.entries), e.name)
  {
    var mSystem := e.name;
    d.Set("MSYSTEM", Some(mSystem));
    d.Set("MSYSCON", Some(""));
    var repositoryPrefix := RepositoryPrefix(mSystem);
    d.Set(RepositoryPrefixVariable, repositoryPrefix);
  }

  method ConfigureShellEnvironment(d: EnvironmentDictionary)
    requires d.Valid()
    modifies d
    ensures d.Valid()
    ensures d.entries == ShellConfigured(d.cfg, old(d.entries))
  {
    d.Set("CHERE_INVOKING", Some("1"));
    d.Set("MSYS2_PATH_TYPE", Some("inherit"));
  }

  /** The environment the toolkit contributes to a composite toolkit. */
  function ContributedEnvironment(host: Host, e: MSys2Environment): Env {
    var env := Configured(host.cfg, map[], e.name);
    if e.binPath in host.directories then SetValue(host.cfg, env, PathVariable, Some(e.binPath)) else env
  }

  /** `GetEnvironmentCore`: the MSYS variables, and `PATH` set to `usr/bin`
      when that directory exists. */
  method GetEnvironmentCore(host: Host, e: MSys2Environment) returns (r: Env)
    ensures r == ContributedEnvironment(host, e)
  {
    var environment := new EnvironmentDictionary(host.cfg);
    ConfigureEnvironment(environment, e);
    if e.binPath in host.directories {
      environment.Set(PathVariable, Some(e.binPath));
    }
    r := environment.entries;
  }

  /** The MSYS variables `ConfigureEnvironment` writes are all readable
      afterwards. */
  lemma ConfiguredVariables(cfg: Config, env: Env, mSystem: string)
    ensures var r := Configured(cfg, env, mSystem);
            && TryGetValue(cfg, r, "MSYSTEM") == Some(Some(mSystem))
            && TryGetValue(cfg, r, "MSYSCON") == Some(Some(""))
            && TryGetValue(cfg, r, RepositoryPrefixVariable) == Some(RepositoryPrefix(mSystem))
            && r.Keys == env.Keys + {NameKey(cfg, "MSYSTEM"), NameKey(cfg, "MSYSCON"), NameKey(cfg, RepositoryPrefixVariable)}
  {
    var env1 := SetValue(cfg, env, "MSYSTEM", Some(mSystem));
    var env2 := SetValue(cfg, env1, "MSYSCON", Some(""));
    var r := SetValue(cfg, env2, RepositoryPrefixVariable, RepositoryPrefix(mSystem));
    assert r.Keys == env.Keys + {NameKey(cfg, "MSYSTEM")} + {NameKey(cfg, "MSYSCON")} + {NameKey(cfg, RepositoryPrefixVariable)};
    DistinctNamesAt(cfg, "MSYSTEM", "MSYSCON", 4);
    SetValueOther(cfg, env1, "MSYSCON", Some(""), "MSYSTEM");
    assert TryGetValue(cfg, env2, "MSYSTEM") == Some(Some(mSystem));
    DistinctNameLengths(cfg, "MSYSTEM", RepositoryPrefixVariable);
    DistinctNameLengths(cfg, "MSYSCON", RepositoryPrefixVariable);
    SetValueOther(cfg, env2, RepositoryPrefixVariable, RepositoryPrefix(mSystem), "MSYSTEM");
    SetValueOther(cfg, env2, RepositoryPrefixVariable, RepositoryPrefix(mSystem), "MSYSCON");
  }

  /** The contributed environment holds exactly the three MSYS variables, and
      `PATH` = `usr/bin` when that directory exists. */
  lemma ContributedEnvironmentContents(host: Host, e: MSys2Environment)
    ensures var cfg := host.cfg;
            var env := ContributedEnvironment(host, e);
            var names := {NameKey(cfg, "MSYSTEM"), NameKey(cfg, "MSYSCON"), NameKey(cfg, RepositoryPrefixVariable)};
            && TryGetValue(cfg, env, "MSYSTEM") == Some(Some(e.name))
            && TryGetValue(cfg, env, "MSYSCON") == Some(Some(""))
            && TryGetValue(cfg, env, RepositoryPrefixVariable) == Some(RepositoryPrefix(e.name))
            && env.Keys == names + (if e.binPath in host.directories then {NameKey(cfg, PathVariable)} else {})
            && (e.binPath in host.directories ==> TryGetValue(cfg, env, PathVariable) == Some(Some(e.binPath)))
  {
    var cfg := host.cfg;
    var env := Configured(cfg, map[], e.name);
    ConfiguredVariables(cfg, map[], e.name);
    if e.binPath in host.directories {
      DistinctNameLengths(cfg, "MSYSTEM", PathVariable);
      DistinctNameLengths(cfg, "MSYSCON", PathVariable);
      DistinctNameLengths(cfg, RepositoryPrefixVariable, PathVariable);
      SetValueOther(cfg, env, PathVariable, Some(e.binPath), "MSYSTEM");
      SetValueOther(cfg, env, PathVariable, Some(e.binPath), "MSYSCON");
      SetValueOther(cfg, env, PathVariable, Some(e.binPath), RepositoryPrefixVariable);
    }
  }

  // ---------------------------------------------------------------------------
  // Shell execution
  // ---------------------------------------------------------------------------

  /** The directories put in front of `PATH`: the shell's own directory, then
      the environment's `bin` directory when it exists. */
  function LookupDirectories(host: Host, e: MSys2Environment): seq<Option<string>> {
    var environmentBinPath := host.combine(e.installationPath, "bin");
    [host.directoryName(e.shellPath)] + (if environmentBinPath in host.directories then [Some(environmentBinPath)] else [])
  }

  /** The process environment before `PATH` is edited. */
  function ConfiguredEnvironment(host: Host, e: MSys2Environment, environment: Option<Env>): Env {
    ShellConfigured(host.cfg, Configured(host.cfg, ProcessEnvironment(host, environment), e.name))
  }

  /** The complete process environment of the shell. */
  function ShellEnvironment(host: Host, e: MSys2Environment, environment: Option<Env>): Env {
    var env := ConfiguredEnvironment(host, e, environment);
    SetValue(host.cfg, env, PathVariable,
             Some(PrependedPath(host.cfg, GetValueOrNull(host.cfg, env, PathVariable), LookupDirectories(host, e))))
  }

  /** The process `ExecuteCommandCore` starts, or the failure it raises. */
  function ShellProcess(
    host: Host, e: MSys2Environment, command: string, commandArguments: seq<string>,
    environment: Option<Env>, extras: seq<string>): Result<ProcessDescriptor, Error>
  {
    if e.shellPath !in host.files then Failure(ModuleNotFound(e.shellPath))
    else
      var posixlyCorrect := ContainsName(host.cfg, ConfiguredEnvironment(host, e, environment), PosixlyCorrect);
      Success(ProcessDescriptor(
        e.shellPath,
        LoginShellArguments(posixlyCorrect, extras, command, commandArguments, e.shellPath),
        ShellEnvironment(host, e, environment),
        None))
  }

  /** `GetShellPath`: `usr/bin/sh.exe`, which must exist. */
  method GetShellPath(host: Host, e: MSys2Environment) returns (r: Result<string, Error>)
    ensures r.Success? <==> e.shellPath in host.files
    ensures r.Success? ==> r.value == e.shellPath
    ensures r.Failure? ==> r.error == ModuleNotFound(e.shellPath)
  {
    var shellPath := e.shellPath;
    if shellPath !in host.files {
      return Failure(ModuleNotFound(shellPath));
    }
    return Success(shellPath);
  }

  /** The lookup paths `ExecuteCommandCore` puts in front of `PATH`. */
  method GetLookupPaths(host: Host, e: MSys2Environment) returns (paths: seq<Option<string>>)
    ensures paths == LookupDirectories(host, e)
  {
    paths := [host.directoryName(e.shellPath)];
    var environmentBinPath := host.combine(e.installationPath, "bin");
    if environmentBinPath in host.directories {
      paths := paths + [Some(environmentBinPath)];
    }
  }

  /** `ExecuteCommandCore`: overlays the caller's environment on the inherited
      one, sets the MSYS variables, puts the shell's directories in front of
      `PATH`, and composes the login-shell command line. */
  method ExecuteCommandCore(
    host: Host, e: MSys2Environment, command: string, commandArguments: seq<string>,
    environment: Option<Env>, extras: seq<string>) returns (r: Result<ProcessDescriptor, Error>)
    requires host.Valid() && WfOption(host.cfg, environment)
    ensures r == ShellProcess(host, e, command, commandArguments, environment, extras)
  {
    var shellPathResult := GetShellPath(host, e);
    if shellPathResult.Failure? {
      return Failure(shellPathResult.error);
    }
    var shellPath := shellPathResult.value;

    var processEnvironment := new EnvironmentDictionary.FromEnv(host.cfg, host.inherited);
    processEnvironment.CombineWith(environment);
    assert processEnvironment.entries == ProcessEnvironment(host, environment);
    ConfigureEnvironment(processEnvironment, e);
    ConfigureShellEnvironment(processEnvironment);
    ghost var configured := processEnvironment.entries;
    assert configured == ConfiguredEnvironment(host, e, environment);

    var posixlyCorrect := processEnvironment.ContainsKey(PosixlyCorrect);
    assert posixlyCorrect == ContainsName(host.cfg, configured, PosixlyCorrect);
    var paths := GetLookupPaths(host, e);
    processEnvironment.PrependPaths(paths);
    ghost var shellEnvironment := processEnvironment.entries;
    assert shellEnvironment == ShellEnvironment(host, e, environment);

    var shellArguments := BuildLoginShellArguments(posixlyCorrect, extras, command, commandArguments, shellPath);
    r := Success(ProcessDescriptor(shellPath, shellArguments, processEnvironment.entries, None));
  }

  /** `ExecuteCommand`: the command runs with `-e -o pipefail`. */
  method ExecuteCommand(
    host: Host, e: MSys2Environment, command: string, arguments: seq<string>,
    environment: Option<Env>, options: ExecutionOptions) returns (r: Result<ProcessDescriptor, Error>)
    requires host.Valid() && WfOption(host.cfg, environment)
    ensures r == ShellProcess(host, e, command, arguments, environment, ["-e", "-o", "pipefail"])
  {
    r := ExecuteCommandCore(host, e, command, arguments, environment, ["-e", "-o", "pipefail"]);
  }

  /** The command that runs a script file given as `$0`. */
  const RunScript: string := "sh \"$0\" \"$@\""

  /** `ExecuteFile`: `sh "$0" "$@"` with the path as `$0`, without extras. */
  method ExecuteFile(
    host: Host, e: MSys2Environment, path: string, arguments: seq<string>,
    environment: Option<Env>, options: ExecutionOptions) returns (r: Result<ProcessDescriptor, Error>)
    requires host.Valid() && WfOption(host.cfg, environment)
    ensures r == ShellProcess(host, e, RunScript, [path] + arguments, environment, [])
  {
    r := ExecuteCommandCore(host, e, RunScript, [path] + arguments, environment, []);
  }

  // ---------------------------------------------------------------------------
  // Properties of the shell process
  // ---------------------------------------------------------------------------

  /** The shell fails to start exactly when `usr/bin/sh.exe` is missing, and it
      runs in POSIX mode behind the `unset POSIXLY_CORRECT;` prologue exactly
      when neither the inherited nor the caller's environment defines
      `POSIXLY_CORRECT`. */
  lemma ShellProcessPosixMode(
    host: Host, e: MSys2Environment, command: string, commandArguments: seq<string>,
    environment: Option<Env>, extras: seq<string>)
    requires CommandStringOption !in extras && "-posix" !in extras
    ensures var r := ShellProcess(host, e, command, commandArguments, environment, extras);
            var defined := ContainsName(host.cfg, host.inherited, PosixlyCorrect) ||
                           (environment.Some? && ContainsName(host.cfg, environment.value, PosixlyCorrect));
            && (r.Failure? <==> e.shellPath !in host.files)
            && (r.Failure? ==> r.error == ModuleNotFound(e.shellPath))
            && (r.Success? ==>
                  var inv := Parse(r.value.arguments);
                  && inv.Some?
                  && ("-posix" in inv.value.options <==> !defined)
                  && inv.value.commandString == (if defined then "" else UnsetPosixlyCorrect) + command
                  && inv.value.commandName == Some(if commandArguments == [] then e.shellPath else commandArguments[0]))
  {
    var cfg := host.cfg;
    ConfiguredPosixlyCorrect(host, e, environment);
    var posixlyCorrect := ContainsName(cfg, ConfiguredEnvironment(host, e, environment), PosixlyCorrect);
    LoginShellInvocation(posixlyCorrect, extras, command, commandArguments, e.shellPath);
  }

  /** The MSYS variables leave `POSIXLY_CORRECT` as the inherited and the
      caller's environments define it. */
  lemma ConfiguredPosixlyCorrect(host: Host, e: MSys2Environment, environment: Option<Env>)
    ensures ContainsName(host.cfg, ConfiguredEnvironment(host, e, environment), PosixlyCorrect) <==>
            ContainsName(host.cfg, host.inherited, PosixlyCorrect) ||
            (environment.Some? && ContainsName(host.cfg, environment.value, PosixlyCorrect))
  {
    var cfg := host.cfg;
    var pc := PosixlyCorrect;
    var env0 := ProcessEnvironment(host, environment);
    var env1 := SetValue(cfg, env0, "MSYSTEM", Some(e.name));
    var env2 := SetValue(cfg, env1, "MSYSCON", Some(""));
    var env3 := SetValue(cfg, env2, RepositoryPrefixVariable, RepositoryPrefix(e.name));
    var env4 := SetValue(cfg, env3, "CHERE_INVOKING", Some("1"));
    DistinctNameLengths(cfg, pc, "MSYSTEM");
    DistinctNameLengths(cfg, pc, "MSYSCON");
    DistinctNameLengths(cfg, pc, RepositoryPrefixVariable);
    DistinctNameLengths(cfg, pc, "CHERE_INVOKING");
    DistinctNamesAt(cfg, pc, "MSYS2_PATH_TYPE", 0);
    SetValueOther(cfg, env0, "MSYSTEM", Some(e.name), pc);
    SetValueOther(cfg, env1, "MSYSCON", Some(""), pc);
    SetValueOther(cfg, env2, RepositoryPrefixVariable, RepositoryPrefix(e.name), pc);
    SetValueOther(cfg, env3, "CHERE_INVOKING", Some("1"), pc);
    SetValueOther(cfg, env4, "MSYS2_PATH_TYPE", Some("inherit"), pc);
  }

  /** Before `PATH` is edited the shell's environment holds the MSYS
      variables. */
  lemma ConfiguredEnvironmentVariables(host: Host, e: MSys2Environment, environment: Option<Env>)
    ensures var cfg := host.cfg;
            var env := ConfiguredEnvironment(host, e, environment);
            && TryGetValue(cfg, env, "MSYSTEM") == Some(Some(e.name))
            && TryGetValue(cfg, env, "MSYSCON") == Some(Some(""))
            && TryGetValue(cfg, env, RepositoryPrefixVariable) == Some(RepositoryPrefix(e.name))
            && TryGetValue(cfg, env, "CHERE_INVOKING") == Some(Some("1"))
            && TryGetValue(cfg, env, "MSYS2_PATH_TYPE") == Some(Some("inherit"))
  {
    var cfg := host.cfg;
    var env0 := Configured(cfg, ProcessEnvironment(host, environment), e.name);
    ConfiguredVariables(cfg, ProcessEnvironment(host, environment), e.name);
    var env1 := SetValue(cfg, env0, "CHERE_INVOKING", Some("1"));
    DistinctNameLengths(cfg, "MSYSTEM", "CHERE_INVOKING");
    DistinctNameLengths(cfg, "MSYSCON", "CHERE_INVOKING");
    DistinctNameLengths(cfg, RepositoryPrefixVariable, "CHERE_INVOKING");
    DistinctNameLengths(cfg, "MSYSTEM", "MSYS2_PATH_TYPE");
    DistinctNameLengths(cfg, "MSYSCON", "MSYS2_PATH_TYPE");
    DistinctNameLengths(cfg, RepositoryPrefixVariable, "MSYS2_PATH_TYPE");
    DistinctNameLengths(cfg, "CHERE_INVOKING", "MSYS2_PATH_TYPE");
    SetValueOther(cfg, env0, "CHERE_INVOKING", Some("1"), "MSYSTEM");
    SetValueOther(cfg, env0, "CHERE_INVOKING", Some("1"), "MSYSCON");
    SetValueOther(cfg, env0, "CHERE_INVOKING", Some("1"), RepositoryPrefixVariable);
    SetValueOther(cfg, env1, "MSYS2_PATH_TYPE", Some("inherit"), "MSYSTEM");
    SetValueOther(cfg, env1, "MSYS2_PATH_TYPE", Some("inherit"), "MSYSCON");
    SetValueOther(cfg, env1, "MSYS2_PATH_TYPE", Some("inherit"), RepositoryPrefixVariable);
    SetValueOther(cfg, env1, "MSYS2_PATH_TYPE", Some("inherit"), "CHERE_INVOKING");
  }

  /** The shell sees the MSYS variables over whatever the caller passed. */
  lemma ShellEnvironmentVariables(host: Host, e: MSys2Environment, environment: Option<Env>)
    ensures var cfg := host.cfg;
            var env := ShellEnvironment(host, e, environment);
            && TryGetValue(cfg, env, "MSYSTEM") == Some(Some(e.name))
            && TryGetValue(cfg, env, "MSYSCON") == Some(Some(""))
            && TryGetValue(cfg, env, RepositoryPrefixVariable) == Some(RepositoryPrefix(e.name))
            && TryGetValue(cfg, env, "CHERE_INVOKING") == Some(Some("1"))
            && TryGetValue(cfg, env, "MSYS2_PATH_TYPE") == Some(Some("inherit"))
  {
    var cfg := host.cfg;
    var env := ConfiguredEnvironment(host, e, environment);
    ConfiguredEnvironmentVariables(host, e, environment);
    var path := Some(PrependedPath(cfg, GetValueOrNull(cfg, env, PathVariable), LookupDirectories(host, e)));
    DistinctNameLengths(cfg, "MSYSTEM", PathVariable);
    DistinctNameLengths(cfg, "MSYSCON", PathVariable);
    DistinctNameLengths(cfg, RepositoryPrefixVariable, PathVariable);
    DistinctNameLengths(cfg, "CHERE_INVOKING", PathVariable);
    DistinctNameLengths(cfg, "MSYS2_PATH_TYPE", PathVariable);
    SetValueOther(cfg, env, PathVariable, path, "MSYSTEM");
    SetValueOther(cfg, env, PathVariable, path, "MSYSCON");
    SetValueOther(cfg, env, PathVariable, path, RepositoryPrefixVariable);
    SetValueOther(cfg, env, PathVariable, path, "CHERE_INVOKING");
    SetValueOther(cfg, env, PathVariable, path, "MSYS2_PATH_TYPE");
  }

  /** `PATH` always starts with the shell's directory, whatever the caller's
      `PATH` was. */
  lemma ShellEnvironmentPath(host: Host, e: MSys2Environment, environment: Option<Env>, shellDirectory: string)
    requires host.directoryName(e.shellPath) == Some(shellDirectory) && shellDirectory != ""
    requires NoSeparatorIn(host.cfg, LookupDirectories(host, e))
    ensures var value := TryGetValue(host.cfg, ShellEnvironment(host, e, environment), PathVariable);
            && value.Some? && value.value.Some?
            && |SplitPath(host.cfg, value.value.value)| > 0
            && SplitPath(host.cfg, value.value.value)[0] == shellDirectory
  {
    var cfg := host.cfg;
    var env := ConfiguredEnvironment(host, e, environment);
    PrependedPathFirst(cfg, GetValueOrNull(cfg, env, PathVariable), LookupDirectories(host, e), shellDirectory);
  }
}
