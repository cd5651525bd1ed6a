/** Cygwin (`CygwinToolkit`): scripted through the installation's
    `bin/sh.exe`, a Bash in POSIX disguise; host paths are rewritten under
    `/cygdrive`. */
module CygwinToolkit {
  import opened Wrappers
  import opened ToolkitEnvironment
  import opened Diagnostics
  import opened Toolkits
  import opened ShellCommandLine
  import CygwinFileSystem

  const Name: string := "cygwin"
  const FamilyName: string := "Cygwin"
  const FamilyTraits: FamilyTraits := Installable | Portable | FilePathTranslation

  /** The prefix under which Cygwin mounts the drives. */
  const DrivePrefix: Option<string> := Some("/cygdrive")

  /** A Cygwin installation as the deployment library reports it; `shellPath`
      and `binPath` are `bin/sh.exe` and `bin` resolved against it. */
  datatype CygwinInstance = CygwinInstance(
    displayName: string,
    installationPath: string,
    shellPath: string,
    binPath: string)

  /** The toolkit as the registry sees it. */
  function Record(host: Host, instance: CygwinInstance): Toolkit {
    Toolkit(
      Name, instance.displayName, Some(instance.installationPath),
      Family(FamilyName, FamilyTraits), false,
      Some(Scripting(NoIsolation, DriveRewrite(DrivePrefix))),
      Some(Some(ContributedEnvironment(host, instance))))
  }

  /** `TranslateFilePath`: the drive rewrite under `/cygdrive`. */
  method TranslateFilePath(path: string) returns (r: string)
    ensures CygwinFileSystem.IsDrivePath(path) ==> r == CygwinFileSystem.DrivePath(path, DrivePrefix)
    ensures !CygwinFileSystem.IsDrivePath(path) ==> r == path
    ensures r == CygwinFileSystem.Translated(path, DrivePrefix)
  {
    r := CygwinFileSystem.TranslateFilePath(path, DrivePrefix);
  }

  // ---------------------------------------------------------------------------
  // Environments
  // ---------------------------------------------------------------------------

  /** The environment the toolkit contributes to a composite toolkit: `PATH`
      set to `bin` when that directory exists, nothing otherwise. */
  function ContributedEnvironment(host: Host, instance: CygwinInstance): Env {
    if instance.binPath in host.directories then SetValue(host.cfg, map[], PathVariable, Some(instance.binPath))
    else map[]
  }

  /** `GetEnvironmentCore`. */
  method GetEnvironmentCore(host: Host, instance: CygwinInstance) returns (r: Env)
    ensures r == ContributedEnvironment(host, instance)
  {
    var environment := new EnvironmentDictionary(host.cfg);
    if instance.binPath in host.directories {
      environment.Set(PathVariable, Some(instance.binPath));
    }
    r := environment.entries;
  }

  /** The contributed environment is empty or holds `PATH` alone. */
  lemma ContributedEnvironmentContents(host: Host, instance: CygwinInstance)
    ensures var env := ContributedEnvironment(host, instance);
            && (instance.binPath in host.directories ==>
                  env.Keys == {NameKey(host.cfg, PathVariable)} &&
                  TryGetValue(host.cfg, env, PathVariable) == Some(Some(instance.binPath)))
            && (instance.binPath !in host.directories ==> env == map[])
  {
  }

  /** The variables `ConfigureShellEnvironment` writes over `env`:
      `CHERE_INVOKING` = `1`, and a non-empty `GNU_TK` in POSIX form. */
  function ShellConfigured(cfg: Config, env: Env): Env {
    var env1 := SetValue(cfg, env, "CHERE_INVOKING", Some("1"));
    var value := GetValueOrNull(cfg, env1, GnuTkVariable);
    if value.Some? && value.value != "" then
      SetValue(cfg, env1, GnuTkVariable, Some(CygwinFileSystem.Translated(value.value, DrivePrefix)))
    else env1
  }

  method ConfigureShellEnvironment(d: EnvironmentDictionary)
    requires d.Valid()
    modifies d
    ensures d.Valid()
    ensures d.entries == ShellConfigured(d.cfg, old(d.entries))
  {
    d.Set("CHERE_INVOKING", Some("1"));
    var value := d.Get(GnuTkVariable);
    if value.Some? && value.value.Some? && value.value.value != "" {
      var translated := TranslateFilePath(value.value.value);
      d.Set(GnuTkVariable, Some(translated));
    }
  }

  /** After configuration `CHERE_INVOKING` is `1`, a non-empty `GNU_TK` holds
      the translated path, and every other variable is as it was. */
  lemma ShellConfiguredVariables(cfg: Config, env: Env, other: string)
    requires NameKey(cfg, other) != NameKey(cfg, "CHERE_INVOKING") && NameKey(cfg, other) != NameKey(cfg, GnuTkVariable)
    ensures var r := ShellConfigured(cfg, env);
            var before := TryGetValue(cfg, env, GnuTkVariable);
            && TryGetValue(cfg, r, "CHERE_INVOKING") == Some(Some("1"))
            && TryGetValue(cfg, r, GnuTkVariable) ==
                 (if before.Some? && before.value.Some? && before.value.value != ""
                  then Some(Some(CygwinFileSystem.Translated(before.value.value, DrivePrefix)))
                  else before)
            && TryGetValue(cfg, r, other) == TryGetValue(cfg, env, other)
  {
    var env1 := SetValue(cfg, env, "CHERE_INVOKING", Some("1"));
    DistinctNameLengths(cfg, GnuTkVariable, "CHERE_INVOKING");
    SetValueOther(cfg, env, "CHERE_INVOKING", Some("1"), GnuTkVariable);
    SetValueOther(cfg, env, "CHERE_INVOKING", Some("1"), other);
    var value := GetValueOrNull(cfg, env1, GnuTkVariable);
    if value.Some? && value.value != "" {
      var v := Some(CygwinFileSystem.Translated(value.value, DrivePrefix));
      SetValueOther(cfg, env1, GnuTkVariable, v, "CHERE_INVOKING");
      SetValueOther(cfg, env1, GnuTkVariable, v, other);
    }
  }

  // ---------------------------------------------------------------------------
  // Shell execution
  // ---------------------------------------------------------------------------

  /** The process environment before `PATH` is edited. */
  function ConfiguredEnvironment(host: Host, environment: Option<Env>): Env {
    ShellConfigured(host.cfg, ProcessEnvironment(host, environment))
  }

  /** The complete process environment of the shell: its directory in front of
      `PATH`. */
  function ShellEnvironment(host: Host, instance: CygwinInstance, environment: Option<Env>): Env {
    var env := ConfiguredEnvironment(host, environment);
    SetValue(host.cfg, env, PathVariable,
             Some(PrependedPath(host.cfg, GetValueOrNull(host.cfg, env, PathVariable), [host.directoryName(instance.shellPath)])))
  }

  /** The process `ExecuteShell` starts, or the failure it raises. */
  function ShellProcess(
    host: Host, instance: CygwinInstance, command: string, commandArguments: seq<string>,
    environment: Option<Env>, extras: seq<string>): Result<ProcessDescriptor, Error>
  {
    if instance.shellPath !in host.files then Failure(ModuleNotFound(instance.shellPath))
    else
      var posixlyCorrect := ContainsName(host.cfg, ConfiguredEnvironment(host, environment), PosixlyCorrect);
      Success(ProcessDescriptor(
        instance.shellPath,
        LoginShellArguments(posixlyCorrect, extras, command, commandArguments, instance.shellPath),
        ShellEnvironment(host, instance, environment),
        None))
  }

  /** `GetShellPath`: `bin/sh.exe`, which must exist. */
  method GetShellPath(host: Host, instance: CygwinInstance) returns (r: Result<string, Error>)
    ensures r.Success? <==> instance.shellPath in host.files
    ensures r.Success? ==> r.value == instance.shellPath
    ensures r.Failure? ==> r.error == ModuleNotFound(instance.shellPath)
  {
    var shellPath := instance.shellPath;
    if shellPath !in host.files {
      return Failure(ModuleNotFound(shellPath));
    }
    return Success(shellPath);
  }

  /** `ExecuteShell`: overlays the caller's environment on the inherited one,
      configures the shell variables, puts the shell's directory in front of
      `PATH`, and composes the login-shell command line. */
  method ExecuteShell(
    host: Host, instance: CygwinInstance, command: string, commandArguments: seq<string>,
    environment: Option<Env>, extras: seq<string>) returns (r: Result<ProcessDescriptor, Error>)
    requires host.Valid() && WfOption(host.cfg, environment)
    ensures r == ShellProcess(host, instance, command, commandArguments, environment, extras)
  {
    var shellPathResult := GetShellPath(host, instance);
    if shellPathResult.Failure? {
      return Failure(shellPathResult.error);
    }
    var shellPath := shellPathResult.value;

    var processEnvironment := new EnvironmentDictionary.FromEnv(host.cfg, host.inherited);
    processEnvironment.CombineWith(environment);
    assert processEnvironment.entries == ProcessEnvironment(host, environment);
    ConfigureShellEnvironment(processEnvironment);
    assert processEnvironment.entries == ConfiguredEnvironment(host, environment);

    var posixlyCorrect := processEnvironment.ContainsKey(PosixlyCorrect);
    processEnvironment.PrependPaths([host.directoryName(shellPath)]);
    assert processEnvironment.entries == ShellEnvironment(host, instance, environment);

    var shellArguments := BuildLoginShellArguments(posixlyCorrect, extras, command, commandArguments, shellPath);
    r := Success(ProcessDescriptor(shellPath, shellArguments, processEnvironment.entries, None));
  }

  /** `ExecuteCommand`: the command runs with `-e -o pipefail`. */
  method ExecuteCommand(
    host: Host, instance: CygwinInstance, command: string, arguments: seq<string>,
    environment: Option<Env>, options: ExecutionOptions) returns (r: Result<ProcessDescriptor, Error>)
    requires host.Valid() && WfOption(host.cfg, environment)
    ensures r == ShellProcess(host, instance, command, arguments, environment, ["-e", "-o", "pipefail"])
  {
    r := ExecuteShell(host, instance, command, arguments, environment, ["-e", "-o", "pipefail"]);
  }

  /** The command that runs a script file given as `$0`. */
  const RunScript: string := "sh \"$0\" \"$@\""

  /** `ExecuteFile`: `sh "$0" "$@"` with the path as `$0`, without extras. */
  method ExecuteFile(
    host: Host, instance: CygwinInstance, path: string, arguments: seq<string>,
    environment: Option<Env>, options: ExecutionOptions) returns (r: Result<ProcessDescriptor, Error>)
    requires host.Valid() && WfOption(host.cfg, environment)
    ensures r == ShellProcess(host, instance, RunScript, [path] + arguments, environment, [])
  {
    r := ExecuteShell(host, instance, RunScript, [path] + arguments, environment, []);
  }

  // ---------------------------------------------------------------------------
  // Properties of the shell process
  // ---------------------------------------------------------------------------

  /** Configuration leaves `POSIXLY_CORRECT` as the inherited and the caller's
      environments define it. */
  lemma ConfiguredPosixlyCorrect(host: Host, environment: Option<Env>)
    ensures ContainsName(host.cfg, ConfiguredEnvironment(host, environment), PosixlyCorrect) <==>
            ContainsName(host.cfg, host.inherited, PosixlyCorrect) ||
            (environment.Some? && ContainsName(host.cfg, environment.value, PosixlyCorrect))
  {
    DistinctNameLengths(host.cfg, PosixlyCorrect, "CHERE_INVOKING");
    DistinctNameLengths(host.cfg, PosixlyCorrect, GnuTkVariable);
    ShellConfiguredVariables(host.cfg, ProcessEnvironment(host, environment), PosixlyCorrect);
  }

  /** The shell fails to start exactly when `bin/sh.exe` is missing, and it
      runs in POSIX mode behind the `unset POSIXLY_CORRECT;` prologue exactly
      when neither the inherited nor the caller's environment defines
      `POSIXLY_CORRECT`; the first argument, or the shell itself, is `$0`. */
  lemma ShellProcessPosixMode(
    host: Host, instance: CygwinInstance, command: string, commandArguments: seq<string>,
    environment: Option<Env>, extras: seq<string>)
    requires CommandStringOption !in extras && "-posix" !in extras
    ensures var r := ShellProcess(host, instance, command, commandArguments, environment, extras);
            var defined := ContainsName(host.cfg, host.inherited, PosixlyCorrect) ||
                           (environment.Some? && ContainsName(host.cfg, environment.value, PosixlyCorrect));
            && (r.Failure? <==> instance.shellPath !in host.files)
            && (r.Failure? ==> r.error == ModuleNotFound(instance.shellPath))
            && (r.Success? ==>
                  var inv := Parse(r.value.arguments);
                  && inv.Some?
                  && ("-posix" in inv.value.options <==> !defined)
                  && inv.value.commandString == (if defined then "" else UnsetPosixlyCorrect) + command
                  && inv.value.commandName == Some(if commandArguments == [] then instance.shellPath else commandArguments[0]))
  {
    ConfiguredPosixlyCorrect(host, environment);
    var posixlyCorrect := ContainsName(host.cfg, ConfiguredEnvironment(host, environment), PosixlyCorrect);
    LoginShellInvocation(posixlyCorrect, extras, command, commandArguments, instance.shellPath);
  }

  /** `PATH` always starts with the shell's directory, whatever the caller's
      `PATH` was, and `CHERE_INVOKING` is `1`. */
  lemma ShellEnvironmentContents(host: Host, instance: CygwinInstance, environment: Option<Env>, shellDirectory: string)
    requires host.directoryName(instance.shellPath) == Some(shellDirectory) && shellDirectory != ""
    requires host.cfg.pathSeparator !in shellDirectory
    ensures var env := ShellEnvironment(host, instance, environment);
            var value := TryGetValue(host.cfg, env, PathVariable);
            && value.Some? && value.value.Some?
            && |SplitPath(host.cfg, value.value.value)| > 0
            && SplitPath(host.cfg, value.value.value)[0] == shellDirectory
            && TryGetValue(host.cfg, env, "CHERE_INVOKING") == Some(Some("1"))
  {
    ShellEnvironmentPath(host, instance, environment, shellDirectory);
    ShellEnvironmentChere(host, instance, environment);
  }

  lemma ShellEnvironmentPath(host: Host, instance: CygwinInstance, environment: Option<Env>, shellDirectory: string)
    requires host.directoryName(instance.shellPath) == Some(shellDirectory) && shellDirectory != ""
    requires host.cfg.pathSeparator !in shellDirectory
    ensures var value := TryGetValue(host.cfg, ShellEnvironment(host, instance, environment), PathVariable);
            && value.Some? && value.value.Some?
            && |SplitPath(host.cfg, value.value.value)| > 0
            && SplitPath(host.cfg, value.value.value)[0] == shellDirectory
  {
    var cfg := host.cfg;
    var env := ConfiguredEnvironment(host, environment);
    var dirs := [host.directoryName(instance.shellPath)];
    PrependedPathFirst(cfg, GetValueOrNull(cfg, env, PathVariable), dirs, shellDirectory);
  }

  lemma ShellEnvironmentChere(host: Host, instance: CygwinInstance, environment: Option<Env>)
    ensures TryGetValue(host.cfg, ShellEnvironment(host, instance, environment), "CHERE_INVOKING") == Some(Some("1"))
  {
    var cfg := host.cfg;
    var env := ConfiguredEnvironment(host, environment);
    var dirs := [host.directoryName(instance.shellPath)];
    DistinctNameLengths(cfg, PathVariable, "CHERE_INVOKING");
    DistinctNameLengths(cfg, PathVariable, GnuTkVariable);
    ShellConfiguredVariables(cfg, ProcessEnvironment(host, environment), PathVariable);
    var path := Some(PrependedPath(cfg, GetValueOrNull(cfg, env, PathVariable), dirs));
    SetValueOther(cfg, env, PathVariable, path, "CHERE_INVOKING");
  }
}
