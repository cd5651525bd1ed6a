/** Git for Windows (`GitToolkit`): scripted through the `usr/bin/sh.exe` the
    family found when it created the toolkit; host paths are rewritten under
    the root. */
module GitToolkit {
  import opened Wrappers
  import opened ToolkitEnvironment
  import opened Toolkits
  import opened ShellCommandLine
  import CygwinFileSystem

  const Name: string := "git"
  const FamilyName: string := "Git"
  const FamilyTraits: FamilyTraits := Installable | Portable | FilePathTranslation

  /** A Git installation together with what the family resolved for it: the
      shell, which existed when the toolkit was created, the `usr/bin`
      directory, and the toolkit traits it was created with. */
  datatype GitInstance = GitInstance(
    displayName: string,
    installationPath: string,
    shellPath: string,
    binPath: string,
    builtIn: bool)

  /** The toolkit as the registry sees it: its built-in trait is the one it
      was created with. */
  function Record(host: Host, instance: GitInstance): Toolkit {
    Toolkit(
      Name, instance.displayName, Some(instance.installationPath),
      Family(FamilyName, FamilyTraits), instance.builtIn,
      Some(Scripting(NoIsolation, DriveRewrite(None))),
      Some(Some(ContributedEnvironment(host, instance))))
  }

  /** `TranslateFilePath`: the drive rewrite with no prefix (`C:\a` is `/c/a`). */
  method TranslateFilePath(path: string) returns (r: string)
    ensures CygwinFileSystem.IsDrivePath(path) ==> r == CygwinFileSystem.DrivePath(path, None)
    ensures !CygwinFileSystem.IsDrivePath(path) ==> r == path
  {
    r := CygwinFileSystem.TranslateFilePath(path, None);
  }

  /** The environment the toolkit contributes: `PATH` set to `usr/bin` when
      that directory exists, nothing otherwise. */
  function ContributedEnvironment(host: Host, instance: GitInstance): Env {
    if instance.binPath in host.directories then SetValue(host.cfg, map[], PathVariable, Some(instance.binPath))
    else map[]
  }

  /** `GetEnvironmentCore`. */
  method GetEnvironmentCore(host: Host, instance: GitInstance) returns (r: Env)
    ensures r == ContributedEnvironment(host, instance)
  {
    var environment := new EnvironmentDictionary(host.cfg);
    if instance.binPath in host.directories {
      environment.Set(PathVariable, Some(instance.binPath));
    }
    r := environment.entries;
  }

  /** The contributed environment is empty or holds `PATH` alone. */
  lemma ContributedEnvironmentContents(host: Host, instance: GitInstance)
    ensures var env := ContributedEnvironment(host, instance);
            && (instance.binPath in host.directories ==>
                  env.Keys == {NameKey(host.cfg, PathVariable)} &&
                  TryGetValue(host.cfg, env, PathVariable) == Some(Some(instance.binPath)))
            && (instance.binPath !in host.directories ==> env == map[])
  {
  }

  // ---------------------------------------------------------------------------
  // Shell execution
  // ---------------------------------------------------------------------------

  /** The complete process environment of the shell: the caller's variables
      over the inherited ones, and the shell's directory in front of `PATH`. */
  function ShellEnvironment(host: Host, instance: GitInstance, environment: Option<Env>): Env {
    var env := ProcessEnvironment(host, environment);
    SetValue(host.cfg, env, PathVariable,
             Some(PrependedPath(host.cfg, GetValueOrNull(host.cfg, env, PathVariable), [host.directoryName(instance.shellPath)])))
  }

  /** The process `ExecuteShell` starts. */
  function ShellProcess(
    host: Host, instance: GitInstance, command: string, commandArguments: seq<string>,
    environment: Option<Env>, extras: seq<string>): ProcessDescriptor
  {
    var posixlyCorrect := ContainsName(host.cfg, ProcessEnvironment(host, environment), PosixlyCorrect);
    ProcessDescriptor(
      instance.shellPath,
      LoginShellArguments(posixlyCorrect, extras, command, commandArguments, instance.shellPath),
      ShellEnvironment(host, instance, environment),
      None)
  }

  /** `ExecuteShell`. */
  method ExecuteShell(
    host: Host, instance: GitInstance, command: string, commandArguments: seq<string>,
    environment: Option<Env>, extras: seq<string>) returns (r: ProcessDescriptor)
    requires host.Valid() && WfOption(host.cfg, environment)
    ensures r == ShellProcess(host, instance, command, commandArguments, environment, extras)
  {
    var shellPath := instance.shellPath;
    var processEnvironment := new EnvironmentDictionary.FromEnv(host.cfg, host.inherited);
    processEnvironment.CombineWith(environment);
    assert processEnvironment.entries == ProcessEnvironment(host, environment);

    var posixlyCorrect := processEnvironment.ContainsKey(PosixlyCorrect);
    processEnvironment.PrependPaths([host.directoryName(shellPath)]);

    var shellArguments := BuildLoginShellArguments(posixlyCorrect, extras, command, commandArguments, shellPath);
    r := ProcessDescriptor(shellPath, shellArguments, processEnvironment.entries, None);
  }

  /** `ExecuteShellCommand`: the command runs with `-e -o pipefail`. */
  method ExecuteShellCommand(
    host: Host, instance: GitInstance, command: string, arguments: seq<string>,
    environment: Option<Env>, options: ExecutionOptions) returns (r: ProcessDescriptor)
    requires host.Valid() && WfOption(host.cfg, environment)
    ensures r == ShellProcess(host, instance, command, arguments, environment, ["-e", "-o", "pipefail"])
  {
    r := ExecuteShell(host, instance, command, arguments, environment, ["-e", "-o", "pipefail"]);
  }

  /** The command that executes the program given as `$0`. */
  const ExecProgram: string := "exec \"$0\" \"$@\""
  /** The command that hands the script given as `$0` to `sh`. */
  const ExecScript: string := "exec sh \"$0\" \"$@\""

  /** `ExecuteFile`: the file itself is executed through `ExecuteShellCommand`,
      so the pipefail options apply. */
  method ExecuteFile(
    host: Host, instance: GitInstance, path: string, arguments: seq<string>,
    environment: Option<Env>, options: ExecutionOptions) returns (r: ProcessDescriptor)
    requires host.Valid() && WfOption(host.cfg, environment)
    ensures r == ShellProcess(host, instance, ExecProgram, [path] + arguments, environment, ["-e", "-o", "pipefail"])
  {
    r := ExecuteShellCommand(host, instance, ExecProgram, [path] + arguments, environment, options);
  }

  /** `ExecuteShellFile`: the file is a script for `sh`, without extras. */
  method ExecuteShellFile(
    host: Host, instance: GitInstance, path: string, arguments: seq<string>,
    environment: Option<Env>, options: ExecutionOptions) returns (r: ProcessDescriptor)
    requires host.Valid() && WfOption(host.cfg, environment)
    ensures r == ShellProcess(host, instance, ExecScript, [path] + arguments, environment, [])
  {
    r := ExecuteShell(host, instance, ExecScript, [path] + arguments, environment, []);
  }

  // ---------------------------------------------------------------------------
  // Properties of the shell process
  // ---------------------------------------------------------------------------

  /** The shell runs in POSIX mode behind the `unset POSIXLY_CORRECT;`
      prologue exactly when neither the inherited nor the caller's environment
      defines `POSIXLY_CORRECT`; the first argument, or the shell itself, is
      `$0`. */
  lemma ShellProcessPosixMode(
    host: Host, instance: GitInstance, command: string, commandArguments: seq<string>,
    environment: Option<Env>, extras: seq<string>)
    requires CommandStringOption !in extras && "-posix" !in extras
    ensures var r := ShellProcess(host, instance, command, commandArguments, environment, extras);
            var defined := ContainsName(host.cfg, host.inherited, PosixlyCorrect) ||
                           (environment.Some? && ContainsName(host.cfg, environment.value, PosixlyCorrect));
            var inv := Parse(r.arguments);
            && r.fileName == instance.shellPath
            && inv.Some?
            && ("-posix" in inv.value.options <==> !defined)
            && inv.value.commandString == (if defined then "" else UnsetPosixlyCorrect) + command
            && inv.value.commandName == Some(if commandArguments == [] then instance.shellPath else commandArguments[0])
  {
    var posixlyCorrect := ContainsName(host.cfg, ProcessEnvironment(host, environment), PosixlyCorrect);
    LoginShellInvocation(posixlyCorrect, extras, command, commandArguments, instance.shellPath);
  }

  /** `PATH` starts with the shell's directory, and every other variable is
      the caller's or the inherited one: Git needs no `CHERE_INVOKING`. */
  lemma ShellEnvironmentContents(
    host: Host, instance: GitInstance, environment: Option<Env>, shellDirectory: string, other: string)
    requires host.directoryName(instance.shellPath) == Some(shellDirectory) && shellDirectory != ""
    requires host.cfg.pathSeparator !in shellDirectory
    requires NameKey(host.cfg, other) != NameKey(host.cfg, PathVariable)
    ensures var env := ShellEnvironment(host, instance, environment);
            var value := TryGetValue(host.cfg, env, PathVariable);
            && value.Some? && value.value.Some?
            && |SplitPath(host.cfg, value.value.value)| > 0
            && SplitPath(host.cfg, value.value.value)[0] == shellDirectory
            && TryGetValue(host.cfg, env, other) == TryGetValue(host.cfg, ProcessEnvironment(host, environment), other)
  {
    var cfg := host.cfg;
    var env := ProcessEnvironment(host, environment);
    var dirs := [host.directoryName(instance.shellPath)];
    PrependedPathFirst(cfg, GetValueOrNull(cfg, env, PathVariable), dirs, shellDirectory);
    SetValueOther(cfg, env, PathVariable, Some(PrependedPath(cfg, GetValueOrNull(cfg, env, PathVariable), dirs)), other);
  }
}
