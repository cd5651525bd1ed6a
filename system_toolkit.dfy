/** The operating system's own tools (`SystemToolkit`): `sh` is looked up
    through `/usr/bin/env`, and paths need no translation. */
module SystemToolkit {
  import opened Wrappers
  import opened ToolkitEnvironment
  import opened Diagnostics
  import opened Toolkits
  import opened ShellCommandLine

  const Name: string := "system"
  const FamilyName: string := "System"
  const InstallationPath: string := "/"
  const EnvPath: string := "/usr/bin/env"

  /** The family's traits: a Linux system is GNU, any other one GNU-like. */
  function FamilyTraits(os: OS): (r: FamilyTraits)
    ensures HasFlag(r, Alike) <==> os != Linux
    ensures r & DeploymentMask == NoTraits && !HasFlag(r, FilePathTranslation)
  {
    if os == Linux then NoTraits else Alike
  }

  /** `Description`. */
  function Description(traits: FamilyTraits): (r: string)
    ensures HasFlag(traits, Alike) <==> r == "Local GNU-like system."
    ensures !HasFlag(traits, Alike) <==> r == "Local GNU system."
  {
    if HasFlag(traits, Alike) then "Local GNU-like system." else "Local GNU system."
  }

  /** The toolkit as the registry sees it. */
  function Record(os: OS): Toolkit {
    Toolkit(
      Name, Description(FamilyTraits(os)), Some(InstallationPath),
      Family(FamilyName, FamilyTraits(os)), false,
      Some(Scripting(NoIsolation, Verbatim)),
      None)
  }

  /** `GetEnvPath`: `/usr/bin/env`, which must exist. */
  method GetEnvPath(host: Host) returns (r: Result<string, Error>)
    ensures r.Success? <==> EnvPath in host.files
    ensures r.Success? ==> r.value == EnvPath
    ensures r.Failure? ==> r.error == ModuleNotFound(EnvPath)
  {
    var envPath := EnvPath;
    if envPath !in host.files {
      return Failure(ModuleNotFound(envPath));
    }
    return Success(envPath);
  }

  /** The process `ExecuteShell(arguments)` starts: `env sh` and the
      arguments, with the caller's variables merged only when there are any. */
  function ShellProcess(host: Host, arguments: seq<string>, environment: Option<Env>): Result<ProcessDescriptor, Error> {
    if EnvPath !in host.files then Failure(ModuleNotFound(EnvPath))
    else Success(ProcessDescriptor(EnvPath, ["sh"] + arguments, ProcessEnvironment(host, environment), None))
  }

  /** `ExecuteShell`. */
  method ExecuteShell(host: Host, arguments: seq<string>, environment: Option<Env>) returns (r: Result<ProcessDescriptor, Error>)
    requires host.Valid() && WfOption(host.cfg, environment)
    ensures r == ShellProcess(host, arguments, environment)
  {
    var envPath := GetEnvPath(host);
    if envPath.Failure? {
      return Failure(envPath.error);
    }
    var processEnvironment := new EnvironmentDictionary.FromEnv(host.cfg, host.inherited);
    if environment.Some? {
      processEnvironment.CombineWith(environment);
    }
    var args := ["sh"];
    args := args + arguments;
    r := Success(ProcessDescriptor(envPath.value, args, processEnvironment.entries, None));
  }

  /** `ExecuteCommand`: `sh -c command arguments...`, with neither `-e` nor
      pipefail. */
  method ExecuteCommand(host: Host, command: string, arguments: seq<string>, environment: Option<Env>, options: ExecutionOptions)
    returns (r: Result<ProcessDescriptor, Error>)
    requires host.Valid() && WfOption(host.cfg, environment)
    ensures r == ShellProcess(host, Compose([], command, arguments), environment)
  {
    assert Compose([], command, arguments) == ["-c", command] + arguments;
    r := ExecuteShell(host, ["-c", command] + arguments, environment);
  }

  /** `ExecuteFile`: `sh path arguments...`. */
  method ExecuteFile(host: Host, path: string, arguments: seq<string>, environment: Option<Env>, options: ExecutionOptions)
    returns (r: Result<ProcessDescriptor, Error>)
    requires host.Valid() && WfOption(host.cfg, environment)
    ensures r == ShellProcess(host, [path] + arguments, environment)
  {
    r := ExecuteShell(host, [path] + arguments, environment);
  }

  /** A command reaches `sh` as its command string with no options and the
      first argument as `$0`; a missing `/usr/bin/env` fails before anything
      starts. */
  lemma CommandLayout(host: Host, command: string, arguments: seq<string>, environment: Option<Env>)
    ensures var r := ShellProcess(host, Compose([], command, arguments), environment);
            && (r.Failure? <==> EnvPath !in host.files)
            && (r.Failure? ==> r.error == ModuleNotFound(EnvPath))
            && (r.Success? ==>
                  && r.value.arguments[0] == "sh"
                  && Parse(r.value.arguments[1..]) == Some(Expected([], command, arguments))
                  && (environment.None? ==> r.value.environment == host.inherited))
  {
    var args := ["sh"] + Compose([], command, arguments);
    assert args[1..] == Compose([], command, arguments);
    ParseCompose([], command, arguments);
  }
}
