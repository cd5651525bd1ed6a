/** BusyBox (`BusyBoxToolkit`): the single `busybox` executable runs its `sh`
    applet; host paths only have their directory separators turned into
    slashes. */
module BusyBoxToolkit {
  import opened Wrappers
  import opened Text
  import opened ToolkitEnvironment
  import opened Toolkits
  import opened ShellCommandLine

  const Name: string := "busybox"
  const FamilyName: string := "BusyBox"
  const FamilyTraits: FamilyTraits := Installable | Portable | FilePathTranslation

  /** A BusyBox installation: its display name, its product path resolved
      against the installation, and the toolkit traits it was created with. */
  datatype BusyBoxInstance = BusyBoxInstance(
    displayName: string,
    productPath: string,
    builtIn: bool)

  /** The toolkit as the registry sees it: the installation path is the
      executable itself. */
  function Record(instance: BusyBoxInstance): Toolkit {
    Toolkit(
      Name, instance.displayName, Some(instance.productPath),
      Family(FamilyName, FamilyTraits), instance.builtIn,
      Some(Scripting(NoIsolation, SlashSeparators)),
      None)
  }

  /** `TranslateFilePath`: every host directory separator becomes `/`, and
      nothing else changes. */
  function TranslateFilePath(host: Host, path: string): (r: string)
    ensures |r| == |path|
    ensures forall i :: 0 <= i < |path| ==> r[i] == if path[i] == host.directorySeparator then '/' else path[i]
    ensures host.directorySeparator == '/' ==> r == path
    ensures host.directorySeparator != '/' ==> host.directorySeparator !in r
  {
    ReplaceChar(path, host.directorySeparator, '/')
  }

  /** The process `ExecuteShell(arguments)` starts: `busybox sh` followed by the
      arguments, in the inherited environment overlaid by the caller's. */
  function ShellProcess(host: Host, instance: BusyBoxInstance, arguments: seq<string>, environment: Option<Env>): ProcessDescriptor {
    ProcessDescriptor(instance.productPath, ["sh"] + arguments, ProcessEnvironment(host, environment), None)
  }

  /** `ExecuteShell`: no existence check; the executable is the installation
      path. */
  method ExecuteShell(host: Host, instance: BusyBoxInstance, arguments: seq<string>, environment: Option<Env>)
    returns (r: ProcessDescriptor)
    requires host.Valid() && WfOption(host.cfg, environment)
    ensures r == ShellProcess(host, instance, arguments, environment)
    ensures Some(r.fileName) == Record(instance).installationPath
  {
    var busyboxPath := instance.productPath;
    var processEnvironment := new EnvironmentDictionary.FromEnv(host.cfg, host.inherited);
    processEnvironment.CombineWith(environment);
    var busyboxArguments := ["sh"];
    busyboxArguments := busyboxArguments + arguments;
    r := ProcessDescriptor(busyboxPath, busyboxArguments, processEnvironment.entries, None);
  }

  /** The options a command runs with. */
  const CommandOptions: seq<string> := ["-e", "-o", "pipefail"]

  /** `ExecuteCommand`: `sh -e -o pipefail -c command arguments...`. */
  method ExecuteCommand(
    host: Host, instance: BusyBoxInstance, command: string, arguments: seq<string>,
    environment: Option<Env>, options: ExecutionOptions) returns (r: ProcessDescriptor)
    requires host.Valid() && WfOption(host.cfg, environment)
    ensures r == ShellProcess(host, instance, Compose(CommandOptions, command, arguments), environment)
  {
    assert Compose(CommandOptions, command, arguments) == ["-e", "-o", "pipefail", "-c", command] + arguments;
    r := ExecuteShell(host, instance, ["-e", "-o", "pipefail", "-c", command] + arguments, environment);
  }

  /** `ExecuteFile`: `sh path arguments...`. */
  method ExecuteFile(
    host: Host, instance: BusyBoxInstance, path: string, arguments: seq<string>,
    environment: Option<Env>, options: ExecutionOptions) returns (r: ProcessDescriptor)
    requires host.Valid() && WfOption(host.cfg, environment)
    ensures r == ShellProcess(host, instance, [path] + arguments, environment)
  {
    r := ExecuteShell(host, instance, [path] + arguments, environment);
  }

  /** A command reaches the `sh` applet as its command string, under
      `-e -o pipefail`, with the first argument as `$0`. */
  lemma CommandLayout(host: Host, instance: BusyBoxInstance, command: string, arguments: seq<string>, environment: Option<Env>)
    ensures var r := ShellProcess(host, instance, Compose(CommandOptions, command, arguments), environment);
            && r.arguments[0] == "sh"
            && Parse(r.arguments[1..]) == Some(Expected(CommandOptions, command, arguments))
            && r.environment == ProcessEnvironment(host, environment)
  {
    var r := ShellProcess(host, instance, Compose(CommandOptions, command, arguments), environment);
    assert r.arguments[1..] == Compose(CommandOptions, command, arguments);
    ParseCompose(CommandOptions, command, arguments);
  }
}
