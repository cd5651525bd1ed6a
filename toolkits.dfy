/** The toolkit abstractions shared by the selector, the composite toolkit, the
    engine and the family implementations: family traits, the capability record
    every discovered toolkit presents, execution requests, and the host the
    toolkits run on. */
module Toolkits {
  import opened Wrappers
  import opened ToolkitEnvironment

  // ---------------------------------------------------------------------------
  // The variables GNU-TK passes to the scripts it runs
  // ---------------------------------------------------------------------------

  /** The path of the `gnu-tk` executable. */
  const GnuTkVariable: string := "GNU_TK"
  /** The names of the selected toolkits. */
  const GnuTkToolkitVariable: string := "GNU_TK_TOOLKIT"
  /** Defined (empty) in strict mode. */
  const GnuTkStrictVariable: string := "GNU_TK_STRICT"
  /** The product version as digits. */
  const GnuTkVersionVariable: string := "GNU_TK_VERSION"

  // ---------------------------------------------------------------------------
  // Traits and options
  // ---------------------------------------------------------------------------

  /** `ToolkitFamilyTraits`, a flags enumeration. */
  type FamilyTraits = bv8

  const NoTraits: FamilyTraits := 0
  const Installable: FamilyTraits := 1
  const Portable: FamilyTraits := 2
  /** The deployment bits. */
  const DeploymentMask: FamilyTraits := Installable | Portable
  /** The family provides GNU-like rather than GNU semantics. */
  const Alike: FamilyTraits := 4
  /** The family's shell expects POSIX file paths. */
  const FilePathTranslation: FamilyTraits := 8

  /** `Enum.HasFlag`. */
  predicate HasFlag(traits: FamilyTraits, flag: FamilyTraits) {
    traits & flag == flag
  }

  /** `ToolkitIsolation`. */
  datatype Isolation = NoIsolation | VirtualMachine | Container

  /** `ToolkitExecutionOptions`: the only flag is `Strict`. */
  datatype ExecutionOptions = ExecutionOptions(strict: bool)

  /** What a toolkit family presents: its name and its traits. */
  datatype Family = Family(name: string, traits: FamilyTraits)

  /** How a scriptable toolkit's `TranslateFilePath` rewrites a host path:
      kept as is, a drive path rewritten under a prefix, directory separators
      turned into slashes, or asked of the `wslpath` helper through the given
      `wsl.exe`. */
  datatype PathTranslation =
    | Verbatim
    | DriveRewrite(prefix: Option<string>)
    | SlashSeparators
    | WslHelper(wslExecutable: string)

  /** The `IScriptableToolkit` part of a toolkit. */
  datatype Scripting = Scripting(isolation: Isolation, translation: PathTranslation)

  /** One discovered toolkit. `scripting` is present iff the toolkit is an
      `IScriptableToolkit`; `environment` is present iff it is an
      `IToolkitEnvironment`, and holds its (nullable) `Environment`. */
  datatype Toolkit = Toolkit(
    name: string,
    description: string,
    installationPath: Option<string>,
    family: Family,
    builtIn: bool,
    scripting: Option<Scripting>,
    environment: Option<Option<Env>>)
  {
    predicate IsScriptable() {
      scripting.Some?
    }

    predicate IsEnvironment() {
      environment.Some?
    }

    /** A scriptable toolkit that runs on the host itself. */
    predicate IsNonIsolatedScriptable() {
      scripting.Some? && scripting.value.isolation == NoIsolation
    }
  }

  // ---------------------------------------------------------------------------
  // Execution requests and process descriptors
  // ---------------------------------------------------------------------------

  /** Which `IScriptableToolkit` method was called. */
  datatype RequestKind = RunCommand | RunFile

  /** A call of `ExecuteCommand(text, arguments, environment, options)` or of
      `ExecuteFile(text, arguments, environment, options)`. */
  datatype Request = Request(
    kind: RequestKind,
    text: string,
    arguments: seq<string>,
    environment: Option<Env>,
    options: ExecutionOptions)

  /** The process a toolkit would start: executable, argument list, the
      complete environment block and the working directory (`None` keeps the
      current one). */
  datatype ProcessDescriptor = ProcessDescriptor(
    fileName: string,
    arguments: seq<string>,
    environment: Env,
    workingDirectory: Option<string>)

  // ---------------------------------------------------------------------------
  // The host
  // ---------------------------------------------------------------------------

  /** The operating systems `RuntimeInformation` distinguishes. */
  datatype OS = Windows | Linux | MacOS | OtherUnix | OtherOS

  /** `AppInformation.Current.ProductVersion`; an undefined build is -1. */
  datatype Version = Version(major: int, minor: int, build: int)

  /** What the toolkits read from the machine they run on: the comparers and
      separators, the environment a new process inherits, which files and
      directories exist, and the path services and helpers whose workings lie
      outside the model. `wslpath` gives `None` when the helper exits with a
      non-zero code. */
  datatype Host = Host(
    os: OS,
    cfg: Config,
    directorySeparator: char,
    inherited: Env,
    files: set<string>,
    directories: set<string>,
    currentDirectory: string,
    directoryName: string -> Option<string>,
    combine: (string, string) -> string,
    normalizePath: string -> string,
    wslpath: string -> Option<string>,
    escape: string -> string)
  {
    /** The inherited environment is a well-formed dictionary. */
    ghost predicate Valid() {
      Wf(cfg, inherited)
    }
  }

  /** A caller-supplied environment is absent or well formed. */
  ghost predicate WfOption(cfg: Config, env: Option<Env>) {
    env.Some? ==> Wf(cfg, env.value)
  }

  /** `psi.Environment` after `CombineWith(caller's environment)`: the
      inherited variables overlaid by the caller's, if any. */
  function ProcessEnvironment(host: Host, environment: Option<Env>): (r: Env)
    ensures environment.None? ==> r == host.inherited
    ensures r.Keys == host.inherited.Keys + (if environment.Some? then environment.value.Keys else {})
  {
    if environment.None? then host.inherited else CombineEntries(host.cfg, host.inherited, environment.value)
  }

  lemma ProcessEnvironmentWf(host: Host, environment: Option<Env>)
    requires host.Valid() && WfOption(host.cfg, environment)
    ensures Wf(host.cfg, ProcessEnvironment(host, environment))
  {
    if environment.Some? {
      CombineEntriesWf(host.cfg, host.inherited, environment.value);
    }
  }
}
