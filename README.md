# GNU-TK core in Dafny

GNU-TK runs commands and shell scripts through a GNU toolkit installed on the
host: MSYS2, Cygwin, Git for Windows, WSL, BusyBox, Homebrew or the system's
own tools. This project models the core of that program and proves properties
of the model. The core has four parts:

- the environment composer, which merges variable maps;
- the selector, which picks a toolkit from the names the user gives;
- the composite ("meta") toolkit, which layers environment contributors over
  a scriptable backend;
- the per-family builders of the process each toolkit would start.

Nothing is spawned. Each builder computes a `ProcessDescriptor`: the
executable, the argument vector, the complete environment block and the
working directory.

Modules, one per source file or closely related group of files:

- `ToolkitEnvironment` (`toolkit_environment.dfy`): the variable maps.
  - `Combine` and `CombineValue` state the PATH, compiler-flags and default
    rules.
  - `SplitPath`/`JoinPaths` handle PATH lists; `PrependedPath`/`RemovedPath`
    edit them.
  - The class `EnvironmentDictionary` holds the dictionary that the builders
    edit in place (`Set`, `CombineWith`, `PrependPaths`, `RemovePaths`). Its
    methods are proved against the functions.
  - `EnvironmentServices.cs` is an older twin of `ToolkitEnvironment.cs` that
    behaves the same way, so the same members model both, and the table
    cites both files.
- `Toolkits`: the shared vocabulary.
  - Family traits are a `bv8` flags value.
  - Isolation, execution options and requests.
  - `Toolkit` is one capability record for what every discovered toolkit
    presents. Its `scripting` field is present iff the toolkit is scriptable;
    its `environment` field is present iff it contributes an environment.
  - `Host` gathers what is read from the machine.
- `ToolkitServices`: choosing the scriptable backend, selecting toolkits by
  name, enumerating and de-duplicating toolkits, and the supported families
  per operating system.
- `Meta` (`meta_toolkit.dfy`): the composite toolkit.
  - Its name, description, traits and environment are functions.
  - The class `MetaToolkit` keeps the source's once-computed caches and
    delegates execution to the backend.
- `Engine`:
  - the strict and isolation filters;
  - picking the toolkit;
  - translating drive-letter paths in arguments;
  - deciding when the original command line can be reused;
  - the execution environment (`GNU_TK*` variables) and options;
  - the location listing.
- `MSys2Toolkit`, `CygwinToolkit`, `GitToolkit`, `WslToolkit`,
  `BusyBoxToolkit`, `SystemToolkit`, `HomebrewToolkit`: one module per
  family. Each has a method that builds the process, proved equal to a
  specification function, and lemmas on what the shell will see.
- `ShellCommandLine`: the `sh -c command_string [command_name [argument...]]`
  form of the POSIX shell. The lemma `ParseCompose` proves that `sh` reads
  the composed vector back as intended: `$0` is the first operand and `$1…`
  are the rest.
- `CygwinFileSystem` and the `*Idiosyncrasies` modules: the drive-letter
  rewrite and the backslash doubling of arguments.
- Small utilities:
  - `Text`: .NET string helpers;
  - `Polyfills`;
  - `Diagnostics`;
  - `LinguisticServices`;
  - `Program`: argument canonicalisation and the version string;
  - `PositionTrackingTextReader`: a class over a character buffer;
  - `Platform`: the runtime identifier table of the npm launcher.

Selection and discovery, as the code does them:

- `TryGetScriptableToolkit` accepts the first scriptable toolkit at any
  isolation as long as no environment toolkit came before it. After an
  environment toolkit, it accepts only toolkits without isolation. It does
  not generally prefer non-isolated toolkits.
- Name resolution in `SelectToolkits` matches toolkit names, then family
  names, ignoring case. There are no trait or family aliases.
- `EnumerateToolkits` de-duplicates on the name (ordinal) together with the
  installation path (path comparer).
- The MSYS2 family declares only `Installable | Portable`. Without
  `FilePathTranslation`, the engine never translates paths for MSYS2
  toolkits.

The host's variable-name comparer and path comparer are parameters
(`Config`).

## Model

| member | source | states |
|---|---|---|
| ToolkitEnvironment.TryGetValue | Source/Gapotchenko.GnuTK/Toolkits/ToolkitEnvironment.cs:58 | a name is found exactly when its canonical form (under the host's name comparer) is a key |
| ToolkitEnvironment.SetValue | Source/Gapotchenko.GnuTK/Toolkits/ToolkitEnvironment.cs:37 | the indexer setter: the name reads back as the value, one key is added at most, every other variable is unchanged, and an existing entry keeps its first spelling |
| ToolkitEnvironment.SetValueOther | Source/Gapotchenko.GnuTK/Toolkits/ToolkitEnvironment.cs:37 | setting one variable leaves the lookup of every other variable as it was |
| ToolkitEnvironment.GetValueOrNull | Source/Gapotchenko.GnuTK/Toolkits/ToolkitEnvironment.cs:107 | `GetValueOrDefault("PATH")` is null both for a missing and for a null variable, else the stored value |
| ToolkitEnvironment.CombineEntries | Source/Gapotchenko.GnuTK/Toolkits/ToolkitEnvironment.cs:35-39 | the combined block defines exactly the union of both blocks' variables |
| ToolkitEnvironment.Combine | Source/Gapotchenko.GnuTK/Toolkits/ToolkitEnvironment.cs:26-40 | a null block yields the other one; the result is null only when both are |
| ToolkitEnvironment.CombineEntriesWf | Source/Gapotchenko.GnuTK/Toolkits/ToolkitEnvironment.cs:35-37 | the combined block is again a dictionary keyed by the name comparer |
| ToolkitEnvironment.CombineKeepsFirstSpelling | Source/Gapotchenko.GnuTK/EnvironmentServices.cs:30-32 | the key union keeps the spelling of the first block that has the variable |
| ToolkitEnvironment.CombineNullWins | Source/Gapotchenko.GnuTK/Toolkits/ToolkitEnvironment.cs:73-95 | a variable the later block sets to null is null in the result, whatever its name |
| ToolkitEnvironment.CombineLaterWins | Source/Gapotchenko.GnuTK/Toolkits/ToolkitEnvironment.cs:58-73 | outside `PATH` and the flag variables the later block overrides, and a variable only one block has is copied |
| ToolkitEnvironment.CombineConcatenatesFlags | Source/Gapotchenko.GnuTK/Toolkits/ToolkitEnvironment.cs:72-98 | `CFLAGS`, `CPPFLAGS` and `LDFLAGS` become the later value, a space, then the earlier value |
| ToolkitEnvironment.CombinePathEntries | Source/Gapotchenko.GnuTK/Toolkits/ToolkitEnvironment.cs:71-88 | a merged `PATH` lists the later block's entries, then the earlier block's that are new, each path once under the path comparer, none lost |
| ToolkitEnvironment.JoinOfDistinctSegments | Source/Gapotchenko.GnuTK/Toolkits/ToolkitEnvironment.cs:83-87 | the deduplicated entries survive the join and a later split |
| ToolkitEnvironment.CombineWithEmpty | Source/Gapotchenko.GnuTK/Toolkits/ToolkitEnvironment.cs:26-40 | an empty block on either side is an identity of combination |
| ToolkitEnvironment.CombinePathSpelledDifferently | Source/Gapotchenko.GnuTK/Toolkits/ToolkitEnvironment.cs:69-71 | with a case-insensitive comparer, `Path` overlaid by `PATH` is overridden, not merged, because the switch is on the exact spelling |
| ToolkitEnvironment.SplitPathEntries | Source/Gapotchenko.GnuTK/EnvironmentServices.cs:107-108 | the split entries are non-empty and free of the separator |
| ToolkitEnvironment.JoinSplitPath | Source/Gapotchenko.GnuTK/EnvironmentServices.cs:107-111 | joining the split entries of a value with no empty entry gives the value back |
| ToolkitEnvironment.SplitJoinPaths | Source/Gapotchenko.GnuTK/Toolkits/ToolkitEnvironment.cs:123-127 | splitting joined entries gives them back when none is empty or holds the separator |
| ToolkitEnvironment.NonEmptyPaths | Source/Gapotchenko.GnuTK/Toolkits/ToolkitEnvironment.cs:106 | keeps exactly the given paths that are neither null nor empty |
| ToolkitEnvironment.PrependedPathEntries | Source/Gapotchenko.GnuTK/Toolkits/ToolkitEnvironment.cs:101-109 | the new `PATH` is the given directories once each, in order, then the previous entries not among them; nothing repeats and nothing is lost |
| ToolkitEnvironment.PrependedPathFirst | Source/Gapotchenko.GnuTK/Toolkits/ToolkitEnvironment.cs:105-108 | the first given directory heads the new `PATH` |
| ToolkitEnvironment.PrependPathsIdempotent | Source/Gapotchenko.GnuTK/Toolkits/ToolkitEnvironment.cs:101-109 | prepending the same directories twice equals prepending them once |
| ToolkitEnvironment.RemovedPathEntries | Source/Gapotchenko.GnuTK/Toolkits/ToolkitEnvironment.cs:117-119 | the remaining entries are exactly those of the old `PATH` that match no removed path, in their original order and each once (as `Except` keeps the order of its first sequence): none matches a removed path, every other entry survives, and none repeats |
| ToolkitEnvironment.RemovePathsIdempotent | Source/Gapotchenko.GnuTK/Toolkits/ToolkitEnvironment.cs:111-121 | removing the same paths twice equals removing them once |
| ToolkitEnvironment.EnvironmentDictionary.constructor | Source/Gapotchenko.GnuTK/Toolkits/ToolkitEnvironment.cs:22 | `Create()` gives an empty dictionary with the name comparer |
| ToolkitEnvironment.EnvironmentDictionary.Get | Source/Gapotchenko.GnuTK/Toolkits/ToolkitEnvironment.cs:58 | reads a variable as `TryGetValue` does |
| ToolkitEnvironment.EnvironmentDictionary.ContainsKey | Source/Gapotchenko.GnuTK/Toolkits/MSys2/MSys2Toolkit.cs:71 | `ContainsKey` holds exactly when the canonical name is a key |
| ToolkitEnvironment.EnvironmentDictionary.Set | Source/Gapotchenko.GnuTK/Toolkits/ToolkitEnvironment.cs:37 | the dictionary afterwards is the old one with the variable set, and stays keyed by the comparer |
| ToolkitEnvironment.EnvironmentDictionary.CombineWith | Source/Gapotchenko.GnuTK/Toolkits/ToolkitEnvironment.cs:42-52 | overlaying in place name by name ends in the same block `Combine` builds; a null overlay changes nothing |
| ToolkitEnvironment.EnvironmentDictionary.CombineLookedUp | Source/Gapotchenko.GnuTK/EnvironmentServices.cs:60-70 | the value read for a name from the two dictionaries is the combined value at its key |
| ToolkitEnvironment.EnvironmentDictionary.PrependPaths | Source/Gapotchenko.GnuTK/Toolkits/ToolkitEnvironment.cs:101-109 | `PATH` becomes the prepended list computed from its old value; nothing else changes |
| ToolkitEnvironment.EnvironmentDictionary.RemovePaths | Source/Gapotchenko.GnuTK/Toolkits/ToolkitEnvironment.cs:111-121 | a non-empty `PATH` loses the given entries; a missing, null or empty one is left alone |
| ShellCommandLine.Parse | Source/Gapotchenko.GnuTK/Toolkits/MSys2/MSys2Toolkit.cs:87-108 | a parsed vector has a `-c` right after its options (the reading `sh` applies to the vectors the shells build) |
| ShellCommandLine.ParseCompose | Source/Gapotchenko.GnuTK/Toolkits/MSys2/MSys2Toolkit.cs:87-108 | reading back a composed `sh -c` vector recovers the options, the command string, `$0` and the positional parameters |
| ShellCommandLine.BuildLoginShellArguments | Source/Gapotchenko.GnuTK/Toolkits/MSys2/MSys2Toolkit.cs:87-108 | the argument list filled in entry by entry is the login-shell vector: `-posix` unless `POSIXLY_CORRECT` is defined, `-l`, the extras, `-c`, the command behind the prologue, then the arguments or the shell path |
| ShellCommandLine.LoginShellInvocation | Source/Gapotchenko.GnuTK/Toolkits/MSys2/MSys2Toolkit.cs:88-108 | the shell sees `-posix` iff `POSIXLY_CORRECT` is undefined, `-l`, the prologued command, `$0` = first argument or the shell path, and the rest as `$1…` |
| MSys2Toolkit.Name | Source/Gapotchenko.GnuTK/Toolkits/MSys2/MSys2Toolkit.cs:28 | the name is family, dash, environment, with no upper-case letter |
| MSys2Toolkit.NameExample | Source/Gapotchenko.GnuTK/Toolkits/MSys2/MSys2Toolkit.cs:28 | the UCRT64 environment is named `msys2-ucrt64` |
| MSys2Toolkit.RepositoryPrefix | Source/Gapotchenko.GnuTK/Toolkits/MSys2/MSys2Toolkit.cs:144-154 | a prefix exists iff the environment is one of the six known; it is empty iff MSYS; otherwise it starts with `mingw-w64-` and ends with a dash |
| MSys2Toolkit.ConfigureEnvironment | Source/Gapotchenko.GnuTK/Toolkits/MSys2/MSys2Toolkit.cs:135-158 | writes `MSYSTEM`, `MSYSCON` and the repository prefix over the dictionary |
| MSys2Toolkit.ConfigureShellEnvironment | Source/Gapotchenko.GnuTK/Toolkits/MSys2/MSys2Toolkit.cs:160-168 | writes `CHERE_INVOKING` = 1 and `MSYS2_PATH_TYPE` = inherit |
| MSys2Toolkit.GetEnvironmentCore | Source/Gapotchenko.GnuTK/Toolkits/MSys2/MSys2Toolkit.cs:123-133 | builds the contributed environment |
| MSys2Toolkit.ConfiguredVariables | Source/Gapotchenko.GnuTK/Toolkits/MSys2/MSys2Toolkit.cs:135-158 | the three MSYS variables read back as written and are the only keys added |
| MSys2Toolkit.ContributedEnvironmentContents | Source/Gapotchenko.GnuTK/Toolkits/MSys2/MSys2Toolkit.cs:121-133 | the contributed environment holds exactly the MSYS variables, plus `PATH` = `usr/bin` iff that directory exists |
| MSys2Toolkit.GetShellPath | Source/Gapotchenko.GnuTK/Toolkits/MSys2/MSys2Toolkit.cs:113-119 | succeeds iff `usr/bin/sh.exe` exists, else fails naming that path |
| MSys2Toolkit.ExecuteCommandCore | Source/Gapotchenko.GnuTK/Toolkits/MSys2/MSys2Toolkit.cs:49-111 | the process started is the shell process specified by the environment and argument functions |
| MSys2Toolkit.ExecuteCommand | Source/Gapotchenko.GnuTK/Toolkits/MSys2/MSys2Toolkit.cs:38-42 | the command runs with `-e -o pipefail` |
| MSys2Toolkit.ExecuteFile | Source/Gapotchenko.GnuTK/Toolkits/MSys2/MSys2Toolkit.cs:44-47 | the file runs as `sh "$0" "$@"` with the path as `$0` and no extras |
| MSys2Toolkit.ShellProcessPosixMode | Source/Gapotchenko.GnuTK/Toolkits/MSys2/MSys2Toolkit.cs:55-108 | fails iff the shell is missing; POSIX mode and the prologue iff neither the inherited nor the caller's environment defines `POSIXLY_CORRECT`; `$0` is the first argument or the shell |
| MSys2Toolkit.ConfiguredPosixlyCorrect | Source/Gapotchenko.GnuTK/Toolkits/MSys2/MSys2Toolkit.cs:62-71 | the MSYS variables do not touch `POSIXLY_CORRECT` |
| MSys2Toolkit.ConfiguredEnvironmentVariables | Source/Gapotchenko.GnuTK/Toolkits/MSys2/MSys2Toolkit.cs:62-65 | before `PATH` is edited the shell's environment holds the five MSYS variables, whatever the caller passed |
| MSys2Toolkit.ShellEnvironmentVariables | Source/Gapotchenko.GnuTK/Toolkits/MSys2/MSys2Toolkit.cs:62-85 | the final environment still holds the five MSYS variables |
| MSys2Toolkit.ShellEnvironmentPath | Source/Gapotchenko.GnuTK/Toolkits/MSys2/MSys2Toolkit.cs:72-85 | `PATH` always starts with the shell's directory |
| CygwinToolkit.TranslateFilePath | Source/Gapotchenko.GnuTK/Toolkits/Cygwin/CygwinToolkit.cs:134 | drive paths go under `/cygdrive`, other paths are unchanged |
| CygwinToolkit.GetEnvironmentCore | Source/Gapotchenko.GnuTK/Toolkits/Cygwin/CygwinToolkit.cs:109-118 | builds the contributed environment |
| CygwinToolkit.ContributedEnvironmentContents | Source/Gapotchenko.GnuTK/Toolkits/Cygwin/CygwinToolkit.cs:107-118 | the contribution is `PATH` = `bin` alone when `bin` exists, and empty otherwise |
| CygwinToolkit.ConfigureShellEnvironment | Source/Gapotchenko.GnuTK/Toolkits/Cygwin/CygwinToolkit.cs:120-132 | writes `CHERE_INVOKING` = 1 and translates a non-empty `GNU_TK` |
| CygwinToolkit.ShellConfiguredVariables | Source/Gapotchenko.GnuTK/Toolkits/Cygwin/CygwinToolkit.cs:120-132 | afterwards `CHERE_INVOKING` is 1, a non-empty `GNU_TK` holds its `/cygdrive` form, a null or empty one is left, and every other variable is unchanged |
| CygwinToolkit.GetShellPath | Source/Gapotchenko.GnuTK/Toolkits/Cygwin/CygwinToolkit.cs:99-105 | succeeds iff `bin/sh.exe` exists, else fails naming that path |
| CygwinToolkit.ExecuteShell | Source/Gapotchenko.GnuTK/Toolkits/Cygwin/CygwinToolkit.cs:44-97 | the process started is the specified shell process |
| CygwinToolkit.ExecuteCommand | Source/Gapotchenko.GnuTK/Toolkits/Cygwin/CygwinToolkit.cs:33-37 | the command runs with `-e -o pipefail` |
| CygwinToolkit.ExecuteFile | Source/Gapotchenko.GnuTK/Toolkits/Cygwin/CygwinToolkit.cs:39-42 | the file runs as `sh "$0" "$@"` with the path as `$0` |
| CygwinToolkit.ConfiguredPosixlyCorrect | Source/Gapotchenko.GnuTK/Toolkits/Cygwin/CygwinToolkit.cs:57-65 | configuration does not touch `POSIXLY_CORRECT` |
| CygwinToolkit.ShellProcessPosixMode | Source/Gapotchenko.GnuTK/Toolkits/Cygwin/CygwinToolkit.cs:50-94 | fails iff the shell is missing; POSIX mode and the prologue iff `POSIXLY_CORRECT` is defined by neither environment; `$0` is the first argument or the shell |
| CygwinToolkit.ShellEnvironmentContents | Source/Gapotchenko.GnuTK/Toolkits/Cygwin/CygwinToolkit.cs:57-71 | `PATH` starts with the shell's directory and `CHERE_INVOKING` is 1 |
| GitToolkit.TranslateFilePath | Source/Gapotchenko.GnuTK/Toolkits/Git/GitToolkit.cs:127 | drive paths are rewritten with no prefix (`C:\a` is `/c/a`), other paths are unchanged |
| GitToolkit.GetEnvironmentCore | Source/Gapotchenko.GnuTK/Toolkits/Git/GitToolkit.cs:116-125 | builds the contributed environment |
| GitToolkit.ContributedEnvironmentContents | Source/Gapotchenko.GnuTK/Toolkits/Git/GitToolkit.cs:114-125 | the contribution is `PATH` = `usr/bin` alone when it exists, and empty otherwise |
| GitToolkit.ExecuteShell | Source/Gapotchenko.GnuTK/Toolkits/Git/GitToolkit.cs:62-112 | the process started is the specified shell process |
| GitToolkit.ExecuteShellCommand | Source/Gapotchenko.GnuTK/Toolkits/Git/GitToolkit.cs:43-51 | the command runs with `-e -o pipefail` |
| GitToolkit.ExecuteFile | Source/Gapotchenko.GnuTK/Toolkits/Git/GitToolkit.cs:34-41 | the file is executed by `exec "$0" "$@"` through the pipefail path |
| GitToolkit.ExecuteShellFile | Source/Gapotchenko.GnuTK/Toolkits/Git/GitToolkit.cs:53-60 | the script runs as `exec sh "$0" "$@"` without extras |
| GitToolkit.ShellProcessPosixMode | Source/Gapotchenko.GnuTK/Toolkits/Git/GitToolkit.cs:68-109 | the shell is the resolved one; POSIX mode and the prologue iff `POSIXLY_CORRECT` is defined by neither environment; `$0` is the first argument or the shell |
| GitToolkit.ShellEnvironmentContents | Source/Gapotchenko.GnuTK/Toolkits/Git/GitToolkit.cs:73-86 | `PATH` starts with the shell's directory and every other variable is the caller's or the inherited one |
| CygwinFileSystem.TranslateFilePath | Source/Gapotchenko.GnuTK/Toolkits/Cygwin/CygwinFileSystem.cs:14-40 | a drive path becomes prefix, `/`, lower-cased drive letter, then `/` and the remainder with slashes for backslashes and leading slashes trimmed when it is not empty; any other path is unchanged |
| CygwinFileSystem.DriveLetterCaseIgnored | Source/Gapotchenko.GnuTK/Toolkits/Cygwin/CygwinFileSystem.cs:27 | `C:` and `c:` paths translate alike |
| CygwinFileSystem.DrivePathHasNoBackslash | Source/Gapotchenko.GnuTK/Toolkits/Cygwin/CygwinFileSystem.cs:30 | no backslash survives the rewrite when the prefix has none |
| CygwinFileSystem.DrivePathShape | Source/Gapotchenko.GnuTK/Toolkits/Cygwin/CygwinFileSystem.cs:24-32 | the result is prefix, `/`, drive letter, and either nothing or `/` followed by a non-slash |
| CygwinFileSystem.DrivePathExamples | Source/Gapotchenko.GnuTK/Toolkits/Cygwin/CygwinFileSystem.cs:22 | `C:\Users\x` becomes `/cygdrive/c/Users/x`, or `/c/Users/x` with no prefix |
| CygwinFileSystem.DriveRootExamples | Source/Gapotchenko.GnuTK/Toolkits/Cygwin/CygwinFileSystem.cs:31-32 | `C:` and `C:\` become the bare drive with no trailing slash |
| CygwinIdiosyncrasies.AdjustArgument | Source/Gapotchenko.GnuTK/Toolkits/Cygwin/CygwinIdiosyncrasies.cs:31-36 | every backslash is doubled: the length grows by the backslash count, other characters are kept in order, a backslash-free value is unchanged |
| CygwinIdiosyncrasies.UndoubleAdjustArgument | Source/Gapotchenko.GnuTK/Toolkits/Cygwin/CygwinIdiosyncrasies.cs:31-36 | collapsing doubled backslashes recovers the argument |
| CygwinIdiosyncrasies.AdjustArgumentInjective | Source/Gapotchenko.GnuTK/Toolkits/Cygwin/CygwinIdiosyncrasies.cs:31-36 | distinct arguments stay distinct |
| MSys2Idiosyncrasies.AdjustArgument | Source/Gapotchenko.GnuTK/Toolkits/MSys2/MSys2Idiosyncrasies.cs:18 | the MSYS2 adjustment is the Cygwin one and is undone by collapsing |
| GitIdiosyncrasies.AdjustArgument | Source/Gapotchenko.GnuTK/Toolkits/Git/GitIdiosyncrasies.cs:19 | the Git adjustment is the Cygwin one and is undone by collapsing |
| ShellHelper.EscapeVariableValue | Source/Gapotchenko.GnuTK/Helpers/ShellHelper.cs:12-21 | null stays null, empty stays empty, otherwise every backslash is doubled exactly as the Cygwin adjustment does |
| ShellHelper.ReplaceBackslashesIsAdjustArgument | Source/Gapotchenko.GnuTK/Helpers/ShellHelper.cs:20 | the replacement agrees with the Cygwin adjustment on every string |
| WslToolkit.Isolation | Source/Gapotchenko.GnuTK/Toolkits/Wsl/WslToolkit.cs:30-35 | a WSL toolkit is never host-isolated: a virtual machine from major version 2 on, a container below it |
| WslToolkit.GetWslPath | Source/Gapotchenko.GnuTK/Toolkits/Wsl/WslToolkit.cs:107-114 | the `wsl.exe` path is returned iff that file exists; otherwise the failure is "module not found" for `wsl.exe` |
| WslToolkit.TranslateFilePath | Source/Gapotchenko.GnuTK/Toolkits/Wsl/WslToolkit.cs:184-209 | an empty path is returned as is; a missing `wsl.exe` is an error; otherwise the `wslpath` output of the normalized path, or the path itself when the helper fails |
| WslToolkit.TranslateEnvironment | Source/Gapotchenko.GnuTK/Toolkits/Wsl/WslToolkit.cs:156-182 | the list built entry by entry is the translated environment: the present ones of `POSIXLY_CORRECT`, `GNU_TK` (translated), `GNU_TK_TOOLKIT`, `GNU_TK_VERSION`, in that order, then an unset `POSIXLY_CORRECT` when it was absent |
| WslToolkit.TranslatedNames | Source/Gapotchenko.GnuTK/Toolkits/Wsl/WslToolkit.cs:156-182 | only the forwarded GNU-TK variables cross into WSL, and the translated environment is never empty |
| WslToolkit.TranslatedPosixlyCorrect | Source/Gapotchenko.GnuTK/Toolkits/Wsl/WslToolkit.cs:160-166 | `POSIXLY_CORRECT` is always present: with the host's value when the host has it, unset otherwise |
| WslToolkit.TranslatedGnuTk | Source/Gapotchenko.GnuTK/Toolkits/Wsl/WslToolkit.cs:161-180 | `GNU_TK` crosses over iff the host has it, a non-null value translated to a Linux path |
| WslToolkit.TranslatedVerbatim | Source/Gapotchenko.GnuTK/Toolkits/Wsl/WslToolkit.cs:162-180 | `GNU_TK_TOOLKIT` and `GNU_TK_VERSION` cross over unchanged iff the host has them |
| WslToolkit.LookupForwarded | Source/Gapotchenko.GnuTK/Toolkits/Wsl/WslToolkit.cs:168-181 | one forwarding step adds an entry for its own variable only, with the host's value, and nothing when the variable is absent |
| WslToolkit.LookupAppend | Source/Gapotchenko.GnuTK/Toolkits/Wsl/WslToolkit.cs:156-182 | the first entry for a name in the list wins over later ones |
| WslToolkit.Statements | Source/Gapotchenko.GnuTK/Toolkits/Wsl/WslToolkit.cs:136-151 | one shell statement per entry, in order |
| WslToolkit.WriteEnvironmentScript | Source/Gapotchenko.GnuTK/Toolkits/Wsl/WslToolkit.cs:130-154 | the script written statement by statement is the statements joined by `;` |
| WslToolkit.ScriptNotEmpty | Source/Gapotchenko.GnuTK/Toolkits/Wsl/WslToolkit.cs:130-154 | the script of a non-empty environment is non-empty, so the `;` that joins it to the command is always preceded by a statement |
| WslToolkit.ExecuteShell | Source/Gapotchenko.GnuTK/Toolkits/Wsl/WslToolkit.cs:65-105 | the process built is the specified one: a missing `wsl.exe` fails, otherwise `wsl --exec sh -l [extras] -c script;command` with the command's arguments |
| WslToolkit.ShellProcessLayout | Source/Gapotchenko.GnuTK/Toolkits/Wsl/WslToolkit.cs:65-105 | the process fails iff `wsl.exe` is missing; when it starts, `sh` sees `-l` and the extras, the environment script then `;` then the command as its command string, and the arguments as `$0`, `$1…` |
| WslToolkit.ExecuteShellCommand | Source/Gapotchenko.GnuTK/Toolkits/Wsl/WslToolkit.cs:47-54 | a command runs under `-e` with its own arguments |
| WslToolkit.ExecuteFile | Source/Gapotchenko.GnuTK/Toolkits/Wsl/WslToolkit.cs:37-45 | a file runs as `exec "$0" "$@"` with the path as `$0`, under `-e` |
| WslToolkit.ExecuteShellFile | Source/Gapotchenko.GnuTK/Toolkits/Wsl/WslToolkit.cs:56-63 | a shell file runs through `wslpath` of `$0`, with the normalized host path as `$0` and no extra option |
| BusyBoxToolkit.TranslateFilePath | Source/Gapotchenko.GnuTK/Toolkits/BusyBox/BusyBoxToolkit.cs:63 | the translated path has the same length, every host directory separator becomes `/` and every other character is kept; no host separator is left, and on a `/` host the path is unchanged |
| BusyBoxToolkit.ExecuteShell | Source/Gapotchenko.GnuTK/Toolkits/BusyBox/BusyBoxToolkit.cs:42-61 | the process is the installation path run as `busybox sh` with the arguments, in the inherited environment overlaid by the caller's |
| BusyBoxToolkit.ExecuteCommand | Source/Gapotchenko.GnuTK/Toolkits/BusyBox/BusyBoxToolkit.cs:32-35 | a command runs as `sh -e -o pipefail -c command arguments…` |
| BusyBoxToolkit.ExecuteFile | Source/Gapotchenko.GnuTK/Toolkits/BusyBox/BusyBoxToolkit.cs:37-40 | a file runs as `sh path arguments…` |
| BusyBoxToolkit.CommandLayout | Source/Gapotchenko.GnuTK/Toolkits/BusyBox/BusyBoxToolkit.cs:32-61 | the applet is `sh`; it reads `-e -o pipefail` as options, the command as its command string and the first argument as `$0` |
| SystemToolkit.FamilyTraits | Source/Gapotchenko.GnuTK/Toolkits/System/SystemToolkitFamily.cs:20-23 | the System family is GNU-like (Alike) exactly when the host is not Linux; it is neither installable nor portable and does not translate paths |
| SystemToolkit.Description | Source/Gapotchenko.GnuTK/Toolkits/System/SystemToolkit.cs:17-20 | "Local GNU-like system." exactly for an Alike family, "Local GNU system." otherwise |
| SystemToolkit.GetEnvPath | Source/Gapotchenko.GnuTK/Toolkits/System/SystemToolkit.cs:55-61 | `/usr/bin/env` is returned iff it exists, else "module not found" for it |
| SystemToolkit.ExecuteShell | Source/Gapotchenko.GnuTK/Toolkits/System/SystemToolkit.cs:36-53 | the process is `/usr/bin/env sh` with the arguments in the inherited environment overlaid by the caller's, or the missing-module failure |
| SystemToolkit.ExecuteCommand | Source/Gapotchenko.GnuTK/Toolkits/System/SystemToolkit.cs:26-29 | a command runs as `sh -c command arguments…` with no options |
| SystemToolkit.ExecuteFile | Source/Gapotchenko.GnuTK/Toolkits/System/SystemToolkit.cs:31-34 | a file runs as `sh path arguments…` |
| SystemToolkit.CommandLayout | Source/Gapotchenko.GnuTK/Toolkits/System/SystemToolkit.cs:26-61 | the process fails iff `/usr/bin/env` is missing; otherwise `sh` gets the command as command string and the first argument as `$0`, and without a caller environment the inherited one is used as is |
| HomebrewToolkit.ConfigureEnvironment | Source/Gapotchenko.GnuTK/Toolkits/Homebrew/HomebrewScriptableToolkit.cs:77-90 | the dictionary ends as the configured environment: `/bin` and `/usr/bin` removed from `PATH` in strict mode on a GNU-like system, then the toolkit's environment combined in |
| HomebrewToolkit.ConfiguredPath | Source/Gapotchenko.GnuTK/Toolkits/Homebrew/HomebrewScriptableToolkit.cs:81-87 | the system directories are stripped exactly in strict mode off Linux; then the `PATH` entries are the inherited ones other than `/bin` and `/usr/bin`, in their order and each once; otherwise the inherited environment is kept |
| HomebrewToolkit.CallerOverrides | Source/Gapotchenko.GnuTK/Toolkits/Homebrew/HomebrewScriptableToolkit.cs:68-70 | a caller's variable other than `PATH` and the flag variables overrides what the toolkit configured |
| HomebrewToolkit.StrictPathExample | Source/Gapotchenko.GnuTK/Toolkits/Homebrew/HomebrewScriptableToolkit.cs:86 | `/bin:/usr/bin:/opt/mytool/bin` becomes `/opt/mytool/bin` in strict mode |
| HomebrewToolkit.ExamplePathEntries | Source/Gapotchenko.GnuTK/Toolkits/Homebrew/HomebrewScriptableToolkit.cs:86 | the example `PATH` splits into its three directories |
| HomebrewToolkit.ExecuteFileCore | Source/Gapotchenko.GnuTK/Toolkits/Homebrew/HomebrewScriptableToolkit.cs:61-75 | the process is the file with the arguments, in the configured environment overlaid by the caller's |
| HomebrewToolkit.GetShellPath | Source/Gapotchenko.GnuTK/Toolkits/Homebrew/HomebrewScriptableToolkit.cs:47-54 | the shell is `bin/<package name>` under the shell package's directory, returned iff it exists, else "module not found" for that path |
| HomebrewToolkit.ExecuteShell | Source/Gapotchenko.GnuTK/Toolkits/Homebrew/HomebrewScriptableToolkit.cs:42-45 | a missing shell fails; otherwise the shell runs through `ExecuteFileCore` |
| HomebrewToolkit.ExecuteShellCommand | Source/Gapotchenko.GnuTK/Toolkits/Homebrew/HomebrewScriptableToolkit.cs:25-32 | a command runs as `-e -o pipefail -c command arguments…` |
| HomebrewToolkit.ExecuteShellFile | Source/Gapotchenko.GnuTK/Toolkits/Homebrew/HomebrewScriptableToolkit.cs:34-40 | a shell file runs as `path arguments…` under the shell |
| HomebrewToolkit.ExecuteFile | Source/Gapotchenko.GnuTK/Toolkits/Homebrew/HomebrewScriptableToolkit.cs:56-59 | a file runs directly, without a shell |
| Toolkits.ProcessEnvironment | Source/Gapotchenko.GnuTK/Toolkits/BusyBox/BusyBoxToolkit.cs:53-54 | the process environment is the inherited one when the caller gives none, and otherwise defines exactly the inherited variables and the caller's |
| Meta.FoldCombineTopmost | Source/Gapotchenko.GnuTK/Toolkits/MetaToolkit.cs:64-69 | folding blocks pairwise with `Combine` gives each ordinary variable the value of the last block that defines it |
| Meta.TopmostOfReverse | Source/Gapotchenko.GnuTK/Toolkits/MetaToolkit.cs:67 | the last block defining a variable in the reversed list is the first defining it in the original |
| Meta.ReverseAppendOne | Source/Gapotchenko.GnuTK/Toolkits/MetaToolkit.cs:67-68 | reversing after appending one element puts that element first |
| Meta.CombinedEnvironmentValue | Source/Gapotchenko.GnuTK/Toolkits/MetaToolkit.cs:64-69 | in the environment passed to the backend the caller's value of a variable wins; otherwise the first contributor that defines it decides; otherwise it stays undefined |
| Meta.Delegated | Source/Gapotchenko.GnuTK/Toolkits/MetaToolkit.cs:46-62 | the backend receives the same kind of request, text, arguments and options; only the environment is replaced by the combined one |
| Meta.Underlying | Source/Gapotchenko.GnuTK/Toolkits/MetaToolkit.cs:99 | the underlying toolkits are the contributors in order, then the backend last |
| Meta.Names | Source/Gapotchenko.GnuTK/Toolkits/MetaToolkit.cs:23 | one name per underlying toolkit, in order |
| Meta.ComposedNameSplits | Source/Gapotchenko.GnuTK/Toolkits/MetaToolkit.cs:17-25 | the composed name splits at `+` back into the underlying toolkits' names, given names that are non-empty and free of `+` |
| Meta.QuotedDescriptions | Source/Gapotchenko.GnuTK/Toolkits/MetaToolkit.cs:35-36 | one single-quoted description per toolkit, trailing periods removed |
| Meta.DescriptionOfPair | Source/Gapotchenko.GnuTK/Toolkits/MetaToolkit.cs:27-38 | a contributor over a backend is described as `'<contributor>' + '<backend>' meta toolkit.`, neither part ending with a period |
| Meta.TraitsOf | Source/Gapotchenko.GnuTK/Toolkits/MetaToolkit.cs:84 | one family-traits value per underlying toolkit, in order |
| Meta.OrAllHasFlag | Source/Gapotchenko.GnuTK/Toolkits/MetaToolkit.cs:85 | the bitwise OR of trait values has a flag iff one of them has it |
| Meta.ComposedTraitsFlags | Source/Gapotchenko.GnuTK/Toolkits/MetaToolkit.cs:78-88 | the composite is GNU-like, or translates file paths, iff one of its constituents is or does, and it is never installable or portable |
| Meta.EnvironmentsOfAppend | Source/Gapotchenko.GnuTK/Toolkits/MetaToolkit.cs:72-74 | picking out environment toolkits distributes over concatenation |
| Meta.ComposedEnvironmentLayers | Source/Gapotchenko.GnuTK/Toolkits/MetaToolkit.cs:71-76 | the composite has an environment iff some constituent provides one; an environment-providing backend is folded in beneath every contributor |
| Meta.ContributionsOf | Source/Gapotchenko.GnuTK/Toolkits/MetaToolkit.cs:65-66 | the contributors' environments, one per contributor, in order |
| Meta.MetaToolkit.Contributions | Source/Gapotchenko.GnuTK/Toolkits/MetaToolkit.cs:101 | the composite's contributions are its contributors' environments, in order |
| Meta.MetaToolkit.constructor | Source/Gapotchenko.GnuTK/Toolkits/MetaToolkit.cs:13 | a new composite holds the backend, the contributors and the initialised name, description and installation path, with no family computed yet |
| Meta.MetaToolkit.Name | Source/Gapotchenko.GnuTK/Toolkits/MetaToolkit.cs:17-25 | the initialised name if any, else the composed name; the result is cached and nothing else changes |
| Meta.MetaToolkit.Description | Source/Gapotchenko.GnuTK/Toolkits/MetaToolkit.cs:27-38 | the initialised description if any, else the composed one; the result is cached and nothing else changes |
| Meta.MetaToolkit.Family | Source/Gapotchenko.GnuTK/Toolkits/MetaToolkit.cs:78-97 | the family is `Meta` with the cached or composed traits; the traits are cached and nothing else changes |
| Meta.MetaToolkit.InstallationPath | Source/Gapotchenko.GnuTK/Toolkits/MetaToolkit.cs:40-44 | the initialised installation path, or else the backend's |
| Meta.MetaToolkit.Execute | Source/Gapotchenko.GnuTK/Toolkits/MetaToolkit.cs:46-62 | a command or file request is delegated to the backend with the combined environment |
| Meta.MetaToolkit.Scripting | Source/Gapotchenko.GnuTK/Toolkits/MetaToolkit.cs:103-105 | path translation and isolation are the backend's |
| ToolkitServices.Environments | Source/Gapotchenko.GnuTK/Toolkits/ToolkitServices.cs:46-47 | the collected toolkits are exactly the environment toolkits among the candidates: each one collected is an environment candidate, and each environment candidate is collected |
| ToolkitServices.EnvironmentsAppend | Source/Gapotchenko.GnuTK/Toolkits/ToolkitServices.cs:46-47 | collecting keeps the candidates' order: the environments of `a + b` are those of `a` followed by those of `b` |
| ToolkitServices.TryGetScriptableToolkit | Source/Gapotchenko.GnuTK/Toolkits/ToolkitServices.cs:32-54 | the loop returns the reference choice: the first scriptable candidate that is accepted (any isolation before an environment toolkit has been seen, none after), with the environment toolkits before it as contributors |
| ToolkitServices.ChooseFromNone | Source/Gapotchenko.GnuTK/Toolkits/ToolkitServices.cs:37-51 | there is no scriptable toolkit iff no candidate is accepted |
| ToolkitServices.ChooseFromFirstAccepted | Source/Gapotchenko.GnuTK/Toolkits/ToolkitServices.cs:37-53 | the chosen backend is the first accepted candidate, every earlier one was rejected, and the contributors are exactly the environment toolkits before it |
| ToolkitServices.ChooseFirstScriptable | Source/Gapotchenko.GnuTK/Toolkits/ToolkitServices.cs:39-44 | a scriptable toolkit that comes first is chosen on its own, whatever its isolation |
| ToolkitServices.ChooseSkipsIsolated | Source/Gapotchenko.GnuTK/Toolkits/ToolkitServices.cs:39-53 | after an environment toolkit an isolated scriptable toolkit is skipped and the next non-isolated one becomes the backend of a composite |
| ToolkitServices.FirstMatch | Source/Gapotchenko.GnuTK/Toolkits/ToolkitServices.cs:82-83 | the first index from a start whose toolkit (or family) name equals the name ignoring case, or none when nothing matches |
| ToolkitServices.ResolveChoosesFirst | Source/Gapotchenko.GnuTK/Toolkits/ToolkitServices.cs:81-83 | a name selects the first toolkit of that name; only when no toolkit has the name, the first of the family of that name; nothing when neither exists |
| ToolkitServices.ResolveFacts | Source/Gapotchenko.GnuTK/Toolkits/ToolkitServices.cs:81-83 | a resolved name is an index of the pool |
| ToolkitServices.ResolveAll | Source/Gapotchenko.GnuTK/Toolkits/ToolkitServices.cs:76-87 | the names select indices of the pool |
| ToolkitServices.ResolveAllAppend | Source/Gapotchenko.GnuTK/Toolkits/ToolkitServices.cs:76-87 | the names are resolved one by one: a further name extends the selection by what it selects, or by nothing |
| ToolkitServices.AutoAt | Source/Gapotchenko.GnuTK/Toolkits/ToolkitServices.cs:78 | the position of the first `auto` (ignoring case), and none exactly when no name is `auto` |
| ToolkitServices.AutoAtFirst | Source/Gapotchenko.GnuTK/Toolkits/ToolkitServices.cs:76-79 | the first `auto` is the one the loop stops at |
| ToolkitServices.Indices | Source/Gapotchenko.GnuTK/Toolkits/ToolkitServices.cs:68-69 | the whole pool in order |
| ToolkitServices.IndicesUnique | Source/Gapotchenko.GnuTK/Toolkits/ToolkitServices.cs:79 | the pool lists each toolkit once |
| ToolkitServices.FirstNonIsolatedScriptable | Source/Gapotchenko.GnuTK/Toolkits/ToolkitServices.cs:94-96 | the first scriptable toolkit without isolation, or none when the pool has none |
| ToolkitServices.WithBackend | Source/Gapotchenko.GnuTK/Toolkits/ToolkitServices.cs:89-100 | the post-pass keeps the selection within the pool |
| ToolkitServices.SelectToolkits | Source/Gapotchenko.GnuTK/Toolkits/ToolkitServices.cs:65-103 | the method returns the reference selection: the pool for no names, the union at `auto`, else the named toolkits with an implicit backend |
| ToolkitServices.ResolveName | Source/Gapotchenko.GnuTK/Toolkits/ToolkitServices.cs:81-83 | resolving one name returns the reference resolution, an index of the pool |
| ToolkitServices.AddImplicitBackend | Source/Gapotchenko.GnuTK/Toolkits/ToolkitServices.cs:89-100 | the post-pass returns the reference selection with the backend added when needed |
| ToolkitServices.AutoOrder | Source/Gapotchenko.GnuTK/Toolkits/ToolkitServices.cs:78-79 | at `auto` the toolkits selected so far come first, each once, followed by the rest of the pool in pool order |
| ToolkitServices.AutoSelectsAll | Source/Gapotchenko.GnuTK/Toolkits/ToolkitServices.cs:78-79 | with `auto` every toolkit of the pool is selected, exactly once |
| ToolkitServices.SelectionByName | Source/Gapotchenko.GnuTK/Toolkits/ToolkitServices.cs:73-102 | without `auto` the named toolkits come in the order of the names, and the pool's first non-isolated scriptable toolkit is appended iff the selection has an environment toolkit and no scriptable one and such a toolkit exists; nothing named gives an empty selection |
| ToolkitServices.EnumerateToolkitsOrder | Source/Gapotchenko.GnuTK/Toolkits/ToolkitServices.cs:111-127 | no two enumerated toolkits share a name and installation path; every discovered identity is kept; portable toolkits come first and an installed toolkit appears only when no portable one has its identity |
| ToolkitServices.PortableWins | Source/Gapotchenko.GnuTK/Toolkits/ToolkitServices.cs:121-126 | a portable and an installed toolkit with the same name and path count once, and the portable one is kept |
| ToolkitServices.FamilyNames | Source/Gapotchenko.GnuTK/Toolkits/ToolkitServices.cs:134-171 | one name per family, in order |
| ToolkitServices.SupportedFamiliesByOS | Source/Gapotchenko.GnuTK/Toolkits/ToolkitServices.cs:134-171 | Windows offers MSYS2, Cygwin, WSL in that order; macOS Homebrew then System; Linux and other Unix System only; other systems nothing; no family twice |
| Engine.Families | Source/Gapotchenko.GnuTK/Engine.cs:465-471 | without strict mode every supported family is kept; in strict mode exactly the families that are not GNU-like are kept |
| Engine.FamiliesAppend | Source/Gapotchenko.GnuTK/Engine.cs:465-471 | strict mode keeps the families' order: the filter distributes over concatenation |
| Engine.StrictKeepsGnu | Source/Gapotchenko.GnuTK/Engine.cs:468-469 | strict mode drops nothing from a list of GNU families |
| Engine.StrictWindows | Source/Gapotchenko.GnuTK/Engine.cs:465-471 | in strict mode Windows keeps all its families |
| Engine.StrictLinux | Source/Gapotchenko.GnuTK/Engine.cs:465-471 | in strict mode Linux keeps all its families |
| Engine.StrictMacOS | Source/Gapotchenko.GnuTK/Engine.cs:465-471 | in strict mode macOS keeps only Homebrew |
| Engine.StrictOtherUnix | Source/Gapotchenko.GnuTK/Engine.cs:465-471 | in strict mode other Unix systems keep no family |
| Engine.FilterByIsolation | Source/Gapotchenko.GnuTK/Engine.cs:450-460 | without isolation levels the toolkits pass unchanged; the result is never longer than the input |
| Engine.FilterByIsolationMembers | Source/Gapotchenko.GnuTK/Engine.cs:452-459 | a toolkit is kept iff it is not scriptable or its isolation is one of the levels |
| Engine.FilterByIsolationKeepsOrder | Source/Gapotchenko.GnuTK/Engine.cs:452-459 | the isolation filter keeps the relative order of the toolkits it keeps |
| Engine.Pick | Source/Gapotchenko.GnuTK/Engine.cs:442 | the selected indices name toolkits of the pool, in selection order |
| Engine.SelectedInPool | Source/Gapotchenko.GnuTK/Engine.cs:441-442 | every toolkit the selection names belongs to the pool |
| Engine.GetToolkit | Source/Gapotchenko.GnuTK/Engine.cs:171-179 | the engine fails with "suitable toolkit not found" exactly when no scriptable toolkit can be had from the selection |
| Engine.AutomaticChoice | Source/Gapotchenko.GnuTK/Engine.cs:171-179 | without toolkit names a scriptable toolkit at the head of the pool is used on its own |
| Engine.TranslatableIsDrivePath | Source/Gapotchenko.GnuTK/Engine.cs:155-168 | a value is translatable exactly on Windows when it starts with an ASCII letter and a colon |
| Engine.TranslateValue | Source/Gapotchenko.GnuTK/Engine.cs:149-154 | a value that is not a translatable file path is passed through unchanged |
| Engine.TranslateAll | Source/Gapotchenko.GnuTK/Engine.cs:144 | every argument is translated on its own, in order; a failure comes from one of them |
| Engine.PrepareCommandArgumentsShape | Source/Gapotchenko.GnuTK/Engine.cs:141-147 | arguments are untouched unless the family translates paths; translated arguments keep their number and every non-path argument; off Windows nothing changes |
| Engine.TranslateAllVerbatim | Source/Gapotchenko.GnuTK/Engine.cs:149-153 | a list without translatable paths comes back unchanged |
| Engine.DriveRewriteChanges | Source/Gapotchenko.GnuTK/Engine.cs:151-152 | a drive path always changes under the drive rewrite |
| Engine.CommandLineReuse | Source/Gapotchenko.GnuTK/Engine.cs:69-100 | the original command line is kept off Windows and whenever no part is a drive path; with the drive rewrite it is rebuilt from the translated parts iff some part is a drive path |
| Engine.FilePath | Source/Gapotchenko.GnuTK/Engine.cs:132-133 | `-` stands for the standard input and any other path is kept |
| Engine.VersionStringDigits | Source/Gapotchenko.GnuTK/Engine.cs:194 | the version value is eight digits that read back as major (4), minor (2) and build (2) when they fit |
| Engine.GetToolkitExecutionEnvironment | Source/Gapotchenko.GnuTK/Engine.cs:181-197 | the environment built step by step is the reference execution environment |
| Engine.VariablesDistinct | Source/Gapotchenko.GnuTK/Engine.cs:185-194 | the four GNU-TK variables are distinct under every name comparer, so setting one never overwrites another |
| Engine.ExecutionEnvironmentValues | Source/Gapotchenko.GnuTK/Engine.cs:181-197 | `POSIXLY_CORRECT` is empty iff POSIX mode is on, `GNU_TK_TOOLKIT` is the comma-joined names iff names were given, `GNU_TK_STRICT` is empty iff strict mode is on, and `GNU_TK_VERSION` is always the version string |
| Engine.ExecutionEnvironmentKeys | Source/Gapotchenko.GnuTK/Engine.cs:181-197 | only those four variables can be defined, and the version is always defined |
| Engine.ExecutionOptions | Source/Gapotchenko.GnuTK/Engine.cs:199-205 | the options are strict iff strict mode is on |
| Engine.RequestsShareSettings | Source/Gapotchenko.GnuTK/Engine.cs:108-139 | command and file requests carry the same translated arguments, the same environment and the same options; only the arguments are translated, never the command or the file path |
| Engine.GetToolkitLocation | Source/Gapotchenko.GnuTK/Engine.cs:473-478 | a built-in toolkit is listed as `(built-in)`, any other at its installation path |
| Program.FirstTurningPoint | Source/Gapotchenko.GnuTK/Program.cs:105-130 | the first argument that ends the initial state (a help request, `-l`/`--command-line`, `-c`/`--command`, `-f`/`--file`); none before it is one |
| Program.CanonicalizeArgs | Source/Gapotchenko.GnuTK/Program.cs:96-149 | the state machine returns the canonical arguments: no arguments give `--help`, a help request in the initial state becomes `--help`, a `--` is inserted after `-l` unless the next argument is one, everything else is copied |
| Program.TransitionAgrees | Source/Gapotchenko.GnuTK/Program.cs:105-146 | on each argument the state machine emits exactly that argument's part of the canonical form (`--help` for a help request in the initial state, `--` before the argument following `-l` unless it is `--`, else the argument) and enters the state the canonical form implies |
| Program.CanonicalArgsShape | Source/Gapotchenko.GnuTK/Program.cs:103-148 | the output is the input, or the input with one help request replaced, or the input with one `--` inserted right after a command-line option; so it has n or n + 1 elements |
| Program.CanonicalArgsExample | Source/Gapotchenko.GnuTK/Program.cs:112-139 | options before `-l` are kept and `--` is inserted before the command; an existing `--` is not doubled; `/?` means help only on Windows; nothing after `-c` is rewritten |
| Program.GetAppVersion | Source/Gapotchenko.GnuTK/Program.cs:192-199 | without a `+` the version is kept; otherwise it is cut right before its last `+` |
| Program.GetAppVersionStripsMetadata | Source/Gapotchenko.GnuTK/Program.cs:195-197 | metadata appended after a `+` is removed again |
| PositionTrackingTextReader.PositionTrackingTextReader.constructor | Source/Gapotchenko.GnuTK/IO/PositionTrackingTextReader.cs:17-21 | a new wrapper holds the base reader at position 0 |
| PositionTrackingTextReader.Create | Source/Gapotchenko.GnuTK/IO/PositionTrackingTextReader.cs:17-21 | a null base reader is rejected, any other is wrapped at position 0 |
| PositionTrackingTextReader.PositionTrackingTextReader.Read | Source/Gapotchenko.GnuTK/IO/PositionTrackingTextReader.cs:23-29 | the base reader's next character is returned and counted; at the end -1 is returned and the position stays |
| PositionTrackingTextReader.PositionTrackingTextReader.ReadBlock | Source/Gapotchenko.GnuTK/IO/PositionTrackingTextReader.cs:31-37 | the characters read into the buffer are the next ones of the text and the position grows by their number |
| PositionTrackingTextReader.PositionTrackingTextReader.Close | Source/Gapotchenko.GnuTK/IO/PositionTrackingTextReader.cs:44-51 | closing or disposing the wrapper closes the base reader |
| PositionTrackingTextReader.ReadToEnd | Source/Gapotchenko.GnuTK/IO/PositionTrackingTextReader.cs:23-39 | reading through a fresh wrapper to the end yields the rest of the text, and the position is then its length |
| Diagnostics.GetErrorIdentifier | Source/Gapotchenko.GnuTK/Diagnostics/DiagnosticServices.cs:12-15 | the identifier starts with `GNUTK` and is exactly `GNUTK` for a null code |
| Diagnostics.ErrorIdentifierOfCode | Source/Gapotchenko.GnuTK/Diagnostics/DiagnosticServices.cs:14 | a code below 10000 is written as exactly four digits that read back as the code |
| Diagnostics.DefinedCodeIdentifiers | Source/Gapotchenko.GnuTK/Diagnostics/DiagnosticCode.cs:16-22 | the defined codes print as `GNUTK0001` to `GNUTK0004` |
| Text.FormatDExact | Source/Gapotchenko.GnuTK/Diagnostics/DiagnosticServices.cs:14 | a number below 10^width is written with exactly width digits that read back as the number |
| Text.LastIndexOf | Source/Gapotchenko.GnuTK/Program.cs:196 | the position of the last occurrence of a character, or -1 when there is none |
| Text.TrimEnd | Source/Gapotchenko.GnuTK/Toolkits/MetaToolkit.cs:36 | the longest prefix that does not end with the character; only that character is removed |
| Text.SplitJoin | Source/Gapotchenko.GnuTK/Toolkits/ToolkitEnvironment.cs:123-127 | splitting joined non-empty, separator-free segments gives the segments back |
| Text.JoinSplit | Source/Gapotchenko.GnuTK/Toolkits/ToolkitEnvironment.cs:123-127 | joining the split of a string without empty segments gives the string back |
| Text.DistinctExceptUnique | Source/Gapotchenko.GnuTK/Toolkits/ToolkitServices.cs:124-126 | `DistinctBy` keeps no two elements with the same key |
| Text.DistinctExceptCovers | Source/Gapotchenko.GnuTK/Toolkits/ToolkitServices.cs:124-126 | every key of the input is represented in the output of `DistinctBy` |
| Platform.GetNetRid | Source/Packaging/NPM/gnu-tk/platform.js:13-47 | the identifier is one of the seven known ones; the launcher throws, with the platform and architecture in the message, iff the platform or the architecture is not supported |
| Platform.GetNetRidNative | Source/Packaging/NPM/gnu-tk/platform.js:17-41 | each supported platform maps its native architectures to its own identifiers |
| Platform.GetNetRidFallThrough | Source/Packaging/NPM/gnu-tk/platform.js:17-36 | as written, 32-bit x86 Linux and macOS fall through to the Windows identifier `win-x86` |
| Platform.GetNetRidUnsupported | Source/Packaging/NPM/gnu-tk/platform.js:44-46 | an unknown platform fails with the message naming `platform.arch` |
| Platform.IntendedNetRid | Source/Packaging/NPM/gnu-tk/platform.js:13-47 | corrected mapping: it succeeds exactly on native pairs and the identifier always starts with the platform's own prefix |
| Platform.IntendedDiffersOnlyOnFallThrough | Source/Packaging/NPM/gnu-tk/platform.js:17-36 | the corrected and the written mapping differ exactly on 32-bit x86 Linux and macOS |
| Polyfills.GetValueOrDefault | Source/Gapotchenko.GnuTK/Polyfills.cs:12-18 | the stored value when the key is present, else the default |
| Polyfills.GetValueOrNull | Source/Gapotchenko.GnuTK/Polyfills.cs:5-10 | null exactly when the key is missing or its value is null; otherwise the stored value |
| LinguisticServices.SingleQuote | Source/Gapotchenko.GnuTK/LinguisticServices.cs:7 | the value between two single quotes, unchanged |
| LinguisticServices.CombineWithOr | Source/Gapotchenko.GnuTK/LinguisticServices.cs:9-35 | the loop returns the reference rendering |
| LinguisticServices.OrPrefixOfNonEmpty | Source/Gapotchenko.GnuTK/LinguisticServices.cs:18-32 | with non-empty values every value but the last is joined by `, ` |
| LinguisticServices.CombinedWithOrOfNonEmpty | Source/Gapotchenko.GnuTK/LinguisticServices.cs:9-35 | with non-empty values the rendering is `a, b, … or z` |
| LinguisticServices.CombinedWithOrExamples | Source/Gapotchenko.GnuTK/LinguisticServices.cs:9-35 | no values give the empty string, one gives itself, two give `a or b`, three give `a, b or c` |
| LinguisticServices.LeadingEmptyAddsNoSeparator | Source/Gapotchenko.GnuTK/LinguisticServices.cs:22-28 | a leading empty value adds no separator, because the separator depends on what was written so far |

## Left out

- Process spawning, waiting and exit codes are not modelled. The builders stop at the `ProcessDescriptor` the toolkit would start.
- Console I/O and the TTY are not modelled.
- The operating system, the file system and the inherited environment are the `Host` parameter. This covers which files and directories exist, `Path.Combine`, `Path.GetDirectoryName`, `Path.GetFullPath` and the comparers.
- Deployment discovery is not modelled. This covers the `*ToolkitFamily` enumerations, the MSYS2, Cygwin, Git and WSL setup libraries, and the Homebrew package lookup. The toolkits each family finds are given as sequences of instance records.
- The user interface, the CLI option parser, the configuration, the multiplex and native toolkits, the exception classes and the diagnostic message texts are outside the core. This covers `UIShell.cs`, `CliServices.cs`, `Configuration/`, `MultiplexToolkit.cs`, `Native/` and `DiagnosticMessages`.
- `Program.Main`, `Program.Run` and the option handling after canonicalisation are not modelled. Only `CanonicalizeArgs` and `GetAppVersion` are.
- `polyfills.js` and `index.js` of the npm launcher are not modelled. Only the runtime-identifier table of `platform.js` is.
- The WSL environment script escapes each name and each value with `ShellHelper.Escape` (`WslToolkit.cs:144,149,151`). `ShellHelper.cs` does not define that method; it defines only `EscapeVariableValue`, which `Idiosyncrasies` models. The model therefore makes the escaping the `Host.escape` parameter and states the script in terms of it.
- Case-insensitive comparisons (`OrdinalIgnoreCase`, `ToLowerInvariant`) are modelled by ASCII case folding. Unicode case folding of toolkit names, family names, the `auto` keyword, variable names and paths is not modelled, because the .NET culture-invariant casing tables are outside the model.
- `CommandLine.Split` and `CommandLine.Build` are parameters of `Engine.CommandLineReuse`. The model states only the decision of whether the original command line is reused.
- WslToolkit.TranslateFilePath: the `wslpath` helper is an opaque parameter, and so is its working directory. The model states what is done with the helper's answer: an empty input is kept, a failure keeps the input, and otherwise the helper's output is returned.
- Meta.ComposedEnvironment: where the source's `Aggregate` throws `InvalidOperationException` because no underlying toolkit contributes an environment, the model returns `None`.
- Meta.CombinedEnvironmentValue: states the layering only for variables that are not `PATH` or a flags variable under any spelling. The PATH and flags merges are stated for one combination step by the `ToolkitEnvironment` lemmas.
- The `field ??=` caches are not modelled as state, except in `Meta.MetaToolkit`, whose name, description and family caches are fields. Elsewhere a cached value is a pure function of the instance, so the cache cannot be observed.
- The source's declarations and their uses disagree in five places:
  - `ToolkitServices.cs:116` calls `EnumerateToolkitsFromDirectory`, but the family interface declares `EnumerateToolkitsInDirectory`.
  - Git, WSL and Homebrew name their command method `ExecuteShellCommand`, but `IScriptableToolkit` declares `ExecuteCommand`.
  - `Engine.cs:475` reads `toolkit.Traits`, which `IToolkit` does not declare.
  - `WslToolkit.cs:144,149,151` call `ShellHelper.Escape`, which `ShellHelper.cs` does not define.
  - `CygwinToolkitFamily.cs:44` constructs `new(this, setupInstance, traits)`, but the `CygwinToolkit` constructor at `CygwinToolkit.cs:17` takes only the family and the setup instance.

  The model uses the single `Toolkits.Toolkit` record, with one execute method per family, and the `Host.escape` parameter. The model's Cygwin toolkit ignores the traits the family passes, as `CygwinToolkit.cs:29` reports `ToolkitTraits.None` whatever they are.
- The Git, System and Homebrew toolkits declare no isolation in their sources. `IScriptableToolkit` requires one. Their records use `NoIsolation`, because these toolkits run directly on the host.
- `HomebrewToolkitEnvironment` contributes a placeholder environment. The model gives it an empty map.
- Engine.GetToolkit: the failure is the model's `ToolkitNotFound`, which stands for the source's exception carrying `DiagnosticCode.SuitableToolkitNotFound`. The message text is not modelled.
- `PositionTrackingTextReader.BaseReader` stands in for the .NET `TextReader` being wrapped: a string consumed from the front.
- Integer widths are not modelled. `Position` is an unbounded integer, while the source's counter is a fixed-width integer.

## Findings

| source | as written | input that shows it | evidently intended | confidence | as-written member | corrected member |
|---|---|---|---|---|---|---|
| Source/Packaging/NPM/gnu-tk/platform.js:17-42 | the inner `switch` for `linux` and `darwin` has no `return` for 32-bit x86, and the outer cases have no `break`, so control falls through into the `win32` case | platform `linux`, architecture `ia32` (likewise `x32`, and `darwin`) gives `win-x86` | an unsupported-platform error, as for any other unmatched pair | not executed | Platform.GetNetRidFallThrough | Platform.IntendedNetRid |
