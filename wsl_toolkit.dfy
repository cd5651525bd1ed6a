/** Windows Subsystem for Linux (`WslToolkit`): commands run in the default
    distribution through `wsl.exe --exec sh`; only the GNU-TK variables cross
    the boundary, as a script of `export` and `unset` statements. */
module WslToolkit {
  import opened Wrappers
  import opened Text
  import opened ToolkitEnvironment
  import opened Diagnostics
  import opened Toolkits
  import opened ShellCommandLine

  const Name: string := "wsl"
  const FamilyName: string := "WSL"
  const FamilyTraits: FamilyTraits := Installable | FilePathTranslation

  /** The file name of the launcher, which is also what a failure names. */
  const WslFileName: string := "wsl.exe"

  /** A WSL installation: its major version and where its `wsl.exe` would be. */
  datatype WslInstance = WslInstance(
    displayName: string,
    installationPath: string,
    majorVersion: int,
    wslPath: string)

  /** `Isolation`: WSL 2 runs a virtual machine, WSL 1 a container; a WSL
      toolkit is never free of isolation. */
  function Isolation(instance: WslInstance): (r: Isolation)
    ensures r != NoIsolation
    ensures r == VirtualMachine <==> instance.majorVersion >= 2
    ensures r == Container <==> instance.majorVersion < 2
  {
    if instance.majorVersion >= 2 then VirtualMachine else Container
  }

  /** The toolkit as the registry sees it. */
  function Record(instance: WslInstance): Toolkit {
    Toolkit(
      Name, instance.displayName, Some(instance.installationPath),
      Family(FamilyName, FamilyTraits), false,
      Some(Scripting(Isolation(instance), WslHelper(instance.wslPath))),
      None)
  }

  /** `GetWslPath`: the launcher must exist; the failure names its bare file
      name. */
  method GetWslPath(host: Host, instance: WslInstance) returns (r: Result<string, Error>)
    ensures r.Success? <==> instance.wslPath in host.files
    ensures r.Success? ==> r.value == instance.wslPath
    ensures r.Failure? ==> r.error == ModuleNotFound(WslFileName)
  {
    var fileName := WslFileName;
    var wslPath := instance.wslPath;
    if wslPath !in host.files {
      return Failure(ModuleNotFound(fileName));
    }
    return Success(wslPath);
  }

  // ---------------------------------------------------------------------------
  // Path translation
  // ---------------------------------------------------------------------------

  /** What `wslpath` makes of a host path once the launcher is known to exist:
      the empty path as is, the helper's output, or the path itself when the
      helper fails. */
  function TranslatedPath(host: Host, path: string): string {
    if path == "" then path
    else match host.wslpath(host.normalizePath(path))
      case None => path
      case Some(output) => output
  }

  /** `TranslateFilePath`. */
  method TranslateFilePath(host: Host, instance: WslInstance, path: string) returns (r: Result<string, Error>)
    ensures path == "" ==> r == Success(path)
    ensures path != "" && instance.wslPath !in host.files ==> r == Failure(ModuleNotFound(WslFileName))
    ensures path != "" && instance.wslPath in host.files ==>
              r == Success(match host.wslpath(host.normalizePath(path)) case None => path case Some(output) => output)
  {
    if path == "" {
      return Success(path);
    }
    var wslPath := GetWslPath(host, instance);
    if wslPath.Failure? {
      return Failure(wslPath.error);
    }
    var output := host.wslpath(host.normalizePath(path));
    if output.None? {
      return Success(path);
    }
    return Success(output.value);
  }

  // ---------------------------------------------------------------------------
  // The environment script
  // ---------------------------------------------------------------------------

  /** One entry of the translated environment; `None` unsets the variable. */
  datatype Assignment = Assignment(name: string, value: Option<string>)

  /** The variables that cross into the distribution, in this order. */
  const ForwardedNames: seq<string> := [PosixlyCorrect, GnuTkVariable, GnuTkToolkitVariable, GnuTkVersionVariable]

  /** The first assignment to `name`, if any. */
  function Lookup(entries: seq<Assignment>, name: string): Option<Option<string>> {
    if entries == [] then None
    else if entries[0].name == name then Some(entries[0].value)
    else Lookup(entries[1..], name)
  }

  /** The entry `Translate(name)` adds, if the variable is present; a non-null
      `GNU_TK` is translated to a Linux path. */
  function Forwarded(host: Host, env: Env, name: string, translateFilePath: bool): seq<Assignment> {
    match TryGetValue(host.cfg, env, name)
    case None => []
    case Some(value) =>
      [Assignment(name, if value.Some? && translateFilePath then Some(TranslatedPath(host, value.value)) else value)]
  }

  /** The ordinal dictionary `TranslateEnvironment` returns, in insertion
      order: the forwarded variables that are present, then a null
      `POSIXLY_CORRECT` if that one was absent. */
  function TranslatedEnvironment(host: Host, env: Env): seq<Assignment> {
    var entries := ForwardedEntries(host, env);
    if Lookup(entries, PosixlyCorrect).Some? then entries else entries + [Assignment(PosixlyCorrect, None)]
  }

  /** The entries of the forwarded variables that are present, in order. */
  function ForwardedEntries(host: Host, env: Env): seq<Assignment> {
    Forwarded(host, env, PosixlyCorrect, false) + Forwarded(host, env, GnuTkVariable, true) +
    Forwarded(host, env, GnuTkToolkitVariable, false) + Forwarded(host, env, GnuTkVersionVariable, false)
  }

  /** `TranslateEnvironment`. */
  method TranslateEnvironment(host: Host, env: Env) returns (r: seq<Assignment>)
    ensures r == TranslatedEnvironment(host, env)
  {
    r := [];
    var i := 0;
    while i < |ForwardedNames|
      invariant 0 <= i <= |ForwardedNames|
      invariant r == (if i >= 1 then Forwarded(host, env, PosixlyCorrect, false) else []) +
                     (if i >= 2 then Forwarded(host, env, GnuTkVariable, true) else []) +
                     (if i >= 3 then Forwarded(host, env, GnuTkToolkitVariable, false) else []) +
                     (if i >= 4 then Forwarded(host, env, GnuTkVersionVariable, false) else [])
    {
      var name := ForwardedNames[i];
      var value := TryGetValue(host.cfg, env, name);
      if value.Some? {
        var v := value.value;
        if v.Some? && name == GnuTkVariable {
          v := Some(TranslatedPath(host, v.value));
        }
        r := r + [Assignment(name, v)];
      }
      i := i + 1;
    }
    if Lookup(r, PosixlyCorrect).None? {
      r := r + [Assignment(PosixlyCorrect, None)];
    }
  }

  lemma {:induction false} LookupAppend(xs: seq<Assignment>, ys: seq<Assignment>, name: string)
    ensures Lookup(xs + ys, name) == if Lookup(xs, name).Some? then Lookup(xs, name) else Lookup(ys, name)
  {
    if xs == [] {
      assert xs + ys == ys;
    } else {
      assert (xs + ys)[1..] == xs[1..] + ys;
      LookupAppend(xs[1..], ys, name);
    }
  }

  /** What the entry `Translate(name)` adds holds for `other`. */
  function LookupForwardedValue(host: Host, env: Env, name: string, translateFilePath: bool, other: string): Option<Option<string>> {
    if other != name then None
    else match TryGetValue(host.cfg, env, name)
      case Some(Some(v)) => Some(Some(if translateFilePath then TranslatedPath(host, v) else v))
      case value => value
  }

  /** Looking a name up in the entry `Translate(name)` adds. */
  lemma LookupForwarded(host: Host, env: Env, name: string, translateFilePath: bool, other: string)
    ensures Lookup(Forwarded(host, env, name, translateFilePath), other) ==
            LookupForwardedValue(host, env, name, translateFilePath, other)
  {
    var entries := Forwarded(host, env, name, translateFilePath);
    if entries != [] {
      assert entries[1..] == [];
    }
  }

  /** `POSIXLY_CORRECT` always crosses over: with its value when the process
      environment has it, unset otherwise. */
  lemma TranslatedPosixlyCorrect(host: Host, env: Env)
    ensures Lookup(TranslatedEnvironment(host, env), PosixlyCorrect) ==
            if ContainsName(host.cfg, env, PosixlyCorrect) then TryGetValue(host.cfg, env, PosixlyCorrect) else Some(None)
  {
    TranslatedLookup(host, env, PosixlyCorrect);
  }

  /** `GNU_TK` crosses over iff the process environment has it, a non-null
      path translated to the distribution's file system. */
  lemma TranslatedGnuTk(host: Host, env: Env)
    ensures Lookup(TranslatedEnvironment(host, env), GnuTkVariable) ==
            match TryGetValue(host.cfg, env, GnuTkVariable)
            case Some(Some(v)) => Some(Some(TranslatedPath(host, v)))
            case other => other
  {
    TranslatedLookup(host, env, GnuTkVariable);
  }

  /** `GNU_TK_TOOLKIT` and `GNU_TK_VERSION` cross over unchanged iff the
      process environment has them. */
  lemma TranslatedVerbatim(host: Host, env: Env, name: string)
    requires name == GnuTkToolkitVariable || name == GnuTkVersionVariable
    ensures Lookup(TranslatedEnvironment(host, env), name) == TryGetValue(host.cfg, env, name)
  {
    assert |name| == 14;
    assert name != PosixlyCorrect && name != GnuTkVariable;
    TranslatedLookup(host, env, name);
  }

  /** The translated environment is never empty and names only forwarded
      variables. */
  lemma TranslatedNames(host: Host, env: Env)
    ensures var r := TranslatedEnvironment(host, env);
            && |r| >= 1
            && forall a :: a in r ==> a.name in ForwardedNames
  {
    var entries := ForwardedEntries(host, env);
    if Lookup(entries, PosixlyCorrect).Some? {
      assert entries != [];
    }
    forall a | a in entries
      ensures a.name in ForwardedNames
    {
      ForwardedName(host, env, PosixlyCorrect, false, a);
      ForwardedName(host, env, GnuTkVariable, true, a);
      ForwardedName(host, env, GnuTkToolkitVariable, false, a);
      ForwardedName(host, env, GnuTkVersionVariable, false, a);
    }
  }

  /** The entry `Translate(name)` adds carries that name. */
  lemma ForwardedName(host: Host, env: Env, name: string, translateFilePath: bool, a: Assignment)
    ensures a in Forwarded(host, env, name, translateFilePath) ==> a.name == name
  {
  }

  /** A forwarded variable in the translated environment: its entry, or an
      unset `POSIXLY_CORRECT` when that one is absent. */
  lemma TranslatedLookup(host: Host, env: Env, name: string)
    requires name in ForwardedNames
    ensures Lookup(TranslatedEnvironment(host, env), name) ==
            var v := LookupForwardedValue(host, env, name, name == GnuTkVariable, name);
            if v.None? && name == PosixlyCorrect then Some(None) else v
  {
    var entries := ForwardedEntries(host, env);
    ForwardedEntriesLookup(host, env, name);
    ForwardedEntriesLookup(host, env, PosixlyCorrect);
    if Lookup(entries, PosixlyCorrect).None? {
      var tail := [Assignment(PosixlyCorrect, None)];
      LookupAppend(entries, tail, name);
      assert tail[1..] == [];
    }
  }

  /** A forwarded variable among the forwarded entries. */
  lemma ForwardedEntriesLookup(host: Host, env: Env, name: string)
    requires name in ForwardedNames
    ensures Lookup(ForwardedEntries(host, env), name) ==
            LookupForwardedValue(host, env, name, name == GnuTkVariable, name)
  {
    ForwardedNamesDistinct();
    LookupForwardedFour(host, env, PosixlyCorrect, GnuTkVariable, GnuTkToolkitVariable, GnuTkVersionVariable, name);
  }

  /** Looking one of four different names up in their entries, the second
      name's value translated. */
  lemma LookupForwardedFour(host: Host, env: Env, n1: string, n2: string, n3: string, n4: string, name: string)
    requires n1 != n2 && n1 != n3 && n1 != n4 && n2 != n3 && n2 != n4 && n3 != n4
    requires name == n1 || name == n2 || name == n3 || name == n4
    ensures Lookup(Forwarded(host, env, n1, false) + Forwarded(host, env, n2, true) +
                   Forwarded(host, env, n3, false) + Forwarded(host, env, n4, false), name) ==
            LookupForwardedValue(host, env, name, name == n2, name)
  {
    var a := Forwarded(host, env, n1, false);
    var b := Forwarded(host, env, n2, true);
    var c := Forwarded(host, env, n3, false);
    var d := Forwarded(host, env, n4, false);
    LookupFour(a, b, c, d, name);
    LookupForwarded(host, env, n1, false, name);
    LookupForwarded(host, env, n2, true, name);
    LookupForwarded(host, env, n3, false, name);
    LookupForwarded(host, env, n4, false, name);
  }

  /** Looking a name up in four consecutive parts. */
  lemma LookupFour(a: seq<Assignment>, b: seq<Assignment>, c: seq<Assignment>, d: seq<Assignment>, name: string)
    ensures Lookup(a + b + c + d, name) ==
            if Lookup(a, name).Some? then Lookup(a, name)
            else if Lookup(b, name).Some? then Lookup(b, name)
            else if Lookup(c, name).Some? then Lookup(c, name)
            else Lookup(d, name)
  {
    LookupAppend(a + b + c, d, name);
    LookupAppend(a + b, c, name);
    LookupAppend(a, b, name);
  }

  lemma ForwardedNamesDistinct()
    ensures PosixlyCorrect != GnuTkVariable && PosixlyCorrect != GnuTkToolkitVariable
    ensures PosixlyCorrect != GnuTkVersionVariable && GnuTkVariable != GnuTkToolkitVariable
    ensures GnuTkVariable != GnuTkVersionVariable && GnuTkToolkitVariable != GnuTkVersionVariable
  {
    assert GnuTkToolkitVariable[7] != GnuTkVersionVariable[7];
  }

  /** One statement of the script: `unset NAME` or `export NAME=VALUE`, with
      the name and the value escaped. */
  function Statement(escape: string -> string, a: Assignment): string {
    match a.value
    case None => "unset " + escape(a.name)
    case Some(v) => "export " + escape(a.name) + "=" + escape(v)
  }

  /** The statements of all entries, in order. */
  function Statements(escape: string -> string, entries: seq<Assignment>): (r: seq<string>)
    ensures |r| == |entries|
    ensures forall i :: 0 <= i < |entries| ==> r[i] == Statement(escape, entries[i])
  {
    if entries == [] then [] else [Statement(escape, entries[0])] + Statements(escape, entries[1..])
  }

  /** `WriteEnvironmentScript`: the statements separated by `;`. */
  method WriteEnvironmentScript(escape: string -> string, environment: seq<Assignment>) returns (writer: string)
    ensures writer == JoinWith(Statements(escape, environment), ";")
  {
    writer := "";
    var first := true;
    ghost var statements := Statements(escape, environment);
    for i := 0 to |environment|
      invariant first <==> i == 0
      invariant writer == JoinWith(statements[..i], ";")
    {
      ghost var prefix := writer;
      if first {
        first := false;
      } else {
        writer := writer + ";";
      }
      ghost var separated := writer;
      assert separated == prefix + (if i == 0 then "" else ";");
      var entry := environment[i];
      if entry.value.None? {
        writer := writer + "unset ";
        writer := writer + escape(entry.name);
        ConcatAssociates(separated, "unset ", escape(entry.name));
      } else {
        writer := writer + "export ";
        writer := writer + escape(entry.name);
        writer := writer + "=";
        writer := writer + escape(entry.value.value);
        ConcatAssociates4(separated, "export ", escape(entry.name), "=", escape(entry.value.value));
      }
      assert writer == separated + statements[i];
      JoinWithNext(statements, i, ";");
    }
    assert statements[..|environment|] == statements;
  }

  /** Joining one more part appends the separator (unless it is the first
      part) and the part. */
  lemma JoinWithNext(parts: seq<string>, i: nat, sep: string)
    requires i < |parts|
    ensures JoinWith(parts[..i + 1], sep) == JoinWith(parts[..i], sep) + (if i == 0 then "" else sep) + parts[i]
  {
    var p := parts[..i + 1];
    assert p[..|p| - 1] == parts[..i];
    assert p[|p| - 1] == parts[i];
  }

  /** The script of a non-empty environment is never empty: it starts with the
      first statement, and every statement starts with `unset ` or `export `. */
  lemma ScriptNotEmpty(escape: string -> string, entries: seq<Assignment>)
    requires |entries| >= 1
    ensures var script := JoinWith(Statements(escape, entries), ";");
            |script| >= |Statement(escape, entries[0])| > 0
  {
    JoinWithLength(Statements(escape, entries), ";");
  }

  lemma {:induction false} JoinWithLength(parts: seq<string>, sep: string)
    requires |parts| >= 1
    ensures |JoinWith(parts, sep)| >= |parts[0]|
  {
    if |parts| > 1 {
      JoinWithLength(parts[..|parts| - 1], sep);
    }
  }

  // ---------------------------------------------------------------------------
  // Shell execution
  // ---------------------------------------------------------------------------

  /** The script that recreates the GNU-TK variables inside the distribution. */
  function EnvironmentScript(host: Host, env: Env): string {
    JoinWith(Statements(host.escape, TranslatedEnvironment(host, env)), ";")
  }

  /** The command string: the script and `;` when the script is not empty,
      then the command. */
  function ShellCommand(script: string, command: string): string {
    (if script != "" then script + ";" else "") + command
  }

  /** The options `wsl.exe` hands to `sh`. */
  function ShellOptions(extras: seq<string>): seq<string> {
    ["-l"] + extras
  }

  /** The process `ExecuteShell` starts, or the failure it raises. */
  function ShellProcess(
    host: Host, instance: WslInstance, command: string, commandArguments: seq<string>,
    environment: Option<Env>, extras: seq<string>): Result<ProcessDescriptor, Error>
  {
    if instance.wslPath !in host.files then Failure(ModuleNotFound(WslFileName))
    else
      var env := ProcessEnvironment(host, environment);
      var shellCommand := ShellCommand(EnvironmentScript(host, env), command);
      Success(ProcessDescriptor(
        instance.wslPath,
        ["--exec", "sh"] + Compose(ShellOptions(extras), shellCommand, commandArguments),
        env,
        Some(host.normalizePath(host.currentDirectory))))
  }

  /** `ExecuteShell`. */
  method ExecuteShell(
    host: Host, instance: WslInstance, command: string, commandArguments: seq<string>,
    environment: Option<Env>, extras: seq<string>) returns (r: Result<ProcessDescriptor, Error>)
    requires host.Valid() && WfOption(host.cfg, environment)
    ensures r == ShellProcess(host, instance, command, commandArguments, environment, extras)
  {
    var wslPathResult := GetWslPath(host, instance);
    if wslPathResult.Failure? {
      return Failure(wslPathResult.error);
    }
    var wslPath := wslPathResult.value;
    var workingDirectory := host.normalizePath(host.currentDirectory);

    var processEnvironment := new EnvironmentDictionary.FromEnv(host.cfg, host.inherited);
    processEnvironment.CombineWith(environment);
    assert processEnvironment.entries == ProcessEnvironment(host, environment);

    ghost var launcher := ["--exec", "sh"];
    var wslArguments := ["--exec", "sh", "-l"];
    assert wslArguments == launcher + ["-l"];
    wslArguments := wslArguments + extras;
    ConcatAssociates(launcher, ["-l"], extras);
    assert wslArguments == launcher + ShellOptions(extras);
    wslArguments := wslArguments + [CommandStringOption];

    var translated := TranslateEnvironment(host, processEnvironment.entries);
    var environmentScript := WriteEnvironmentScript(host.escape, translated);
    var commandBuilder := "";
    if environmentScript != "" {
      commandBuilder := commandBuilder + environmentScript + ";";
      assert commandBuilder == environmentScript + ";";
    }
    commandBuilder := commandBuilder + command;
    assert commandBuilder == ShellCommand(EnvironmentScript(host, processEnvironment.entries), command);
    wslArguments := wslArguments + [commandBuilder];
    wslArguments := wslArguments + commandArguments;
    ConcatAssociates4(launcher, ShellOptions(extras), [CommandStringOption], [commandBuilder], commandArguments);
    ConcatAssociates(ShellOptions(extras), [CommandStringOption], [commandBuilder]);
    assert [CommandStringOption] + [commandBuilder] == [CommandStringOption, commandBuilder];
    assert wslArguments == launcher + Compose(ShellOptions(extras), commandBuilder, commandArguments);

    r := Success(ProcessDescriptor(wslPath, wslArguments, processEnvironment.entries, Some(workingDirectory)));
  }

  /** `ExecuteShellCommand`: the command runs with `-e` only. */
  method ExecuteShellCommand(
    host: Host, instance: WslInstance, command: string, arguments: seq<string>,
    environment: Option<Env>, options: ExecutionOptions) returns (r: Result<ProcessDescriptor, Error>)
    requires host.Valid() && WfOption(host.cfg, environment)
    ensures r == ShellProcess(host, instance, command, arguments, environment, ["-e"])
  {
    r := ExecuteShell(host, instance, command, arguments, environment, ["-e"]);
  }

  /** The command that executes the program given as `$0`. */
  const ExecProgram: string := "exec \"$0\" \"$@\""
  /** The command that hands the host script given as `$0` to `sh`, its path
      converted inside the distribution. */
  const ExecScript: string := "exec sh \"$(wslpath \"$0\")\" \"$@\""

  /** `ExecuteFile`: the file is executed through `ExecuteShellCommand`. */
  method ExecuteFile(
    host: Host, instance: WslInstance, path: string, arguments: seq<string>,
    environment: Option<Env>, options: ExecutionOptions) returns (r: Result<ProcessDescriptor, Error>)
    requires host.Valid() && WfOption(host.cfg, environment)
    ensures r == ShellProcess(host, instance, ExecProgram, [path] + arguments, environment, ["-e"])
  {
    r := ExecuteShellCommand(host, instance, ExecProgram, [path] + arguments, environment, options);
  }

  /** `ExecuteShellFile`: the normalized path is `$0`, without extras. */
  method ExecuteShellFile(
    host: Host, instance: WslInstance, path: string, arguments: seq<string>,
    environment: Option<Env>, options: ExecutionOptions) returns (r: Result<ProcessDescriptor, Error>)
    requires host.Valid() && WfOption(host.cfg, environment)
    ensures r == ShellProcess(host, instance, ExecScript, [host.normalizePath(path)] + arguments, environment, [])
  {
    r := ExecuteShell(host, instance, ExecScript, [host.normalizePath(path)] + arguments, environment, []);
  }

  /** What the distribution's `sh` sees: `-l` and the extras as options, the
      environment script and `;` in front of the command, and the command
      arguments as `$0`, `$1…` with no fallback for `$0`. A missing launcher
      fails with its bare file name. */
  lemma ShellProcessLayout(
    host: Host, instance: WslInstance, command: string, commandArguments: seq<string>,
    environment: Option<Env>, extras: seq<string>)
    requires CommandStringOption !in extras
    ensures var r := ShellProcess(host, instance, command, commandArguments, environment, extras);
            && (r.Failure? <==> instance.wslPath !in host.files)
            && (r.Failure? ==> r.error == ModuleNotFound(WslFileName))
            && (r.Success? ==>
                  var script := EnvironmentScript(host, ProcessEnvironment(host, environment));
                  && r.value.arguments[..2] == ["--exec", "sh"]
                  && script != ""
                  && Parse(r.value.arguments[2..]) == Some(Invocation(
                       ["-l"] + extras,
                       script + ";" + command,
                       if commandArguments == [] then None else Some(commandArguments[0]),
                       if commandArguments == [] then [] else commandArguments[1..])))
  {
    if instance.wslPath in host.files {
      var env := ProcessEnvironment(host, environment);
      var entries := TranslatedEnvironment(host, env);
      TranslatedNames(host, env);
      ScriptNotEmpty(host.escape, entries);
      var shellCommand := ShellCommand(EnvironmentScript(host, env), command);
      var args := ["--exec", "sh"] + Compose(ShellOptions(extras), shellCommand, commandArguments);
      assert args[2..] == Compose(ShellOptions(extras), shellCommand, commandArguments);
      assert forall x :: x in ShellOptions(extras) ==> x == "-l" || x in extras;
      ParseCompose(ShellOptions(extras), shellCommand, commandArguments);
    }
  }
}
