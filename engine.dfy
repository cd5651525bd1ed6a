/** The engine: which toolkit runs a request, how Windows file paths in the
    arguments are translated for it, and the variables and options every
    request carries. */
module Engine {
  import opened Wrappers
  import opened Text
  import opened ToolkitEnvironment
  import opened Toolkits
  import opened Diagnostics
  import CygwinFileSystem
  import BusyBoxToolkit
  import WslToolkit
  import SystemToolkit
  import HomebrewToolkit
  import MSys2Toolkit
  import CygwinToolkit
  import ToolkitServices
  import Meta

  /** What the command line sets: `--posix`, `--strict`, the toolkit names
      (`None` selects automatically), the portable toolkit paths and the
      allowed isolation levels (`None` allows all). */
  datatype Settings = Settings(
    posix: bool,
    strict: bool,
    toolkitNames: Option<seq<string>>,
    toolkitPaths: seq<string>,
    isolationLevels: Option<seq<Isolation>>)

  // ---------------------------------------------------------------------------
  // Finding the toolkit
  // ---------------------------------------------------------------------------

  /** `EnumerateToolkitFamilies`: in strict mode the GNU-like families are
      dropped. */
  function Families(families: seq<Family>, strict: bool): (r: seq<Family>)
    ensures !strict ==> r == families
    ensures forall f :: f in r ==> f in families
    ensures strict ==> forall f :: f in r ==> !HasFlag(f.traits, Alike)
    ensures strict ==> forall f :: f in families && !HasFlag(f.traits, Alike) ==> f in r
  {
    if !strict || families == [] then families
    else (if HasFlag(families[0].traits, Alike) then [] else [families[0]]) + Families(families[1..], strict)
  }

  /** Strict mode keeps the families' order: filtering a concatenation gives
      the filtered first part followed by the filtered second part. */
  lemma {:induction false} FamiliesAppend(a: seq<Family>, b: seq<Family>, strict: bool)
    ensures Families(a + b, strict) == Families(a, strict) + Families(b, strict)
  {
    if strict && a != [] {
      FamiliesAppend(a[1..], b, strict);
      FamiliesAppendStep(a, b);
    } else if strict {
      EmptyConcat(a, b);
      assert Families(a, strict) == [];
      EmptyConcat(Families(a, strict), Families(b, strict));
    }
  }

  /** The inductive step of `FamiliesAppend`: the first family is kept or
      dropped on both sides alike. */
  lemma FamiliesAppendStep(a: seq<Family>, b: seq<Family>)
    requires a != []
    requires Families(a[1..] + b, true) == Families(a[1..], true) + Families(b, true)
    ensures Families(a + b, true) == Families(a, true) + Families(b, true)
  {
    var rest := a[1..];
    var head: seq<Family> := if HasFlag(a[0].traits, Alike) then [] else [a[0]];
    ConsSplit(a, b);
    FamiliesCons(a[0], rest + b);
    FamiliesCons(a[0], rest);
    PrependStep(head, Families(a + b, true), Families(rest + b, true),
                Families(a, true), Families(rest, true), Families(b, true));
  }

  /** A non-empty sequence is its head followed by its tail. */
  lemma ConsSplit<T>(a: seq<T>, b: seq<T>)
    requires a != []
    ensures [a[0]] + a[1..] == a
    ensures [a[0]] + (a[1..] + b) == a + b
  {
  }

  /** Concatenating after an empty sequence changes nothing. */
  lemma EmptyConcat<T>(a: seq<T>, b: seq<T>)
    requires a == []
    ensures a + b == b
  {
  }

  /** The algebra of one step of `FamiliesAppend`. */
  lemma PrependStep<T>(head: seq<T>, whole: seq<T>, tail: seq<T>, first: seq<T>, firstTail: seq<T>, second: seq<T>)
    requires whole == head + tail && tail == firstTail + second && first == head + firstTail
    ensures whole == first + second
  {
  }

  /** One step of the strict filter. */
  lemma FamiliesCons(f: Family, rest: seq<Family>)
    ensures Families([f] + rest, true) ==
            (if HasFlag(f.traits, Alike) then [] else [f]) + Families(rest, true)
  {
    assert ([f] + rest)[1..] == rest;
  }

  /** In strict mode a list of families none of which is GNU-like is kept
      whole. */
  lemma {:induction false} StrictKeepsGnu(families: seq<Family>)
    requires forall i :: 0 <= i < |families| ==> !HasFlag(families[i].traits, Alike)
    ensures Families(families, true) == families
  {
    if families != [] {
      StrictKeepsGnu(families[1..]);
      assert [families[0]] + families[1..] == families;
    }
  }

  /** Strict mode keeps MSYS2, Cygwin and WSL on Windows. */
  lemma StrictWindows()
    ensures Families(ToolkitServices.SupportedFamilies(Windows), true) == ToolkitServices.SupportedFamilies(Windows)
  {
    var windows := ToolkitServices.SupportedFamilies(Windows);
    assert !HasFlag(windows[0].traits, Alike);
    assert !HasFlag(windows[1].traits, Alike);
    assert !HasFlag(windows[2].traits, Alike);
    StrictKeepsGnu(windows);
  }

  /** Strict mode keeps the system's own GNU tools on Linux. */
  lemma StrictLinux()
    ensures Families(ToolkitServices.SupportedFamilies(Linux), true) == ToolkitServices.SupportedFamilies(Linux)
  {
    StrictKeepsGnu(ToolkitServices.SupportedFamilies(Linux));
  }

  /** Strict mode keeps Homebrew but not the BSD-based system on macOS. */
  lemma StrictMacOS()
    ensures Families(ToolkitServices.SupportedFamilies(MacOS), true) ==
              [Family(HomebrewToolkit.FamilyName, HomebrewToolkit.FamilyTraits)]
  {
    var mac := ToolkitServices.SupportedFamilies(MacOS);
    assert !HasFlag(mac[0].traits, Alike);
    assert HasFlag(mac[1].traits, Alike);
    assert mac[1..][1..] == [];
    assert Families(mac[1..], true) == [];
  }

  /** Strict mode keeps nothing on other Unix systems. */
  lemma StrictOtherUnix()
    ensures Families(ToolkitServices.SupportedFamilies(OtherUnix), true) == []
  {
    var unix := ToolkitServices.SupportedFamilies(OtherUnix);
    assert HasFlag(unix[0].traits, Alike);
    assert unix[1..] == [];
  }

  /** The isolation filter: toolkits that are not scriptable always pass, a
      scriptable one passes iff its isolation is allowed, and with no list
      nothing is filtered. */
  function FilterByIsolation(toolkits: seq<Toolkit>, levels: Option<seq<Isolation>>): (r: seq<Toolkit>)
    ensures levels.None? ==> r == toolkits
    ensures |r| <= |toolkits|
  {
    if levels.None? || toolkits == [] then toolkits
    else (if Admitted(toolkits[0], levels) then [toolkits[0]] else []) + FilterByIsolation(toolkits[1..], levels)
  }

  /** A toolkit is kept iff it is admitted. */
  lemma {:induction false} FilterByIsolationMembers(toolkits: seq<Toolkit>, levels: Option<seq<Isolation>>)
    ensures forall t :: t in FilterByIsolation(toolkits, levels) <==> t in toolkits && Admitted(t, levels)
  {
    if levels.Some? && toolkits != [] {
      FilterByIsolationMembers(toolkits[1..], levels);
      assert toolkits == [toolkits[0]] + toolkits[1..];
    }
  }

  predicate Admitted(t: Toolkit, levels: Option<seq<Isolation>>) {
    levels.None? || !t.IsScriptable() || t.scripting.value.isolation in levels.value
  }

  /** The filter keeps the relative order of the toolkits it admits. */
  lemma FilterByIsolationKeepsOrder(toolkits: seq<Toolkit>, levels: Option<seq<Isolation>>, i: nat, j: nat)
    requires i < j < |toolkits| && Admitted(toolkits[i], levels) && Admitted(toolkits[j], levels)
    ensures exists p, q :: 0 <= p < q < |FilterByIsolation(toolkits, levels)|
              && FilterByIsolation(toolkits, levels)[p] == toolkits[i]
              && FilterByIsolation(toolkits, levels)[q] == toolkits[j]
  {
    var p, q := FilteredPositions(toolkits, levels, i, j);
  }

  /** Where two admitted toolkits end up in the filtered sequence. */
  lemma {:induction false} FilteredPositions(toolkits: seq<Toolkit>, levels: Option<seq<Isolation>>, i: nat, j: nat)
    returns (p: nat, q: nat)
    requires i < j < |toolkits| && Admitted(toolkits[i], levels) && Admitted(toolkits[j], levels)
    ensures p < q < |FilterByIsolation(toolkits, levels)|
    ensures FilterByIsolation(toolkits, levels)[p] == toolkits[i]
    ensures FilterByIsolation(toolkits, levels)[q] == toolkits[j]
    decreases i
  {
    if levels.None? {
      p, q := i, j;
    } else {
      var tail := toolkits[1..];
      assert tail[j - 1] == toolkits[j];
      if i == 0 {
        var q' := FilteredPosition(tail, levels, j - 1);
        FilterAdmittedHead(toolkits, levels);
        p, q := 0, 1 + q';
        ghost var rest := FilterByIsolation(tail, levels);
        assert FilterByIsolation(toolkits, levels)[q] == rest[q'];
      } else {
        assert tail[i - 1] == toolkits[i];
        var p', q' := FilteredPositions(tail, levels, i - 1, j - 1);
        if Admitted(toolkits[0], levels) {
          FilterAdmittedHead(toolkits, levels);
          p, q := 1 + p', 1 + q';
          ghost var rest := FilterByIsolation(tail, levels);
          assert FilterByIsolation(toolkits, levels)[p] == rest[p'];
          assert FilterByIsolation(toolkits, levels)[q] == rest[q'];
        } else {
          FilterRejectedHead(toolkits, levels);
          p, q := p', q';
        }
      }
    }
  }

  /** An admitted first toolkit stays first, before the filtered rest. */
  lemma FilterAdmittedHead(toolkits: seq<Toolkit>, levels: Option<seq<Isolation>>)
    requires levels.Some? && toolkits != [] && Admitted(toolkits[0], levels)
    ensures FilterByIsolation(toolkits, levels) == [toolkits[0]] + FilterByIsolation(toolkits[1..], levels)
  {
  }

  /** A rejected first toolkit leaves the filtered rest. */
  lemma FilterRejectedHead(toolkits: seq<Toolkit>, levels: Option<seq<Isolation>>)
    requires levels.Some? && toolkits != [] && !Admitted(toolkits[0], levels)
    ensures FilterByIsolation(toolkits, levels) == FilterByIsolation(toolkits[1..], levels)
  {
  }

  /** Where one admitted toolkit ends up in the filtered sequence. */
  lemma {:induction false} FilteredPosition(toolkits: seq<Toolkit>, levels: Option<seq<Isolation>>, j: nat)
    returns (q: nat)
    requires j < |toolkits| && Admitted(toolkits[j], levels)
    ensures q < |FilterByIsolation(toolkits, levels)| && FilterByIsolation(toolkits, levels)[q] == toolkits[j]
    decreases j
  {
    if levels.None? {
      q := j;
    } else if j == 0 {
      FilterAdmittedHead(toolkits, levels);
      q := 0;
    } else {
      var tail := toolkits[1..];
      assert tail[j - 1] == toolkits[j];
      var q' := FilteredPosition(tail, levels, j - 1);
      if Admitted(toolkits[0], levels) {
        FilterAdmittedHead(toolkits, levels);
        q := 1 + q';
        assert FilterByIsolation(toolkits, levels)[q] == FilterByIsolation(tail, levels)[q'];
      } else {
        FilterRejectedHead(toolkits, levels);
        q := q';
      }
    }
  }

  /** The toolkits the engine may use: those of the (possibly filtered)
      families, then the isolation filter. */
  function AvailableToolkits(
    cfg: Config, os: OS, s: Settings,
    inDirectory: (Family, string) -> seq<Toolkit>, installed: Family -> seq<Toolkit>): seq<Toolkit>
  {
    var families := Families(ToolkitServices.SupportedFamilies(os), s.strict);
    FilterByIsolation(ToolkitServices.EnumerateToolkits(cfg, families, s.toolkitPaths, inDirectory, installed), s.isolationLevels)
  }

  /** The toolkits at the given positions of the pool. */
  function Pick(pool: seq<Toolkit>, indices: seq<nat>): (r: seq<Toolkit>)
    requires forall k :: 0 <= k < |indices| ==> indices[k] < |pool|
    ensures |r| == |indices| && forall k :: 0 <= k < |indices| ==> r[k] == pool[indices[k]]
  {
    if indices == [] then [] else [pool[indices[0]]] + Pick(pool, indices[1..])
  }

  /** `TryGetToolkit`: select by name, then choose the backend. */
  function TryGetToolkit(pool: seq<Toolkit>, names: Option<seq<string>>): Option<ToolkitServices.Choice> {
    var selected := ToolkitServices.Selected(pool, names);
    SelectedInPool(pool, names);
    ToolkitServices.Choose(Pick(pool, selected))
  }

  /** Selection only ever names toolkits of the pool. */
  lemma SelectedInPool(pool: seq<Toolkit>, names: Option<seq<string>>)
    ensures var selected := ToolkitServices.Selected(pool, names);
            forall k :: 0 <= k < |selected| ==> selected[k] < |pool|
  {
    var r := ToolkitServices.Selected(pool, names);
    if names.Some? {
      var ns := names.value;
      var auto := ToolkitServices.AutoAt(ns);
      if auto.Some? {
        var selected := ToolkitServices.ResolveAll(pool, ns[..auto.value]);
        if selected != [] {
          var all := selected + ToolkitServices.Indices(|pool|);
          DistinctExceptSubset(all, ToolkitServices.Identity, {});
          forall k | 0 <= k < |r|
            ensures r[k] < |pool|
          {
            assert r[k] in all;
          }
        }
      } else {
        forall k | 0 <= k < |r|
          ensures r[k] < |pool|
        {
          assert r[k] in r;
        }
      }
    }
  }

  /** `GetToolkit`: a failure when no toolkit fits. */
  function GetToolkit(pool: seq<Toolkit>, names: Option<seq<string>>): (r: Result<ToolkitServices.Choice, Error>)
    ensures r.Failure? <==> TryGetToolkit(pool, names).None?
    ensures r.Failure? ==> r.error == ToolkitNotFound
  {
    var choice := TryGetToolkit(pool, names);
    if choice.None? then Failure(ToolkitNotFound) else Success(choice.value)
  }

  /** With no names the first scriptable toolkit of the pool runs, by itself,
      when it comes first. */
  lemma AutomaticChoice(pool: seq<Toolkit>)
    requires |pool| > 0 && pool[0].IsScriptable()
    ensures GetToolkit(pool, None) == Success(ToolkitServices.Choice(pool[0], []))
  {
    var selected := ToolkitServices.Selected(pool, None);
    assert Pick(pool, selected) == pool;
    ToolkitServices.ChooseFirstScriptable(pool);
  }

  /** What the engine reads of the toolkit it runs: its family traits and how
      it translates paths. A composite reports the composed traits and
      translates as its backend does. */
  datatype Target = Target(traits: FamilyTraits, translation: PathTranslation)

  function TargetOf(choice: ToolkitServices.Choice): Target
    requires choice.backend.IsScriptable()
  {
    if choice.contributors == [] then Target(choice.backend.family.traits, choice.backend.scripting.value.translation)
    else Target(Meta.ComposedTraits(choice.backend, choice.contributors), choice.backend.scripting.value.translation)
  }

  // ---------------------------------------------------------------------------
  // Path translation
  // ---------------------------------------------------------------------------

  /** `IsTranslatableFilePath`: on Windows only, a value starting with an
      ASCII letter and a colon. */
  predicate IsTranslatableFilePath(os: OS, path: string) {
    os == Windows && |path| >= 2 && path[1] == ':' && IsAsciiLetter(path[0])
  }

  /** The paths the engine hands to a toolkit are exactly the drive paths the
      drive rewrite acts on, and only on Windows. */
  lemma TranslatableIsDrivePath(os: OS, path: string)
    ensures IsTranslatableFilePath(os, path) <==> os == Windows && CygwinFileSystem.IsDrivePath(path)
  {
  }

  /** The toolkit's `TranslateFilePath`. */
  function ToolkitTranslate(host: Host, translation: PathTranslation, path: string): Result<string, Error> {
    match translation
    case Verbatim => Success(path)
    case DriveRewrite(prefix) => Success(CygwinFileSystem.Translated(path, prefix))
    case SlashSeparators => Success(BusyBoxToolkit.TranslateFilePath(host, path))
    case WslHelper(wslPath) =>
      if path == "" then Success(path)
      else if wslPath !in host.files then Failure(ModuleNotFound(WslToolkit.WslFileName))
      else Success(WslToolkit.TranslatedPath(host, path))
  }

  /** `TranslateFilePath(toolkit, value)`: only translatable values reach the
      toolkit. */
  function TranslateValue(host: Host, translation: PathTranslation, value: string): (r: Result<string, Error>)
    ensures !IsTranslatableFilePath(host.os, value) ==> r == Success(value)
  {
    if IsTranslatableFilePath(host.os, value) then ToolkitTranslate(host, translation, value) else Success(value)
  }

  /** Every value translated, or the first failure. */
  function TranslateAll(host: Host, translation: PathTranslation, values: seq<string>): (r: Result<seq<string>, Error>)
    ensures r.Success? ==> |r.value| == |values|
    ensures r.Success? ==> forall i :: 0 <= i < |values| ==> TranslateValue(host, translation, values[i]) == Success(r.value[i])
    ensures r.Failure? ==> exists i :: 0 <= i < |values| && TranslateValue(host, translation, values[i]).Failure?
  {
    if values == [] then Success([])
    else
      var first := TranslateValue(host, translation, values[0]);
      if first.Failure? then Failure(first.error)
      else
        var rest := TranslateAll(host, translation, values[1..]);
        if rest.Failure? then Failure(rest.error)
        else Success([first.value] + rest.value)
  }

  /** `PrepareCommandArguments`: translated only for a family with
      `FilePathTranslation`. */
  function PrepareCommandArguments(host: Host, target: Target, arguments: seq<string>): Result<seq<string>, Error> {
    if HasFlag(target.traits, FilePathTranslation) then TranslateAll(host, target.translation, arguments)
    else Success(arguments)
  }

  /** The arguments keep their number and order; each is translated iff the
      family asks for it and the value is a drive path on Windows; off Windows
      they are passed through as they are. */
  lemma PrepareCommandArgumentsShape(host: Host, target: Target, arguments: seq<string>)
    ensures var r := PrepareCommandArguments(host, target, arguments);
            && (!HasFlag(target.traits, FilePathTranslation) ==> r == Success(arguments))
            && (r.Success? ==> |r.value| == |arguments|)
            && (r.Success? ==> forall i :: 0 <= i < |arguments| && !IsTranslatableFilePath(host.os, arguments[i]) ==>
                  r.value[i] == arguments[i])
            && (host.os != Windows ==> r == Success(arguments))
  {
    if host.os != Windows && HasFlag(target.traits, FilePathTranslation) {
      TranslateAllVerbatim(host, target.translation, arguments);
    }
  }

  /** Values that are not translatable come back as they are. */
  lemma {:induction false} TranslateAllVerbatim(host: Host, translation: PathTranslation, values: seq<string>)
    requires forall v :: v in values ==> !IsTranslatableFilePath(host.os, v)
    ensures TranslateAll(host, translation, values) == Success(values)
  {
    if values != [] {
      assert values[0] in values;
      TranslateAllVerbatim(host, translation, values[1..]);
      assert [values[0]] + values[1..] == values;
    }
  }

  /** The drive rewrite always changes a drive path, when the prefix is absent
      or starts with a slash, because the result starts with a slash. */
  lemma DriveRewriteChanges(path: string, prefix: Option<string>)
    requires CygwinFileSystem.IsDrivePath(path)
    requires prefix.Some? ==> |prefix.value| > 0 && prefix.value[0] == '/'
    ensures CygwinFileSystem.Translated(path, prefix) != path
  {
    var r := CygwinFileSystem.Translated(path, prefix);
    assert r[0] == '/';
    assert path[0] != '/';
  }

  /** The command `ExecuteCommandLine` runs. `split` and `build` stand for the
      host's command-line splitting and quoting: the line is kept verbatim
      unless the family translates paths and some part changed. */
  function CommandLineToRun(
    host: Host, target: Target, commandLine: string,
    split: string -> seq<string>, build: seq<string> -> string): Result<string, Error>
  {
    if !HasFlag(target.traits, FilePathTranslation) then Success(commandLine)
    else
      var parts := split(commandLine);
      match TranslateAll(host, target.translation, parts)
      case Failure(e) => Failure(e)
      case Success(newParts) => Success(if newParts == parts then commandLine else build(newParts))
  }

  /** The original line is passed on untouched off Windows, and whenever none
      of its parts is a drive path; with the drive rewrite it is rebuilt iff
      some part is one. */
  lemma CommandLineReuse(
    host: Host, target: Target, commandLine: string,
    split: string -> seq<string>, build: seq<string> -> string)
    ensures var parts := split(commandLine);
            (forall p :: p in parts ==> !IsTranslatableFilePath(host.os, p)) ==>
              CommandLineToRun(host, target, commandLine, split, build) == Success(commandLine)
    ensures host.os != Windows ==> CommandLineToRun(host, target, commandLine, split, build) == Success(commandLine)
    ensures var parts := split(commandLine);
            HasFlag(target.traits, FilePathTranslation) && target.translation.DriveRewrite? &&
            (target.translation.prefix.Some? ==> |target.translation.prefix.value| > 0 && target.translation.prefix.value[0] == '/') &&
            (exists p :: p in parts && IsTranslatableFilePath(host.os, p)) ==>
              CommandLineToRun(host, target, commandLine, split, build) ==
                Success(build(TranslateAll(host, target.translation, parts).value))
  {
    var parts := split(commandLine);
    if forall p :: p in parts ==> !IsTranslatableFilePath(host.os, p) {
      TranslateAllVerbatim(host, target.translation, parts);
    }
    if HasFlag(target.traits, FilePathTranslation) && target.translation.DriveRewrite? &&
       (target.translation.prefix.Some? ==> |target.translation.prefix.value| > 0 && target.translation.prefix.value[0] == '/') &&
       (exists p :: p in parts && IsTranslatableFilePath(host.os, p))
    {
      var p :| p in parts && IsTranslatableFilePath(host.os, p);
      var i :| 0 <= i < |parts| && parts[i] == p;
      var r := TranslateAll(host, target.translation, parts);
      assert r.Success?;
      DriveRewriteChanges(p, target.translation.prefix);
      assert r.value[i] != parts[i];
    }
  }

  /** `ExecuteFile`'s path: `-` stands for the standard input. */
  function FilePath(path: string): (r: string)
    ensures path == "-" ==> r == "/dev/stdin"
    ensures path != "-" ==> r == path
  {
    if path == "-" then "/dev/stdin" else path
  }

  // ---------------------------------------------------------------------------
  // Execution environment and options
  // ---------------------------------------------------------------------------

  /** The product version as digits: major with four, minor and build with
      two. */
  function VersionString(version: Version): string {
    FormatD(version.major, 4) + FormatD(version.minor, 2) + FormatD(version.build, 2)
  }

  /** A version whose parts fit their widths is eight digits that read back as
      its parts. */
  lemma VersionStringDigits(version: Version)
    requires 0 <= version.major < 10000 && 0 <= version.minor < 100 && 0 <= version.build < 100
    ensures var s := VersionString(version);
            && |s| == 8
            && (forall i :: 0 <= i < 8 ==> IsDigit(s[i]))
            && DecimalValue(s[..4]) == version.major
            && DecimalValue(s[4..6]) == version.minor
            && DecimalValue(s[6..]) == version.build
  {
    assert Pow10(2) == 100 by {
      assert Pow10(1) == 10;
    }
    assert Pow10(4) == 10000 by {
      assert Pow10(3) == 1000;
    }
    FormatDExact(version.major, 4);
    FormatDExact(version.minor, 2);
    FormatDExact(version.build, 2);
    var s := VersionString(version);
    assert s[..4] == FormatD(version.major, 4);
    assert s[4..6] == FormatD(version.minor, 2);
    assert s[6..] == FormatD(version.build, 2);
  }

  /** The dictionary with `name` set to `value` when `on` holds. */
  function SetIf(cfg: Config, env: Env, on: bool, name: string, value: Option<string>): (r: Env)
    ensures TryGetValue(cfg, r, name) == if on then Some(value) else TryGetValue(cfg, env, name)
    ensures r.Keys == env.Keys + (if on then {NameKey(cfg, name)} else {})
    ensures forall other :: NameKey(cfg, other) != NameKey(cfg, name) ==>
              TryGetValue(cfg, r, other) == TryGetValue(cfg, env, other)
  {
    if on then SetValue(cfg, env, name, value) else env
  }

  /** The variables every request carries. */
  function ExecutionEnvironment(cfg: Config, s: Settings, version: Version): Env {
    var e1 := SetIf(cfg, map[], s.posix, PosixlyCorrect, Some(""));
    var e2 := SetIf(cfg, e1, s.toolkitNames.Some?, GnuTkToolkitVariable,
                    if s.toolkitNames.Some? then Some(Join(s.toolkitNames.value, ',')) else None);
    var e3 := SetIf(cfg, e2, s.strict, GnuTkStrictVariable, Some(""));
    SetValue(cfg, e3, GnuTkVersionVariable, Some(VersionString(version)))
  }

  /** `GetToolkitExecutionEnvironment`. */
  method GetToolkitExecutionEnvironment(cfg: Config, s: Settings, version: Version) returns (r: Env)
    ensures r == ExecutionEnvironment(cfg, s, version)
  {
    var environment := new EnvironmentDictionary(cfg);
    if s.posix {
      environment.Set(PosixlyCorrect, Some(""));
    }
    if s.toolkitNames.Some? {
      environment.Set(GnuTkToolkitVariable, Some(Join(s.toolkitNames.value, ',')));
    }
    if s.strict {
      environment.Set(GnuTkStrictVariable, Some(""));
    }
    environment.Set(GnuTkVersionVariable, Some(FormatD(version.major, 4) + FormatD(version.minor, 2) + FormatD(version.build, 2)));
    r := environment.entries;
  }

  /** The four variables are different variables under either comparer. */
  lemma VariablesDistinct(cfg: Config)
    ensures NameKey(cfg, PosixlyCorrect) != NameKey(cfg, GnuTkToolkitVariable)
    ensures NameKey(cfg, PosixlyCorrect) != NameKey(cfg, GnuTkStrictVariable)
    ensures NameKey(cfg, PosixlyCorrect) != NameKey(cfg, GnuTkVersionVariable)
    ensures NameKey(cfg, GnuTkToolkitVariable) != NameKey(cfg, GnuTkStrictVariable)
    ensures NameKey(cfg, GnuTkToolkitVariable) != NameKey(cfg, GnuTkVersionVariable)
    ensures NameKey(cfg, GnuTkStrictVariable) != NameKey(cfg, GnuTkVersionVariable)
  {
    PosixlyCorrectDistinct(cfg);
    ToolkitVariableDistinct(cfg);
    StrictVariableDistinct(cfg);
  }

  lemma PosixlyCorrectDistinct(cfg: Config)
    ensures NameKey(cfg, PosixlyCorrect) != NameKey(cfg, GnuTkToolkitVariable)
    ensures NameKey(cfg, PosixlyCorrect) != NameKey(cfg, GnuTkStrictVariable)
    ensures NameKey(cfg, PosixlyCorrect) != NameKey(cfg, GnuTkVersionVariable)
  {
    DistinctNameLengths(cfg, PosixlyCorrect, GnuTkToolkitVariable);
    DistinctNameLengths(cfg, PosixlyCorrect, GnuTkStrictVariable);
    DistinctNameLengths(cfg, PosixlyCorrect, GnuTkVersionVariable);
  }

  lemma ToolkitVariableDistinct(cfg: Config)
    ensures NameKey(cfg, GnuTkToolkitVariable) != NameKey(cfg, GnuTkStrictVariable)
    ensures NameKey(cfg, GnuTkToolkitVariable) != NameKey(cfg, GnuTkVersionVariable)
  {
    DistinctNameLengths(cfg, GnuTkToolkitVariable, GnuTkStrictVariable);
    DistinctNamesAt(cfg, GnuTkToolkitVariable, GnuTkVersionVariable, 7);
  }

  lemma StrictVariableDistinct(cfg: Config)
    ensures NameKey(cfg, GnuTkStrictVariable) != NameKey(cfg, GnuTkVersionVariable)
  {
    DistinctNameLengths(cfg, GnuTkStrictVariable, GnuTkVersionVariable);
  }

  /** `POSIXLY_CORRECT` is empty iff POSIX mode is on and absent otherwise;
      `GNU_TK_TOOLKIT` holds the names joined by commas iff names were given;
      `GNU_TK_STRICT` is empty iff strict mode is on; `GNU_TK_VERSION` is
      always set. */
  lemma ExecutionEnvironmentValues(cfg: Config, s: Settings, version: Version)
    ensures var e := ExecutionEnvironment(cfg, s, version);
            && TryGetValue(cfg, e, PosixlyCorrect) == (if s.posix then Some(Some("")) else None)
            && TryGetValue(cfg, e, GnuTkToolkitVariable) ==
                 (if s.toolkitNames.Some? then Some(Some(Join(s.toolkitNames.value, ','))) else None)
            && TryGetValue(cfg, e, GnuTkStrictVariable) == (if s.strict then Some(Some("")) else None)
            && TryGetValue(cfg, e, GnuTkVersionVariable) == Some(Some(VersionString(version)))
  {
    VariablesDistinct(cfg);
    var e1 := SetIf(cfg, map[], s.posix, PosixlyCorrect, Some(""));
    var e2 := SetIf(cfg, e1, s.toolkitNames.Some?, GnuTkToolkitVariable,
                    if s.toolkitNames.Some? then Some(Join(s.toolkitNames.value, ',')) else None);
    var e3 := SetIf(cfg, e2, s.strict, GnuTkStrictVariable, Some(""));
    SetValueOther(cfg, e3, GnuTkVersionVariable, Some(VersionString(version)), PosixlyCorrect);
    SetValueOther(cfg, e3, GnuTkVersionVariable, Some(VersionString(version)), GnuTkToolkitVariable);
    SetValueOther(cfg, e3, GnuTkVersionVariable, Some(VersionString(version)), GnuTkStrictVariable);
  }

  /** Nothing but those four variables is defined. */
  lemma ExecutionEnvironmentKeys(cfg: Config, s: Settings, version: Version)
    ensures ExecutionEnvironment(cfg, s, version).Keys <=
              {NameKey(cfg, PosixlyCorrect), NameKey(cfg, GnuTkToolkitVariable),
               NameKey(cfg, GnuTkStrictVariable), NameKey(cfg, GnuTkVersionVariable)}
    ensures NameKey(cfg, GnuTkVersionVariable) in ExecutionEnvironment(cfg, s, version)
  {
  }

  /** `GetToolkitExecutionOptions`: strict iff strict mode is on. */
  function ExecutionOptions(s: Settings): (r: Toolkits.ExecutionOptions)
    ensures r.strict <==> s.strict
  {
    Toolkits.ExecutionOptions(s.strict)
  }

  /** The request `ExecuteCommand(command, arguments)` makes of the chosen
      toolkit. */
  function CommandRequest(
    host: Host, target: Target, s: Settings, version: Version, command: string, arguments: seq<string>)
    : Result<Request, Error>
  {
    match PrepareCommandArguments(host, target, arguments)
    case Failure(e) => Failure(e)
    case Success(prepared) =>
      Success(Request(RunCommand, command, prepared, Some(ExecutionEnvironment(host.cfg, s, version)), ExecutionOptions(s)))
  }

  /** The request `ExecuteCommandLine(commandLine)` makes: the (possibly
      rebuilt) line as the command, with no arguments. */
  function CommandLineRequest(
    host: Host, target: Target, s: Settings, version: Version, commandLine: string,
    split: string -> seq<string>, build: seq<string> -> string): Result<Request, Error>
  {
    match CommandLineToRun(host, target, commandLine, split, build)
    case Failure(e) => Failure(e)
    case Success(command) =>
      Success(Request(RunCommand, command, [], Some(ExecutionEnvironment(host.cfg, s, version)), ExecutionOptions(s)))
  }

  /** The request `ExecuteFile(path, arguments)` makes. */
  function FileRequest(
    host: Host, target: Target, s: Settings, version: Version, path: string, arguments: seq<string>)
    : Result<Request, Error>
  {
    match PrepareCommandArguments(host, target, arguments)
    case Failure(e) => Failure(e)
    case Success(prepared) =>
      Success(Request(RunFile, FilePath(path), prepared, Some(ExecutionEnvironment(host.cfg, s, version)), ExecutionOptions(s)))
  }

  /** Every request carries the same environment and options; only the
      arguments are translated, never the command or the file path. */
  lemma RequestsShareSettings(
    host: Host, target: Target, s: Settings, version: Version, text: string, arguments: seq<string>)
    ensures var c := CommandRequest(host, target, s, version, text, arguments);
            var f := FileRequest(host, target, s, version, text, arguments);
            && (c.Success? <==> f.Success?)
            && (c.Success? ==>
                  && c.value.text == text && f.value.text == FilePath(text)
                  && c.value.arguments == f.value.arguments
                  && |c.value.arguments| == |arguments|
                  && c.value.environment == f.value.environment == Some(ExecutionEnvironment(host.cfg, s, version))
                  && c.value.options.strict == f.value.options.strict == s.strict)
  {
    PrepareCommandArgumentsShape(host, target, arguments);
  }

  // ---------------------------------------------------------------------------
  // Listing
  // ---------------------------------------------------------------------------

  /** `GetToolkitLocation`: built-in toolkits have no location of their own. */
  function GetToolkitLocation(t: Toolkit): (r: Option<string>)
    ensures t.builtIn ==> r == Some("(built-in)")
    ensures !t.builtIn ==> r == t.installationPath
  {
    if t.builtIn then Some("(built-in)") else t.installationPath
  }
}
