/** Command-line canonicalisation done before formal option parsing, and the
    displayed program version. */
module Program {
  import opened Text

  const Help: string := "--help"
  const ExecuteCommand: string := "--command"
  const ExecuteCommandLine: string := "--command-line"
  const ExecuteFile: string := "--file"

  datatype ArgsState = Begin | StartPositional | End

  /** `-?`, and `/?` on Windows, ask for help. */
  predicate IsHelpRequest(arg: string, windows: bool) {
    arg == "-?" || (windows && arg == "/?")
  }

  /** `--command-line` or `-l`: the following arguments are positional. */
  predicate IsCommandLineOption(arg: string) {
    arg == ExecuteCommandLine || arg == "-l"
  }

  /** `--command`, `-c`, `--file`, `-f`: rewriting stops here. */
  predicate IsFinalOption(arg: string) {
    arg == ExecuteCommand || arg == "-c" || arg == ExecuteFile || arg == "-f"
  }

  /** An argument that ends the Begin state. */
  predicate IsTurningPoint(arg: string, windows: bool) {
    IsHelpRequest(arg, windows) || IsCommandLineOption(arg) || IsFinalOption(arg)
  }

  /** The index of the first argument that ends the Begin state (|args| if none). */
  function FirstTurningPoint(args: seq<string>, windows: bool): (j: nat)
    ensures j <= |args|
    ensures forall i :: 0 <= i < j ==> !IsTurningPoint(args[i], windows)
    ensures j < |args| ==> IsTurningPoint(args[j], windows)
  {
    if args == [] then 0
    else if IsTurningPoint(args[0], windows) then 0
    else 1 + FirstTurningPoint(args[1..], windows)
  }

  /** The canonical arguments, stated on the first turning point: a help
      request there is replaced by `--help`; after a command-line option a `--`
      is inserted unless the next argument already is one; everything else is
      copied. No arguments at all mean `--help`. */
  function CanonicalArgs(args: seq<string>, windows: bool): seq<string> {
    if |args| == 0 then [Help]
    else
      var j := FirstTurningPoint(args, windows);
      if j == |args| then args
      else if IsHelpRequest(args[j], windows) then args[..j] + [Help] + args[j + 1..]
      else if IsCommandLineOption(args[j]) && j + 1 < |args| && args[j + 1] != "--" then
        args[..j + 1] + ["--"] + args[j + 1..]
      else args
  }

  /** `CanonicalizeArgs`: a state machine over the arguments. */
  method CanonicalizeArgs(args: seq<string>, windows: bool) returns (r: seq<string>)
    ensures r == CanonicalArgs(args, windows)
  {
    var n := |args|;
    if n == 0 {
      return [Help];
    }
    var newArgs: seq<string> := [];
    var state := Begin;
    var i := 0;
    while i < n
      invariant 0 <= i <= n
      invariant state == StateAt(args, windows, i)
      invariant Written(args, windows, i) <= |CanonicalArgs(args, windows)|
      invariant newArgs == CanonicalArgs(args, windows)[..Written(args, windows, i)]
    {
      var arg := args[i];
      ghost var before := newArgs;
      ghost var step := Transition(arg, state, windows);
      match state {
        case Begin =>
          if IsHelpRequest(arg, windows) {
            arg := Help;
            state := End;
          } else if IsCommandLineOption(arg) {
            state := StartPositional;
          } else if IsFinalOption(arg) {
            state := End;
          }
        case StartPositional =>
          if arg != "--" {
            newArgs := newArgs + ["--"];
          }
          state := End;
        case End =>
      }
      newArgs := newArgs + [arg];
      assert newArgs == before + step.0 && state == step.1;
      MachineStep(args, windows, i);
      i := i + 1;
    }
    CanonicalArgsWritten(args, windows);
    return newArgs;
  }

  /** One transition of the state machine: what an argument read in a state
      contributes to the output, and the next state. */
  function Transition(arg: string, state: ArgsState, windows: bool): (seq<string>, ArgsState) {
    match state
    case Begin =>
      if IsHelpRequest(arg, windows) then ([Help], End)
      else if IsCommandLineOption(arg) then ([arg], StartPositional)
      else if IsFinalOption(arg) then ([arg], End)
      else ([arg], Begin)
    case StartPositional => (if arg != "--" then ["--", arg] else [arg], End)
    case End => ([arg], End)
  }

  /** The state the machine is in before argument `i`. */
  function StateAt(args: seq<string>, windows: bool, i: nat): ArgsState {
    var j := FirstTurningPoint(args, windows);
    if i <= j then Begin
    else if i == j + 1 && j < |args| && IsCommandLineOption(args[j]) then StartPositional
    else End
  }

  /** Reading argument `i` extends the written part of the canonical form by
      what the transition emits, and moves to the state for argument `i + 1`. */
  lemma MachineStep(args: seq<string>, windows: bool, i: nat)
    requires i < |args|
    ensures var step := Transition(args[i], StateAt(args, windows, i), windows);
            && step.1 == StateAt(args, windows, i + 1)
            && Written(args, windows, i + 1) <= |CanonicalArgs(args, windows)|
            && CanonicalArgs(args, windows)[..Written(args, windows, i + 1)] ==
               CanonicalArgs(args, windows)[..Written(args, windows, i)] + step.0
  {
    TransitionAgrees(args, windows, i);
    CanonicalArgsStep(args, windows, i);
  }

  /** The machine's transition on argument `i` emits that argument's part of
      the canonical form and moves to the next state. */
  lemma TransitionAgrees(args: seq<string>, windows: bool, i: nat)
    requires i < |args|
    ensures Transition(args[i], StateAt(args, windows, i), windows) ==
            (Emitted(args, windows, i), StateAt(args, windows, i + 1))
  {
    var j := FirstTurningPoint(args, windows);
    if i < j {
      assert !IsTurningPoint(args[i], windows);
    } else if i == j {
      assert IsTurningPoint(args[i], windows);
    }
  }

  /** The canonical form inserts a `--` after the first turning point. */
  predicate Inserts(args: seq<string>, windows: bool) {
    var j := FirstTurningPoint(args, windows);
    j + 1 < |args| && IsCommandLineOption(args[j]) && args[j + 1] != "--"
  }

  /** How much of the canonical form the first `i` arguments produce. */
  function Written(args: seq<string>, windows: bool, i: nat): nat {
    i + (if Inserts(args, windows) && i >= FirstTurningPoint(args, windows) + 2 then 1 else 0)
  }

  /** What argument `i` contributes to the canonical form. */
  function Emitted(args: seq<string>, windows: bool, i: nat): seq<string>
    requires i < |args|
  {
    var j := FirstTurningPoint(args, windows);
    if i == j && IsHelpRequest(args[j], windows) then [Help]
    else if i == j + 1 && Inserts(args, windows) then ["--", args[i]]
    else [args[i]]
  }

  /** The canonical form is produced argument by argument. */
  lemma CanonicalArgsStep(args: seq<string>, windows: bool, i: nat)
    requires i < |args|
    ensures Written(args, windows, i + 1) <= |CanonicalArgs(args, windows)|
    ensures CanonicalArgs(args, windows)[..Written(args, windows, i + 1)] ==
            CanonicalArgs(args, windows)[..Written(args, windows, i)] + Emitted(args, windows, i)
  {
    var j := FirstTurningPoint(args, windows);
    if j < |args| && IsHelpRequest(args[j], windows) {
      HelpStep(args, windows, i);
    } else if Inserts(args, windows) {
      InsertStep(args, windows, i);
    } else {
      var out := CanonicalArgs(args, windows);
      assert out == args;
      PrefixStep(out, i);
    }
  }

  lemma HelpStep(args: seq<string>, windows: bool, i: nat)
    requires i < |args|
    requires var j := FirstTurningPoint(args, windows); j < |args| && IsHelpRequest(args[j], windows)
    ensures Written(args, windows, i + 1) <= |CanonicalArgs(args, windows)|
    ensures CanonicalArgs(args, windows)[..Written(args, windows, i + 1)] ==
            CanonicalArgs(args, windows)[..Written(args, windows, i)] + Emitted(args, windows, i)
  {
    var out := CanonicalArgs(args, windows);
    var j := FirstTurningPoint(args, windows);
    assert !Inserts(args, windows);
    assert out == args[..j] + [Help] + args[j + 1..];
    assert Written(args, windows, i) == i && Written(args, windows, i + 1) == i + 1;
    if i == j {
      assert Emitted(args, windows, i) == [Help];
      assert out[i] == Help;
    } else {
      assert Emitted(args, windows, i) == [args[i]];
      assert out[i] == args[i];
    }
    PrefixStep(out, i);
  }

  lemma InsertStep(args: seq<string>, windows: bool, i: nat)
    requires i < |args| && Inserts(args, windows)
    ensures Written(args, windows, i + 1) <= |CanonicalArgs(args, windows)|
    ensures CanonicalArgs(args, windows)[..Written(args, windows, i + 1)] ==
            CanonicalArgs(args, windows)[..Written(args, windows, i)] + Emitted(args, windows, i)
  {
    var out := CanonicalArgs(args, windows);
    var j := FirstTurningPoint(args, windows);
    var k := Written(args, windows, i);
    assert !IsHelpRequest(args[j], windows);
    assert out == args[..j + 1] + ["--"] + args[j + 1..];
    if i == j + 1 {
      assert k == i;
      assert out[k] == "--" && out[k + 1] == args[i];
      PrefixStep(out, k);
      PrefixStep(out, k + 1);
    } else {
      assert out[k] == args[i];
      PrefixStep(out, k);
    }
  }

  /** After all arguments the whole canonical form is written. */
  lemma CanonicalArgsWritten(args: seq<string>, windows: bool)
    requires |args| > 0
    ensures Written(args, windows, |args|) == |CanonicalArgs(args, windows)|
  {
    var j := FirstTurningPoint(args, windows);
    if j < |args| && IsHelpRequest(args[j], windows) {
      assert |args[..j] + [Help] + args[j + 1..]| == |args|;
    }
  }

  lemma PrefixStep<T>(s: seq<T>, k: nat)
    requires k < |s|
    ensures s[..k + 1] == s[..k] + [s[k]]
  {
  }

  /** The output is the input except for one help substitution or one
      inserted `--`; so it has n or n + 1 elements. */
  lemma CanonicalArgsShape(args: seq<string>, windows: bool)
    requires |args| > 0
    ensures var r := CanonicalArgs(args, windows);
            || r == args
            || (exists k :: 0 <= k < |args| && IsHelpRequest(args[k], windows) && r == args[..k] + [Help] + args[k + 1..])
            || (exists k :: 0 < k < |args| && IsCommandLineOption(args[k - 1]) && args[k] != "--" && r == args[..k] + ["--"] + args[k..])
    ensures |CanonicalArgs(args, windows)| in {|args|, |args| + 1}
  {
    var r := CanonicalArgs(args, windows);
    var j := FirstTurningPoint(args, windows);
    if j == |args| {
      assert r == args;
    } else if IsHelpRequest(args[j], windows) {
      assert r == args[..j] + [Help] + args[j + 1..];
      assert |r| == |args|;
    } else if Inserts(args, windows) {
      var k := j + 1;
      assert r == args[..k] + ["--"] + args[k..];
      assert |r| == |args| + 1;
    } else {
      assert r == args;
    }
  }

  /** Options placed before `-l` are kept, and `--` separates the command. */
  lemma CanonicalArgsExample()
    ensures CanonicalArgs(["-t", "wsl", "-l", "ls"], false) == ["-t", "wsl", "-l", "--", "ls"]
    ensures CanonicalArgs(["-l", "--", "ls"], false) == ["-l", "--", "ls"]
    ensures CanonicalArgs(["/?"], true) == [Help]
    ensures CanonicalArgs(["/?"], false) == ["/?"]
    ensures CanonicalArgs(["-c", "-?"], false) == ["-c", "-?"]
  {
    SeparatorExample();
    UnchangedExamples();
    HelpExamples();
  }

  lemma UnchangedExamples()
    ensures CanonicalArgs(["-l", "--", "ls"], false) == ["-l", "--", "ls"]
    ensures CanonicalArgs(["-c", "-?"], false) == ["-c", "-?"]
  {
    assert FirstTurningPoint(["-l", "--", "ls"], false) == 0;
    assert FirstTurningPoint(["-c", "-?"], false) == 0;
  }

  lemma SeparatorExample()
    ensures CanonicalArgs(["-t", "wsl", "-l", "ls"], false) == ["-t", "wsl", "-l", "--", "ls"]
  {
    var a := ["-t", "wsl", "-l", "ls"];
    assert FirstTurningPoint(a[3..], false) == 1 + FirstTurningPoint(a[3..][1..], false);
    assert FirstTurningPoint(a, false) == 2;
    assert a[..3] + ["--"] + a[3..] == ["-t", "wsl", "-l", "--", "ls"];
  }

  lemma HelpExamples()
    ensures CanonicalArgs(["/?"], true) == [Help]
    ensures CanonicalArgs(["/?"], false) == ["/?"]
  {
    assert FirstTurningPoint(["/?"], true) == 0;
    assert FirstTurningPoint(["/?"][1..], false) == 0;
    assert FirstTurningPoint(["/?"], false) == 1;
  }

  /** `GetAppVersion`: the informational version without its metadata, that is,
      without everything from the last `+` on. */
  function GetAppVersion(version: string): (r: string)
    ensures '+' !in version ==> r == version
    ensures '+' in version ==> |r| < |version| && r == version[..|r|] && version[|r|] == '+' && '+' !in version[|r| + 1..]
  {
    var j := LastIndexOf(version, '+');
    if j != -1 then version[..j] else version
  }

  /** Version metadata appended after a `+` is removed again. */
  lemma GetAppVersionStripsMetadata(version: string, metadata: string)
    requires '+' !in metadata
    ensures GetAppVersion(version + "+" + metadata) == version
  {
    var s := version + "+" + metadata;
    var r := GetAppVersion(s);
    assert s[|version|] == '+';
    assert forall i :: |version| < i < |s| ==> s[i] == metadata[i - |version| - 1];
    assert r == s[..|r|];
    assert |r| == |version|;
    assert s[..|version|] == version;
  }
}
