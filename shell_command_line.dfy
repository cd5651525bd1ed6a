/** The argument vectors the toolkits hand to a POSIX shell, in the form
    `sh [options] -c command_string [command_name [argument...]]` of the `sh`
    utility (POSIX.1-2017, Shell and Utilities volume): the first operand after
    the command string becomes `$0`, the later ones `$1`, `$2`, and so on. */
module ShellCommandLine {
  import opened Wrappers

  /** The option that makes `sh` read its commands from the next argument. */
  const CommandStringOption: string := "-c"

  /** The options, `-c`, the command string, then the operands. */
  function Compose(options: seq<string>, commandString: string, operands: seq<string>): seq<string> {
    options + [CommandStringOption, commandString] + operands
  }

  /** What `sh -c` sees: its options, the command string, `$0` when given, and
      the positional parameters `$1…`. */
  datatype Invocation = Invocation(
    options: seq<string>,
    commandString: string,
    commandName: Option<string>,
    positional: seq<string>)

  /** How `sh` splits an argument vector: everything before the first `-c` is
      an option, the argument after it is the command string, the next one is
      `$0`, and the rest are the positional parameters. `None` when there is
      no `-c` followed by a command string. */
  function Parse(args: seq<string>): (r: Option<Invocation>)
    ensures r.Some? ==> |r.value.options| < |args| && args[|r.value.options|] == CommandStringOption
  {
    if args == [] then None
    else if args[0] == CommandStringOption then
      if |args| == 1 then None
      else if |args| == 2 then Some(Invocation([], args[1], None, []))
      else Some(Invocation([], args[1], Some(args[2]), args[3..]))
    else
      match Parse(args[1..])
      case None => None
      case Some(inv) => Some(inv.(options := [args[0]] + inv.options))
  }

  /** The invocation `Compose` builds. */
  function Expected(options: seq<string>, commandString: string, operands: seq<string>): Invocation {
    Invocation(
      options, commandString,
      if operands == [] then None else Some(operands[0]),
      if operands == [] then [] else operands[1..])
  }

  /** Reading back a composed vector recovers its parts, provided no option is
      itself `-c`: the first operand is `$0` and the others follow as `$1…`. */
  lemma {:induction false} ParseCompose(options: seq<string>, commandString: string, operands: seq<string>)
    requires CommandStringOption !in options
    ensures Parse(Compose(options, commandString, operands)) == Some(Expected(options, commandString, operands))
  {
    if options == [] {
      var args := Compose(options, commandString, operands);
      assert args == [CommandStringOption, commandString] + operands;
      assert args[1] == commandString;
      if operands != [] {
        assert args[2] == operands[0] && args[3..] == operands[1..];
      }
    } else {
      ParseCompose(options[1..], commandString, operands);
      assert Compose(options, commandString, operands)[1..] == Compose(options[1..], commandString, operands);
      assert [options[0]] + options[1..] == options;
    }
  }

  // ---------------------------------------------------------------------------
  // The login shells of MSYS2, Cygwin and Git for Windows
  // ---------------------------------------------------------------------------

  /** The prologue that undoes the `POSIXLY_CORRECT` their `sh.exe` forces. */
  const UnsetPosixlyCorrect: string := "unset POSIXLY_CORRECT;"

  /** `-posix` unless the environment defines `POSIXLY_CORRECT`, then `-l`,
      then the caller's extra options. */
  function LoginShellOptions(posixlyCorrect: bool, extras: seq<string>): seq<string> {
    (if posixlyCorrect then [] else ["-posix"]) + ["-l"] + extras
  }

  /** The command, behind the prologue unless `POSIXLY_CORRECT` is defined. */
  function LoginShellCommand(posixlyCorrect: bool, command: string): string {
    (if posixlyCorrect then "" else UnsetPosixlyCorrect) + command
  }

  /** The command's arguments, or the shell's own path as `$0` when there are
      none. */
  function LoginShellOperands(commandArguments: seq<string>, shellPath: string): seq<string> {
    if commandArguments == [] then [shellPath] else commandArguments
  }

  /** The argument vector handed to the login shell. */
  function LoginShellArguments(
    posixlyCorrect: bool, extras: seq<string>, command: string,
    commandArguments: seq<string>, shellPath: string): seq<string>
  {
    Compose(
      LoginShellOptions(posixlyCorrect, extras),
      LoginShellCommand(posixlyCorrect, command),
      LoginShellOperands(commandArguments, shellPath))
  }

  /** The argument list the MSYS2, Cygwin and Git toolkits fill in, entry by
      entry: `-posix` unless `POSIXLY_CORRECT` is defined, `-l`, the extras,
      `-c`, the command behind the prologue, then the command's arguments or
      the shell path. */
  method BuildLoginShellArguments(
    posixlyCorrect: bool, extras: seq<string>, command: string,
    commandArguments: seq<string>, shellPath: string) returns (shellArguments: seq<string>)
    ensures shellArguments == LoginShellArguments(posixlyCorrect, extras, command, commandArguments, shellPath)
  {
    shellArguments := [];
    if !posixlyCorrect {
      shellArguments := shellArguments + ["-posix"];
    }
    shellArguments := shellArguments + ["-l"];
    shellArguments := shellArguments + extras;
    assert shellArguments == LoginShellOptions(posixlyCorrect, extras);
    shellArguments := shellArguments + [CommandStringOption];

    var commandBuilder := "";
    if !posixlyCorrect {
      commandBuilder := commandBuilder + UnsetPosixlyCorrect;
    }
    commandBuilder := commandBuilder + command;
    assert commandBuilder == LoginShellCommand(posixlyCorrect, command);
    shellArguments := shellArguments + [commandBuilder];
    assert shellArguments == LoginShellOptions(posixlyCorrect, extras) + [CommandStringOption, LoginShellCommand(posixlyCorrect, command)];

    if commandArguments == [] {
      shellArguments := shellArguments + [shellPath];
    } else {
      shellArguments := shellArguments + commandArguments;
    }
  }

  /** What the login shell makes of its arguments: it runs in POSIX mode iff
      `POSIXLY_CORRECT` is undefined, its command string is the command behind
      the prologue, `$0` is the first command argument (or the shell path), and
      the remaining arguments become `$1…`. */
  lemma LoginShellInvocation(
    posixlyCorrect: bool, extras: seq<string>, command: string,
    commandArguments: seq<string>, shellPath: string)
    requires CommandStringOption !in extras && "-posix" !in extras
    ensures var inv := Parse(LoginShellArguments(posixlyCorrect, extras, command, commandArguments, shellPath));
            && inv.Some?
            && ("-posix" in inv.value.options <==> !posixlyCorrect)
            && "-l" in inv.value.options
            && inv.value.commandString == LoginShellCommand(posixlyCorrect, command)
            && inv.value.commandName == Some(if commandArguments == [] then shellPath else commandArguments[0])
            && inv.value.positional == (if commandArguments == [] then [] else commandArguments[1..])
  {
    var options := LoginShellOptions(posixlyCorrect, extras);
    assert forall x :: x in options <==> (x == "-posix" && !posixlyCorrect) || x == "-l" || x in extras;
    ParseCompose(options, LoginShellCommand(posixlyCorrect, command), LoginShellOperands(commandArguments, shellPath));
  }
}
