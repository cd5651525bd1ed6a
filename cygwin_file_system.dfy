/** The rewrite of a Windows drive path into a Cygwin-style POSIX path. */
module CygwinFileSystem {
  import opened Wrappers
  import opened Text

  /** A path starting with an ASCII drive letter and a colon. */
  predicate IsDrivePath(path: string) {
    |path| >= 2 && path[1] == ':' && IsAsciiLetter(path[0])
  }

  /** What follows `X:`, with backslashes turned into slashes and the leading
      slashes trimmed. */
  function DriveRemainder(path: string): string
    requires |path| >= 2
  {
    TrimStart(ReplaceChar(path[2..], '\\', '/'), '/')
  }

  /** The POSIX form of a drive path: the prefix (none when null), a slash, the
      lower-cased drive letter, and the remainder behind a slash when it is not
      empty. */
  function DrivePath(path: string, prefix: Option<string>): string
    requires IsDrivePath(path)
  {
    var rest := DriveRemainder(path);
    prefix.GetOr("") + ['/', ToLowerAscii(path[0])] + (if rest == "" then "" else ['/'] + rest)
  }

  /** What `TranslateFilePath` returns: a drive path in POSIX form, any other
      path unchanged. */
  function Translated(path: string, prefix: Option<string>): string {
    if IsDrivePath(path) then DrivePath(path, prefix) else path
  }

  /** `TranslateFilePath(path, prefix)`: the string builder receives the prefix,
      then the drive, then the remainder. */
  method TranslateFilePath(path: string, prefix: Option<string>) returns (r: string)
    ensures IsDrivePath(path) ==> r == DrivePath(path, prefix)
    ensures !IsDrivePath(path) ==> r == path
    ensures r == Translated(path, prefix)
  {
    if |path| >= 2 && path[1] == ':' && IsAsciiLetter(path[0]) {
      var builder := prefix.GetOr("");
      builder := builder + ['/'];
      builder := builder + [ToLowerAscii(path[0])];
      var s := TrimStart(ReplaceChar(path[2..], '\\', '/'), '/');
      if s != [] {
        builder := builder + ['/'] + s;
      }
      r := builder;
    } else {
      r := path;
    }
  }

  /** The drive letter's case does not matter. */
  lemma DriveLetterCaseIgnored(path: string, other: string, prefix: Option<string>)
    requires IsDrivePath(path) && IsDrivePath(other)
    requires ToLowerAscii(path[0]) == ToLowerAscii(other[0]) && path[1..] == other[1..]
    ensures DrivePath(path, prefix) == DrivePath(other, prefix)
  {
    assert path[2..] == path[1..][1..];
    assert other[2..] == other[1..][1..];
  }

  /** The result holds no backslash when the prefix holds none. */
  lemma DrivePathHasNoBackslash(path: string, prefix: Option<string>)
    requires IsDrivePath(path)
    requires prefix.Some? ==> '\\' !in prefix.value
    ensures '\\' !in DrivePath(path, prefix)
  {
    var replaced := ReplaceChar(path[2..], '\\', '/');
    assert '\\' !in replaced;
    var rest := DriveRemainder(path);
    assert forall i :: 0 <= i < |rest| ==> rest[i] in replaced;
    assert ToLowerAscii(path[0]) != '\\';
  }

  /** The remainder never starts with a slash, so the result never has a
      doubled slash after the drive and never ends with one. */
  lemma DrivePathShape(path: string, prefix: Option<string>)
    requires IsDrivePath(path)
    ensures var pre := prefix.GetOr("");
            var r := DrivePath(path, prefix);
            && |r| >= |pre| + 2
            && r[..|pre|] == pre
            && r[|pre|] == '/'
            && r[|pre| + 1] == ToLowerAscii(path[0])
            && (|r| == |pre| + 2 || (|r| >= |pre| + 4 && r[|pre| + 2] == '/' && r[|pre| + 3] != '/'))
  {
    var rest := DriveRemainder(path);
  }

  /** `C:\Users\x` becomes `/cygdrive/c/Users/x` with the Cygwin prefix and
      `/c/Users/x` with none. */
  lemma DrivePathExamples()
    ensures DrivePath("C:\\Users\\x", Some("/cygdrive")) == "/cygdrive/c/Users/x"
    ensures DrivePath("C:\\Users\\x", None) == "/c/Users/x"
  {
    CygdriveExample();
    RootPrefixExample();
  }

  /** Proof step of `DrivePathExamples`, with the `/cygdrive` prefix. */
  lemma CygdriveExample()
    ensures DrivePath("C:\\Users\\x", Some("/cygdrive")) == "/cygdrive/c/Users/x"
  {
    ExampleRemainder();
    assert ToLowerAscii('C') == 'c';
    CygdriveSpelled();
  }

  /** Proof step of `DrivePathExamples`, with no prefix. */
  lemma RootPrefixExample()
    ensures DrivePath("C:\\Users\\x", None) == "/c/Users/x"
  {
    ExampleRemainder();
    assert ToLowerAscii('C') == 'c';
    var letter: string := ['/', 'c'];
    assert "" + letter == letter;
    RootSpelled();
  }

  /** Proof step: the drive and remainder with no prefix, spelled out. */
  lemma RootSpelled()
    ensures ['/', 'c'] + (['/'] + "Users/x") == "/c/Users/x"
  {
  }

  /** Proof step: the drive and remainder under `/cygdrive`, spelled out. */
  lemma CygdriveSpelled()
    ensures "/cygdrive" + ['/', 'c'] + (['/'] + "Users/x") == "/cygdrive/c/Users/x"
  {
    RootSpelled();
  }

  /** Proof step of `DrivePathExamples`: the remainder of the example path. */
  lemma ExampleRemainder()
    ensures DriveRemainder("C:\\Users\\x") == "Users/x"
  {
    var path := "C:\\Users\\x";
    assert path[2..] == "\\Users\\x";
    var replaced := ReplaceChar(path[2..], '\\', '/');
    assert replaced == "/Users/x";
    assert LeadingCount(replaced, '/') == 1;
  }

  /** `C:` and `C:\` both become the bare drive, with no trailing slash. */
  lemma DriveRootExamples()
    ensures DrivePath("C:", Some("/cygdrive")) == "/cygdrive/c"
    ensures DrivePath("C:\\", None) == "/c"
  {
    assert "C:"[2..] == "";
    assert DriveRemainder("C:") == "";
    var path := "C:\\";
    assert path[2..] == "\\";
    assert ReplaceChar(path[2..], '\\', '/') == "/";
    assert LeadingCount("/", '/') == 1;
    assert DriveRemainder(path) == "";
  }
}
