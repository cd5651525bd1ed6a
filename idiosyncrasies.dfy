/** Argument adjustment for the Cygwin-derived shells (Cygwin, MSYS2, Git),
    which treat a backslash in an argument as an escape character. */
module CygwinIdiosyncrasies {

  /** The number of occurrences of `c` in `s`. */
  function Count(s: string, c: char): nat {
    if s == [] then 0 else (if s[0] == c then 1 else 0) + Count(s[1..], c)
  }

  /** The characters of `s` other than `c`, in order. */
  function Without(s: string, c: char): string {
    if s == [] then [] else (if s[0] == c then [] else [s[0]]) + Without(s[1..], c)
  }

  /** `AdjustArgument`: `value.Replace(@"\", @"\\")`, every backslash doubled. */
  function AdjustArgument(value: string): (r: string)
    ensures |r| == |value| + Count(value, '\\')
    ensures '\\' !in value ==> r == value
    ensures Without(r, '\\') == Without(value, '\\')
  {
    if value == [] then []
    else
      var rest := AdjustArgument(value[1..]);
      assert '\\' !in value ==> '\\' !in value[1..] && rest == value[1..];
      if value[0] == '\\' then
        assert Without(['\\', '\\'] + rest, '\\') == Without(rest, '\\') by {
          assert (['\\', '\\'] + rest)[1..] == ['\\'] + rest;
          assert (['\\'] + rest)[1..] == rest;
        }
        ['\\', '\\'] + rest
      else
        assert ([value[0]] + rest)[1..] == rest;
        [value[0]] + rest
  }

  /** Collapses each doubled backslash back into one. */
  function Undouble(s: string): string {
    if |s| >= 2 && s[0] == '\\' && s[1] == '\\' then ['\\'] + Undouble(s[2..])
    else if s == [] then []
    else [s[0]] + Undouble(s[1..])
  }

  /** Collapsing the doubled backslashes recovers the original argument. */
  lemma {:induction false} UndoubleAdjustArgument(value: string)
    ensures Undouble(AdjustArgument(value)) == value
  {
    if value != [] {
      UndoubleAdjustArgument(value[1..]);
      var rest := AdjustArgument(value[1..]);
      if value[0] == '\\' {
        assert (['\\', '\\'] + rest)[2..] == rest;
      } else {
        assert ([value[0]] + rest)[1..] == rest;
      }
      assert value == [value[0]] + value[1..];
    }
  }

  /** Distinct arguments stay distinct after adjustment. */
  lemma AdjustArgumentInjective(a: string, b: string)
    requires AdjustArgument(a) == AdjustArgument(b)
    ensures a == b
  {
    UndoubleAdjustArgument(a);
    UndoubleAdjustArgument(b);
  }
}

/** MSYS2 shares the Cygwin argument conventions. */
module MSys2Idiosyncrasies {
  import CygwinIdiosyncrasies

  /** `AdjustArgument`: the Cygwin adjustment. */
  function AdjustArgument(value: string): (r: string)
    ensures |r| == |value| + CygwinIdiosyncrasies.Count(value, '\\')
    ensures '\\' !in value ==> r == value
    ensures CygwinIdiosyncrasies.Undouble(r) == value
  {
    CygwinIdiosyncrasies.UndoubleAdjustArgument(value);
    CygwinIdiosyncrasies.AdjustArgument(value)
  }
}

/** Git for Windows shares the Cygwin argument conventions. */
module GitIdiosyncrasies {
  import CygwinIdiosyncrasies

  /** `AdjustArgument`: the Cygwin adjustment. */
  function AdjustArgument(value: string): (r: string)
    ensures |r| == |value| + CygwinIdiosyncrasies.Count(value, '\\')
    ensures '\\' !in value ==> r == value
    ensures CygwinIdiosyncrasies.Undouble(r) == value
  {
    CygwinIdiosyncrasies.UndoubleAdjustArgument(value);
    CygwinIdiosyncrasies.AdjustArgument(value)
  }
}

/** Shell quoting helpers. */
module ShellHelper {
  import opened Wrappers
  import CygwinIdiosyncrasies

  /** `EscapeVariableValue`: null and empty values are returned as they are;
      otherwise every backslash is doubled. */
  function EscapeVariableValue(value: Option<string>): (r: Option<string>)
    ensures r.None? <==> value.None?
    ensures value == Some("") ==> r == Some("")
    ensures value.Some? ==> r == Some(CygwinIdiosyncrasies.AdjustArgument(value.value))
  {
    if value.None? || value.value == "" then value
    else
      ReplaceBackslashesIsAdjustArgument(value.value);
      Some(ReplaceBackslashes(value.value))
  }

  /** `value.Replace(@"\", @"\\")`, written out character by character. */
  function ReplaceBackslashes(value: string): (r: string)
    ensures |r| == |value| + CygwinIdiosyncrasies.Count(value, '\\')
  {
    if value == [] then []
    else (if value[0] == '\\' then "\\\\" else [value[0]]) + ReplaceBackslashes(value[1..])
  }

  /** The escaping agrees with the Cygwin argument adjustment on every string. */
  lemma {:induction false} ReplaceBackslashesIsAdjustArgument(value: string)
    ensures ReplaceBackslashes(value) == CygwinIdiosyncrasies.AdjustArgument(value)
  {
    if value != [] {
      ReplaceBackslashesIsAdjustArgument(value[1..]);
    }
  }
}
