/** Diagnostic codes, their printed identifiers, and the errors the toolkit
    layer raises. */
module Diagnostics {
  import opened Wrappers
  import opened Text

  datatype DiagnosticCode =
    | InvalidProgramArguments
    | SuitableToolkitNotFound
    | ConflictingProgramArguments
    | ConfigurationFileLoadError
  {
    function Value(): int {
      match this
      case InvalidProgramArguments => 1
      case SuitableToolkitNotFound => 2
      case ConflictingProgramArguments => 3
      case ConfigurationFileLoadError => 4
    }
  }

  /** The failures of toolkit operations: a required executable is missing, a
      process could not be started, or no toolkit fits the request. */
  datatype Error =
    | ModuleNotFound(fileName: string)
    | CannotStartProcess(fileName: string)
    | ToolkitNotFound

  const ErrorPrefix: string := "GNUTK"

  /** `GetErrorIdentifier(code)`: `GNUTK` followed by the numeric code written
      with at least four digits; a null code adds nothing. */
  function GetErrorIdentifier(code: Option<int>): (r: string)
    ensures |r| >= |ErrorPrefix| && r[..|ErrorPrefix|] == ErrorPrefix
    ensures code.None? <==> r == ErrorPrefix
  {
    ErrorPrefix + (if code.None? then "" else FormatD(code.value, 4))
  }

  /** A code from 0 to 9999 is written as exactly four digits that read back
      as the code. */
  lemma ErrorIdentifierOfCode(code: int)
    requires 0 <= code < 10000
    ensures var r := GetErrorIdentifier(Some(code));
            && |r| == 9
            && (forall i :: 5 <= i < 9 ==> IsDigit(r[i]))
            && DecimalValue(r[5..]) == code
  {
    assert Pow10(4) == 10000 by {
      assert Pow10(1) == 10;
      assert Pow10(2) == 100;
      assert Pow10(3) == 1000;
    }
    FormatDExact(code, 4);
    var r := GetErrorIdentifier(Some(code));
    assert r[5..] == FormatD(code, 4);
  }

  /** The defined codes print as `GNUTK0001` to `GNUTK0004`. */
  lemma DefinedCodeIdentifiers()
    ensures GetErrorIdentifier(Some(InvalidProgramArguments.Value())) == "GNUTK0001"
    ensures GetErrorIdentifier(Some(SuitableToolkitNotFound.Value())) == "GNUTK0002"
    ensures GetErrorIdentifier(Some(ConflictingProgramArguments.Value())) == "GNUTK0003"
    ensures GetErrorIdentifier(Some(ConfigurationFileLoadError.Value())) == "GNUTK0004"
  {
    assert Zeros(3) == "000" by {
      assert Zeros(1) == "0";
      assert Zeros(2) == "00";
    }
    assert Digits(1) == "1";
    assert Digits(2) == "2";
    assert Digits(3) == "3";
    assert Digits(4) == "4";
  }
}
