/** Rendering of word lists in English messages. */
module LinguisticServices {
  import opened Text

  /** `SingleQuote(value)`: the value between single quotes. */
  function SingleQuote(value: string): (r: string)
    ensures |r| == |value| + 2
    ensures r[0] == '\'' && r[|r| - 1] == '\''
    ensures r[1..|r| - 1] == value
  {
    "'" + value + "'"
  }

  /** The text built after the first `k` values: each value is preceded by a
      separator only when the text so far is not empty — `", "` when more
      values follow it, `" or "` before the last one. */
  function OrPrefix(values: seq<string>, k: nat): string
    requires k <= |values|
  {
    if k == 0 then ""
    else
      var p := OrPrefix(values, k - 1);
      p + (if p != "" then (if k < |values| then ", " else " or ") else "") + values[k - 1]
  }

  /** The list rendered in full. */
  function CombinedWithOr(values: seq<string>): string {
    OrPrefix(values, |values|)
  }

  /** `CombineWithOr(values)`: walks the values with a look-ahead flag telling
      whether another value follows. */
  method CombineWithOr(values: seq<string>) returns (r: string)
    ensures r == CombinedWithOr(values)
  {
    if |values| == 0 {
      return "";
    }
    var builder := "";
    var i := 0;
    while true
      invariant 0 <= i < |values|
      invariant builder == OrPrefix(values, i)
      decreases |values| - i
    {
      var current := values[i];
      var hasNext := i + 1 < |values|;
      if |builder| != 0 {
        if hasNext {
          builder := builder + ", ";
        } else {
          builder := builder + " or ";
        }
      }
      builder := builder + current;
      if !hasNext {
        break;
      }
      i := i + 1;
    }
    return builder;
  }

  /** The list `a, b, ... or z` as written by hand: commas between all but the
      last pair, `or` before the last value, no comma before `or`. */
  function OrList(values: seq<string>): string
    requires |values| >= 1
  {
    if |values| == 1 then values[0]
    else JoinWith(values[..|values| - 1], ", ") + " or " + values[|values| - 1]
  }

  lemma {:induction false} OrPrefixOfNonEmpty(values: seq<string>, k: nat)
    requires 1 <= k < |values|
    requires forall i :: 0 <= i < |values| ==> values[i] != ""
    ensures OrPrefix(values, k) == JoinWith(values[..k], ", ")
    ensures OrPrefix(values, k) != ""
  {
    if k > 1 {
      OrPrefixOfNonEmpty(values, k - 1);
      assert values[..k][..k - 1] == values[..k - 1];
    } else {
      assert OrPrefix(values, 0) == "";
    }
  }

  /** When no value is empty the rendering is exactly the hand-written list. */
  lemma CombinedWithOrOfNonEmpty(values: seq<string>)
    requires |values| >= 1
    requires forall i :: 0 <= i < |values| ==> values[i] != ""
    ensures CombinedWithOr(values) == OrList(values)
  {
    var n := |values|;
    if n > 1 {
      OrPrefixOfNonEmpty(values, n - 1);
    } else {
      assert OrPrefix(values, 0) == "";
    }
  }

  /** No values give the empty string; two give `a or b`; three give `a, b or c`. */
  lemma CombinedWithOrExamples(a: string, b: string, c: string)
    requires a != "" && b != "" && c != ""
    ensures CombinedWithOr([]) == ""
    ensures CombinedWithOr([a]) == a
    ensures CombinedWithOr([a, b]) == a + " or " + b
    ensures CombinedWithOr([a, b, c]) == a + ", " + b + " or " + c
  {
    CombinedWithOrOfNonEmpty([a]);
    CombinedWithOrOfNonEmpty([a, b]);
    assert [a, b][..1] == [a];
    CombinedWithOrOfNonEmpty([a, b, c]);
    assert [a, b, c][..2] == [a, b];
    assert [a, b][..1] == [a];
  }

  /** A leading empty value adds no separator: `["", "b"]` gives `b`. */
  lemma LeadingEmptyAddsNoSeparator(b: string)
    ensures CombinedWithOr(["", b]) == b
  {
    assert OrPrefix(["", b], 1) == "";
  }
}
