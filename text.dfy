/** String helpers standing for the .NET library calls the core relies on:
    `string.Split` and `string.Join`, LINQ `Distinct`, `Replace`, `TrimStart`,
    `TrimEnd`, `LastIndexOf`, ASCII case folding and the `D<n>` number format. */
module Text {

  // ---------------------------------------------------------------------------
  // Split and Join
  // ---------------------------------------------------------------------------

  /** `s.Split(sep)` with no options: every segment, empty ones included. */
  function SplitRaw(s: string, sep: char): (r: seq<string>)
    ensures |r| >= 1
  {
    if s == [] then [""]
    else
      var rest := SplitRaw(s[1..], sep);
      if s[0] == sep then [""] + rest
      else [[s[0]] + rest[0]] + rest[1..]
  }

  /** `string.Join(sep, parts)`. */
  function Join(parts: seq<string>, sep: char): string {
    if parts == [] then ""
    else if |parts| == 1 then parts[0]
    else parts[0] + [sep] + Join(parts[1..], sep)
  }

  /** Concatenation regroups freely; stated for the solver, which otherwise
      reaches it only through extensionality. */
  lemma ConcatAssociates<T>(a: seq<T>, b: seq<T>, c: seq<T>)
    ensures a + b + c == a + (b + c)
  {
  }

  lemma ConcatAssociates4<T>(a: seq<T>, b: seq<T>, c: seq<T>, d: seq<T>, e: seq<T>)
    ensures a + b + c + d + e == a + (b + c + d + e)
  {
  }

  /** `string.Join(sep, parts)` with a string separator. */
  function JoinWith(parts: seq<string>, sep: string): string {
    if parts == [] then ""
    else if |parts| == 1 then parts[0]
    else JoinWith(parts[..|parts| - 1], sep) + sep + parts[|parts| - 1]
  }

  /** The empty segments dropped, as `StringSplitOptions.RemoveEmptyEntries` does. */
  function RemoveEmpty(parts: seq<string>): (r: seq<string>)
  {
    if parts == [] then []
    else if parts[0] == "" then RemoveEmpty(parts[1..])
    else [parts[0]] + RemoveEmpty(parts[1..])
  }

  /** `s.Split(sep, StringSplitOptions.RemoveEmptyEntries)`. */
  function Split(s: string, sep: char): seq<string> {
    RemoveEmpty(SplitRaw(s, sep))
  }

  /** Every part is non-empty and free of the separator. */
  ghost predicate Segments(parts: seq<string>, sep: char) {
    forall i :: 0 <= i < |parts| ==> parts[i] != "" && sep !in parts[i]
  }

  lemma {:induction false} SplitRawSegmentsHaveNoSeparator(s: string, sep: char)
    ensures forall i :: 0 <= i < |SplitRaw(s, sep)| ==> sep !in SplitRaw(s, sep)[i]
  {
    if s != [] {
      SplitRawSegmentsHaveNoSeparator(s[1..], sep);
    }
  }

  lemma {:induction false} RemoveEmptyKeepsNonEmpty(parts: seq<string>, sep: char)
    requires forall i :: 0 <= i < |parts| ==> sep !in parts[i]
    ensures Segments(RemoveEmpty(parts), sep)
    ensures forall p :: p in RemoveEmpty(parts) ==> p in parts
  {
    if parts != [] {
      RemoveEmptyKeepsNonEmpty(parts[1..], sep);
    }
  }

  lemma {:induction false} RemoveEmptyOfNonEmpty(parts: seq<string>)
    requires forall i :: 0 <= i < |parts| ==> parts[i] != ""
    ensures RemoveEmpty(parts) == parts
  {
    if parts != [] {
      RemoveEmptyOfNonEmpty(parts[1..]);
    }
  }

  lemma SegmentsOfSubset(xs: seq<string>, ys: seq<string>, sep: char)
    requires Segments(xs, sep)
    requires forall y :: y in ys ==> y in xs
    ensures Segments(ys, sep)
  {
    forall i | 0 <= i < |ys| ensures ys[i] != "" && sep !in ys[i] {
      assert ys[i] in ys;
      var j :| 0 <= j < |xs| && xs[j] == ys[i];
    }
  }

  lemma SegmentsAppend(xs: seq<string>, ys: seq<string>, sep: char)
    requires Segments(xs, sep) && Segments(ys, sep)
    ensures Segments(xs + ys, sep)
  {
    forall i | 0 <= i < |xs + ys| ensures (xs + ys)[i] != "" && sep !in (xs + ys)[i] {
      if i >= |xs| {
        assert (xs + ys)[i] == ys[i - |xs|];
      }
    }
  }

  /** `Split` never yields an empty string nor one holding the separator. */
  lemma SplitYieldsSegments(s: string, sep: char)
    ensures Segments(Split(s, sep), sep)
  {
    SplitRawSegmentsHaveNoSeparator(s, sep);
    RemoveEmptyKeepsNonEmpty(SplitRaw(s, sep), sep);
  }

  /** Joining the raw segments gives the input back. */
  lemma {:induction false} JoinSplitRaw(s: string, sep: char)
    ensures Join(SplitRaw(s, sep), sep) == s
  {
    if s != [] {
      var rest := SplitRaw(s[1..], sep);
      JoinSplitRaw(s[1..], sep);
      if s[0] != sep {
        var r := SplitRaw(s, sep);
        assert r == [[s[0]] + rest[0]] + rest[1..];
        if |rest| == 1 {
          assert Join(r, sep) == [s[0]] + rest[0];
        } else {
          assert r[1..] == rest[1..];
          assert Join(rest, sep) == rest[0] + [sep] + Join(rest[1..], sep);
        }
      } else {
        assert SplitRaw(s, sep) == [""] + rest;
        assert ([""] + rest)[1..] == rest;
      }
    }
  }

  lemma {:induction false} SplitRawOfSegmentPrefix(p: string, t: string, sep: char)
    requires sep !in p
    ensures SplitRaw(p + t, sep) == [p + SplitRaw(t, sep)[0]] + SplitRaw(t, sep)[1..]
  {
    if p != [] {
      assert p[0] != sep && sep !in p[1..];
      SplitRawOfSegmentPrefix(p[1..], t, sep);
      assert (p + t)[0] == p[0];
      assert (p + t)[1..] == p[1..] + t;
      var s := SplitRaw(t, sep);
      assert SplitRaw(p[1..] + t, sep) == [p[1..] + s[0]] + s[1..];
      assert [p[0]] + (p[1..] + s[0]) == p + s[0];
    } else {
      var s := SplitRaw(t, sep);
      assert s == [s[0]] + s[1..];
      assert p + t == t && p + s[0] == s[0];
    }
  }

  /** Splitting a join of separator-free parts recovers the parts. */
  lemma {:induction false} SplitRawJoin(parts: seq<string>, sep: char)
    requires |parts| >= 1
    requires forall i :: 0 <= i < |parts| ==> sep !in parts[i]
    ensures SplitRaw(Join(parts, sep), sep) == parts
  {
    if |parts| == 1 {
      SplitRawOfSegmentPrefix(parts[0], "", sep);
      assert SplitRaw("", sep) == [""];
      assert parts[0] + "" == parts[0];
    } else {
      SplitRawJoin(parts[1..], sep);
      var t := [sep] + Join(parts[1..], sep);
      assert Join(parts, sep) == parts[0] + t;
      SplitRawOfSegmentPrefix(parts[0], t, sep);
      assert t[1..] == Join(parts[1..], sep);
      assert SplitRaw(t, sep) == [""] + parts[1..];
      assert parts[0] + "" == parts[0];
      assert parts == [parts[0]] + parts[1..];
    }
  }

  /** Round trip: `Split(Join(parts)) == parts` for proper segments. */
  lemma SplitJoin(parts: seq<string>, sep: char)
    requires Segments(parts, sep)
    ensures Split(Join(parts, sep), sep) == parts
  {
    if parts == [] {
      assert Join(parts, sep) == "";
      assert SplitRaw("", sep) == [""];
      assert RemoveEmpty([""]) == [];
    } else {
      SplitRawJoin(parts, sep);
      RemoveEmptyOfNonEmpty(parts);
    }
  }

  /** Round trip: `Join(Split(s)) == s` when `s` has no empty segment. */
  lemma JoinSplit(s: string, sep: char)
    requires s != ""
    requires forall i :: 0 <= i < |SplitRaw(s, sep)| ==> SplitRaw(s, sep)[i] != ""
    ensures Join(Split(s, sep), sep) == s
  {
    RemoveEmptyOfNonEmpty(SplitRaw(s, sep));
    JoinSplitRaw(s, sep);
  }

  // ---------------------------------------------------------------------------
  // Distinct (first occurrence wins)
  // ---------------------------------------------------------------------------

  /** LINQ `Distinct(comparer)` where the comparer is given as a canonical key;
      elements whose key is in `seen` are dropped too. */
  function DistinctExcept<T, K(==)>(xs: seq<T>, key: T -> K, seen: set<K>): seq<T>
  {
    if xs == [] then []
    else if key(xs[0]) in seen then DistinctExcept(xs[1..], key, seen)
    else [xs[0]] + DistinctExcept(xs[1..], key, seen + {key(xs[0])})
  }

  function Distinct<T, K(==)>(xs: seq<T>, key: T -> K): seq<T> {
    DistinctExcept(xs, key, {})
  }

  ghost predicate UniqueKeys<T, K>(xs: seq<T>, key: T -> K) {
    forall i, j :: 0 <= i < j < |xs| ==> key(xs[i]) != key(xs[j])
  }

  /** `Distinct` keeps only input elements, none whose key was already seen. */
  lemma {:induction false} DistinctExceptSubset<T, K>(xs: seq<T>, key: T -> K, seen: set<K>)
    ensures forall y :: y in DistinctExcept(xs, key, seen) ==> y in xs && key(y) !in seen
  {
    if xs != [] {
      var seen' := if key(xs[0]) in seen then seen else seen + {key(xs[0])};
      DistinctExceptSubset(xs[1..], key, seen');
    }
  }

  /** No two elements `Distinct` keeps share a key. */
  lemma {:induction false} DistinctExceptUnique<T, K>(xs: seq<T>, key: T -> K, seen: set<K>)
    ensures UniqueKeys(DistinctExcept(xs, key, seen), key)
  {
    if xs != [] {
      var x := xs[0];
      if key(x) in seen {
        DistinctExceptUnique(xs[1..], key, seen);
      } else {
        var rest := DistinctExcept(xs[1..], key, seen + {key(x)});
        DistinctExceptUnique(xs[1..], key, seen + {key(x)});
        DistinctExceptSubset(xs[1..], key, seen + {key(x)});
        var r := [x] + rest;
        forall i, j | 0 <= i < j < |r| ensures key(r[i]) != key(r[j]) {
          if i == 0 {
            assert r[j] == rest[j - 1];
            assert r[j] in rest;
          } else {
            assert r[i] == rest[i - 1] && r[j] == rest[j - 1];
          }
        }
      }
    }
  }

  /** Every key of the input that was not yet seen is represented in the output. */
  lemma {:induction false} DistinctExceptCovers<T, K>(xs: seq<T>, key: T -> K, seen: set<K>)
    ensures forall x :: x in xs && key(x) !in seen ==>
              exists y :: y in DistinctExcept(xs, key, seen) && key(y) == key(x)
  {
    if xs != [] {
      var x := xs[0];
      var seen' := if key(x) in seen then seen else seen + {key(x)};
      DistinctExceptCovers(xs[1..], key, seen');
      var r := DistinctExcept(xs, key, seen);
      var rest := DistinctExcept(xs[1..], key, seen');
      assert forall y :: y in rest ==> y in r;
      forall z | z in xs && key(z) !in seen
        ensures exists y :: y in r && key(y) == key(z)
      {
        if key(z) == key(x) {
          assert x in r;
        } else {
          assert z in xs[1..];
        }
      }
    }
  }

  /** The first element of the input with a given key is the one kept. */
  lemma {:induction false} DistinctExceptKeepsFirst<T, K>(xs: seq<T>, key: T -> K, seen: set<K>, i: nat)
    requires i < |xs| && key(xs[i]) !in seen
    requires forall j :: 0 <= j < i ==> key(xs[j]) != key(xs[i])
    ensures xs[i] in DistinctExcept(xs, key, seen)
  {
    if i > 0 {
      var x := xs[0];
      var seen' := if key(x) in seen then seen else seen + {key(x)};
      DistinctExceptKeepsFirst(xs[1..], key, seen', i - 1);
    }
  }

  /** An input whose keys are already distinct comes back unchanged. */
  lemma {:induction false} DistinctOfUnique<T, K>(xs: seq<T>, key: T -> K, seen: set<K>)
    requires UniqueKeys(xs, key)
    requires forall x :: x in xs ==> key(x) !in seen
    ensures DistinctExcept(xs, key, seen) == xs
  {
    if xs != [] {
      forall x | x in xs[1..] ensures key(x) !in seen + {key(xs[0])} {
        var k :| 1 <= k < |xs| && xs[k] == x;
        assert key(xs[0]) != key(xs[k]);
      }
      DistinctOfUnique(xs[1..], key, seen + {key(xs[0])});
      assert xs == [xs[0]] + xs[1..];
    }
  }

  /** The keys of the elements of `xs`. */
  ghost function KeysOf<T, K>(xs: seq<T>, key: T -> K): set<K> {
    set x | x in xs :: key(x)
  }

  /** `Distinct` over a concatenation: the second part loses the keys of the first. */
  lemma {:induction false} DistinctExceptAppend<T, K>(xs: seq<T>, ys: seq<T>, key: T -> K, seen: set<K>)
    ensures DistinctExcept(xs + ys, key, seen)
         == DistinctExcept(xs, key, seen) + DistinctExcept(ys, key, seen + KeysOf(xs, key))
  {
    if xs == [] {
      assert xs + ys == ys;
      assert KeysOf(xs, key) == {};
      assert seen + KeysOf(xs, key) == seen;
      assert DistinctExcept(xs, key, seen) == [];
    } else {
      var x := xs[0];
      var seen' := if key(x) in seen then seen else seen + {key(x)};
      assert (xs + ys)[0] == x && (xs + ys)[1..] == xs[1..] + ys;
      DistinctExceptAppend(xs[1..], ys, key, seen');
      assert xs == [x] + xs[1..];
      assert KeysOf(xs, key) == {key(x)} + KeysOf(xs[1..], key);
      assert seen' + KeysOf(xs[1..], key) == seen + KeysOf(xs, key);
    }
  }

  /** Nothing survives when every key has been seen. */
  lemma {:induction false} DistinctExceptAllSeen<T, K>(xs: seq<T>, key: T -> K, seen: set<K>)
    requires KeysOf(xs, key) <= seen
    ensures DistinctExcept(xs, key, seen) == []
  {
    if xs != [] {
      assert xs[0] in xs;
      assert KeysOf(xs[1..], key) <= KeysOf(xs, key);
      DistinctExceptAllSeen(xs[1..], key, seen);
    }
  }

  /** Applying `DistinctExcept` twice with the same seen keys changes nothing. */
  lemma DistinctExceptIdempotent<T, K>(xs: seq<T>, key: T -> K, seen: set<K>)
    ensures DistinctExcept(DistinctExcept(xs, key, seen), key, seen) == DistinctExcept(xs, key, seen)
  {
    DistinctExceptSubset(xs, key, seen);
    DistinctExceptUnique(xs, key, seen);
    DistinctOfUnique(DistinctExcept(xs, key, seen), key, seen);
  }

  /** Only keys of the input survive. */
  lemma KeysOfDistinctExcept<T, K>(xs: seq<T>, key: T -> K, seen: set<K>)
    ensures KeysOf(DistinctExcept(xs, key, seen), key) <= KeysOf(xs, key)
  {
    DistinctExceptSubset(xs, key, seen);
  }

  /** Deduplicating `xs ++ Distinct(xs ++ ys)` gives `Distinct(xs ++ ys)` again:
      prepending the same elements a second time is absorbed. */
  lemma DistinctPrependAgain<T, K>(xs: seq<T>, ys: seq<T>, key: T -> K)
    ensures Distinct(xs + Distinct(xs + ys, key), key) == Distinct(xs + ys, key)
  {
    var none: set<K> := {};
    var kx := none + KeysOf(xs, key);
    var dx := DistinctExcept(xs, key, none);
    var dy := DistinctExcept(ys, key, kx);
    DistinctExceptAppend(xs, ys, key, none);
    assert Distinct(xs + ys, key) == dx + dy;
    DistinctExceptAppend(xs, dx + dy, key, none);
    assert Distinct(xs + (dx + dy), key) == dx + DistinctExcept(dx + dy, key, kx);
    DistinctExceptAppend(dx, dy, key, kx);
    KeysOfDistinctExcept(xs, key, none);
    DistinctExceptAllSeen(dx, key, kx);
    assert kx + KeysOf(dx, key) == kx;
    DistinctExceptIdempotent(ys, key, kx);
    assert DistinctExcept(dx + dy, key, kx) == [] + dy;
    assert [] + dy == dy;
  }

  // ---------------------------------------------------------------------------
  // Characters and small string operations
  // ---------------------------------------------------------------------------

  predicate IsAsciiLetter(c: char) {
    'a' <= c <= 'z' || 'A' <= c <= 'Z'
  }

  function ToLowerAscii(c: char): char {
    if 'A' <= c <= 'Z' then (c as int - 'A' as int + 'a' as int) as char else c
  }

  function ToLowerAsciiString(s: string): (r: string)
    ensures |r| == |s|
    ensures forall i :: 0 <= i < |s| ==> r[i] == ToLowerAscii(s[i])
  {
    if s == [] then [] else [ToLowerAscii(s[0])] + ToLowerAsciiString(s[1..])
  }

  /** Lower-casing works character by character, so it distributes over
      concatenation. */
  lemma ToLowerAsciiConcat(a: string, b: string)
    ensures ToLowerAsciiString(a + b) == ToLowerAsciiString(a) + ToLowerAsciiString(b)
  {
    var l, r := ToLowerAsciiString(a + b), ToLowerAsciiString(a) + ToLowerAsciiString(b);
    assert forall i :: 0 <= i < |b| ==> (a + b)[|a| + i] == b[i];
    assert forall i :: 0 <= i < |l| ==> l[i] == r[i];
  }

  /** `StringComparison.OrdinalIgnoreCase`, folded on ASCII letters. */
  predicate EqualsIgnoreCase(a: string, b: string) {
    ToLowerAsciiString(a) == ToLowerAsciiString(b)
  }

  /** `s.Replace(from, to)` for single characters. */
  function ReplaceChar(s: string, from: char, to: char): (r: string)
    ensures |r| == |s|
    ensures forall i :: 0 <= i < |s| ==> r[i] == if s[i] == from then to else s[i]
  {
    if s == [] then [] else [if s[0] == from then to else s[0]] + ReplaceChar(s[1..], from, to)
  }

  /** The number of leading `c` characters of `s`. */
  function LeadingCount(s: string, c: char): (k: nat)
    ensures k <= |s|
    ensures forall i :: 0 <= i < k ==> s[i] == c
    ensures k == |s| || s[k] != c
  {
    if s != [] && s[0] == c then 1 + LeadingCount(s[1..], c) else 0
  }

  /** `s.TrimStart(c)`. */
  function TrimStart(s: string, c: char): string {
    s[LeadingCount(s, c)..]
  }

  /** `s.TrimEnd(c)`. */
  function TrimEnd(s: string, c: char): (r: string)
    ensures r == [] || r[|r| - 1] != c
    ensures |r| <= |s| && r == s[..|r|]
    ensures forall i :: |r| <= i < |s| ==> s[i] == c
  {
    if s != [] && s[|s| - 1] == c then TrimEnd(s[..|s| - 1], c) else s
  }

  /** `s.LastIndexOf(c)`: -1 when `c` does not occur. */
  function LastIndexOf(s: string, c: char): (r: int)
    ensures -1 <= r < |s|
    ensures r >= 0 ==> s[r] == c
    ensures forall i :: r < i < |s| ==> s[i] != c
  {
    if s == [] then -1
    else if s[|s| - 1] == c then |s| - 1
    else LastIndexOf(s[..|s| - 1], c)
  }

  // ---------------------------------------------------------------------------
  // Decimal formatting ("D<n>" format specifier)
  // ---------------------------------------------------------------------------

  function DigitChar(d: nat): char
    requires d < 10
  {
    ('0' as int + d) as char
  }

  /** The decimal digits of `n`, most significant first, no leading zeros. */
  function Digits(n: nat): (r: string)
    ensures |r| >= 1
  {
    if n < 10 then [DigitChar(n)] else Digits(n / 10) + [DigitChar(n % 10)]
  }

  function Zeros(k: nat): (r: string)
    ensures |r| == k && forall i :: 0 <= i < k ==> r[i] == '0'
  {
    if k == 0 then [] else ['0'] + Zeros(k - 1)
  }

  /** `n.ToString("D" + width)`: digits left-padded with zeros to `width`,
      with a leading '-' for a negative number. */
  function FormatD(n: int, width: nat): string {
    var digits := Digits(if n < 0 then -n else n);
    var padded := if |digits| < width then Zeros(width - |digits|) + digits else digits;
    if n < 0 then "-" + padded else padded
  }

  predicate IsDigit(c: char) {
    '0' <= c <= '9'
  }

  function DigitValue(c: char): nat
    requires IsDigit(c)
  {
    c as int - '0' as int
  }

  /** The value a string of decimal digits denotes. */
  function DecimalValue(s: string): nat
    requires forall i :: 0 <= i < |s| ==> IsDigit(s[i])
  {
    if s == [] then 0
    else 10 * DecimalValue(s[..|s| - 1]) + DigitValue(s[|s| - 1])
  }

  function Pow10(k: nat): (r: nat)
    ensures r >= 1
  {
    if k == 0 then 1 else 10 * Pow10(k - 1)
  }

  lemma {:induction false} DigitsProperties(n: nat)
    ensures forall i :: 0 <= i < |Digits(n)| ==> IsDigit(Digits(n)[i])
    ensures DecimalValue(Digits(n)) == n
    ensures n < Pow10(|Digits(n)|)
    ensures |Digits(n)| == 1 || n >= Pow10(|Digits(n)| - 1)
  {
    if n >= 10 {
      DigitsProperties(n / 10);
      var d := Digits(n);
      assert d[..|d| - 1] == Digits(n / 10);
    }
  }

  lemma {:induction false} DecimalValueOfLeadingZeros(k: nat, s: string)
    requires forall i :: 0 <= i < |s| ==> IsDigit(s[i])
    ensures forall i :: 0 <= i < |Zeros(k) + s| ==> IsDigit((Zeros(k) + s)[i])
    ensures DecimalValue(Zeros(k) + s) == DecimalValue(s)
    decreases |s|
  {
    var z := Zeros(k) + s;
    if s == [] {
      assert z == Zeros(k);
      ZerosValue(k);
    } else {
      DecimalValueOfLeadingZeros(k, s[..|s| - 1]);
      assert z[..|z| - 1] == Zeros(k) + s[..|s| - 1];
    }
  }

  lemma {:induction false} ZerosValue(k: nat)
    ensures DecimalValue(Zeros(k)) == 0
  {
    if k > 0 {
      var z := Zeros(k);
      assert z[..k - 1] == Zeros(k - 1);
      ZerosValue(k - 1);
    }
  }

  /** A non-negative number below 10^width formats as exactly `width` digits
      that read back as the number. */
  lemma FormatDExact(n: nat, width: nat)
    requires n < Pow10(width) && width >= 1
    ensures |FormatD(n, width)| == width
    ensures forall i :: 0 <= i < width ==> IsDigit(FormatD(n, width)[i])
    ensures DecimalValue(FormatD(n, width)) == n
  {
    DigitsProperties(n);
    var digits := Digits(n);
    if |digits| > width {
      Pow10Monotone(width, |digits| - 1);
      assert false;
    }
    if |digits| < width {
      DecimalValueOfLeadingZeros(width - |digits|, digits);
    }
  }

  lemma {:induction false} Pow10Monotone(a: nat, b: nat)
    requires a <= b
    ensures Pow10(a) <= Pow10(b)
  {
    if a < b {
      Pow10Monotone(a, b - 1);
    }
  }
}
