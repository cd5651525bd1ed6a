/** Environment-variable blocks and the rules for composing them: later blocks
    override earlier ones, `PATH` lists are merged with the later block's
    directories first, compiler flag variables are concatenated, and a
    variable explicitly set to null in the later block is removed. */
module ToolkitEnvironment {
  import opened Wrappers
  import opened Text
  import Polyfills

  const PosixlyCorrect: string := "POSIXLY_CORRECT"
  const PathVariable: string := "PATH"

  /** The host's comparison rules: variable names are compared ignoring case on
      Windows and ordinally elsewhere; file paths are compared by the file
      system's path comparer; `pathSeparator` separates the entries of `PATH`. */
  datatype Config = Config(ignoreCaseNames: bool, ignoreCasePaths: bool, pathSeparator: char)

  /** The canonical form of a variable name under the host's name comparer. */
  function NameKey(cfg: Config, name: string): string {
    if cfg.ignoreCaseNames then ToLowerAsciiString(name) else name
  }

  /** The canonical form of a file path under the host's path comparer. */
  function PathKey(cfg: Config): string -> string {
    (p: string) => if cfg.ignoreCasePaths then ToLowerAsciiString(p) else p
  }

  /** One variable: its name as first spelled, and its value (`None` is null). */
  datatype Entry = Entry(name: string, value: Option<string>)

  /** A dictionary created with the name comparer, indexed by canonical name. */
  type Env = map<string, Entry>

  /** Every entry sits under the canonical form of its own name. */
  ghost predicate Wf(cfg: Config, env: Env) {
    forall k :: k in env ==> NameKey(cfg, env[k].name) == k
  }

  /** `TryGetValue`: `None` when the name is missing, else the stored value. */
  function TryGetValue(cfg: Config, env: Env, name: string): (r: Option<Option<string>>)
    ensures r.Some? <==> NameKey(cfg, name) in env
  {
    var k := NameKey(cfg, name);
    if k in env then Some(env[k].value) else None
  }

  /** `ContainsKey(name)`. */
  predicate ContainsName(cfg: Config, env: Env, name: string) {
    NameKey(cfg, name) in env
  }

  /** Names of different lengths are different variables. */
  lemma DistinctNameLengths(cfg: Config, a: string, b: string)
    requires |a| != |b|
    ensures NameKey(cfg, a) != NameKey(cfg, b)
  {
  }

  /** Names that differ at some position, ignoring case, are different
      variables. */
  lemma DistinctNamesAt(cfg: Config, a: string, b: string, i: nat)
    requires i < |a| && i < |b| && ToLowerAscii(a[i]) != ToLowerAscii(b[i])
    ensures NameKey(cfg, a) != NameKey(cfg, b)
  {
    if !cfg.ignoreCaseNames {
      assert a[i] != b[i];
    } else {
      assert NameKey(cfg, a)[i] != NameKey(cfg, b)[i];
    }
  }

  /** The indexer setter: an existing entry keeps its original spelling. */
  function SetValue(cfg: Config, env: Env, name: string, value: Option<string>): (r: Env)
    ensures TryGetValue(cfg, r, name) == Some(value)
    ensures r.Keys == env.Keys + {NameKey(cfg, name)}
    ensures forall k :: k in env && k != NameKey(cfg, name) ==> r[k] == env[k]
    ensures NameKey(cfg, name) in env ==> r[NameKey(cfg, name)].name == env[NameKey(cfg, name)].name
  {
    var k := NameKey(cfg, name);
    env[k := Entry(if k in env then env[k].name else name, value)]
  }

  /** Setting one variable leaves every other variable as it was. */
  lemma SetValueOther(cfg: Config, env: Env, name: string, value: Option<string>, other: string)
    requires NameKey(cfg, other) != NameKey(cfg, name)
    ensures TryGetValue(cfg, SetValue(cfg, env, name, value), other) == TryGetValue(cfg, env, other)
  {
  }

  lemma SetValueWf(cfg: Config, env: Env, name: string, value: Option<string>)
    requires Wf(cfg, env)
    ensures Wf(cfg, SetValue(cfg, env, name, value))
  {
  }

  /** The variables read as a plain dictionary from canonical name to value. */
  function Values(env: Env): map<string, Option<string>> {
    map k | k in env :: env[k].value
  }

  /** `GetValueOrDefault(name)` on an environment dictionary: `None` both when
      the variable is missing and when it is null. */
  function GetValueOrNull(cfg: Config, env: Env, name: string): (r: Option<string>)
    ensures r.Some? <==> TryGetValue(cfg, env, name).Some? && TryGetValue(cfg, env, name).value.Some?
    ensures r.Some? ==> r == TryGetValue(cfg, env, name).value
  {
    Polyfills.GetValueOrNull(Values(env), NameKey(cfg, name))
  }

  // ---------------------------------------------------------------------------
  // Combining values
  // ---------------------------------------------------------------------------

  predicate IsFlagsVariable(name: string) {
    name == "CFLAGS" || name == "CPPFLAGS" || name == "LDFLAGS"
  }

  /** A separated list from `b` followed by the entries of `a`, duplicates and
      empty entries removed; a null `a` yields `b`, a null `b` yields null. */
  function CombineSeparatedValues(a: Option<string>, b: Option<string>, separator: char, key: string -> string): Option<string>
  {
    if a.None? then b
    else if b.None? then None
    else Some(Join(Distinct(Split(b.value, separator) + Split(a.value, separator), key), separator))
  }

  /** `b + separator + a`; a null `a` yields `b`, a null `b` yields null. */
  function ConcatValues(a: Option<string>, b: Option<string>, separator: char): Option<string>
  {
    if a.None? then b
    else if b.None? then None
    else Some(b.value + [separator] + a.value)
  }

  /** The value of variable `name` when `a` is overlaid by `b`. The choice is
      made on the exact (ordinal) spelling of `name`. */
  function CombineValue(cfg: Config, name: string, a: Option<string>, b: Option<string>): Option<string>
  {
    if name == PathVariable then CombineSeparatedValues(a, b, cfg.pathSeparator, PathKey(cfg))
    else if IsFlagsVariable(name) then ConcatValues(a, b, ' ')
    else b
  }

  /** The name the key union yields: `a`'s spelling wins over `b`'s. */
  function UnionName(a: Env, b: Env, k: string): string
    requires k in a || k in b
  {
    if k in a then a[k].name else b[k].name
  }

  /** The value a variable gets: combined when both blocks define it, else
      taken from the block that defines it. */
  function CombinedAt(cfg: Config, a: Env, b: Env, k: string): Option<string>
    requires k in a || k in b
  {
    if k in a && k in b then CombineValue(cfg, a[k].name, a[k].value, b[k].value)
    else if k in a then a[k].value
    else b[k].value
  }

  /** `a` overlaid by `b` (both present). */
  function CombineEntries(cfg: Config, a: Env, b: Env): (r: Env)
    ensures r.Keys == a.Keys + b.Keys
  {
    map k | k in a.Keys + b.Keys :: Entry(UnionName(a, b, k), CombinedAt(cfg, a, b, k))
  }

  /** `Combine(a, b)`: a null block yields the other one. */
  function Combine(cfg: Config, a: Option<Env>, b: Option<Env>): (r: Option<Env>)
    ensures r.None? <==> a.None? && b.None?
    ensures a.None? ==> r == b
    ensures b.None? ==> r == a
  {
    if a.None? then b
    else if b.None? then a
    else Some(CombineEntries(cfg, a.value, b.value))
  }

  // ---------------------------------------------------------------------------
  // Properties of Combine
  // ---------------------------------------------------------------------------

  lemma CombineEntriesWf(cfg: Config, a: Env, b: Env)
    requires Wf(cfg, a) && Wf(cfg, b)
    ensures Wf(cfg, CombineEntries(cfg, a, b))
  {
  }

  /** A variable is kept under the spelling of the first block that has it. */
  lemma CombineKeepsFirstSpelling(cfg: Config, a: Env, b: Env, k: string)
    requires k in a || k in b
    ensures CombineEntries(cfg, a, b)[k].name == if k in a then a[k].name else b[k].name
  {
  }

  /** A variable set to null by the later block is null in the result,
      whatever its name. */
  lemma CombineNullWins(cfg: Config, a: Env, b: Env, k: string)
    requires k in b && b[k].value.None?
    ensures CombineEntries(cfg, a, b)[k].value.None?
  {
  }

  /** Outside `PATH` and the flag variables the later block overrides the
      earlier one, and a variable only the earlier block has is kept. */
  lemma CombineLaterWins(cfg: Config, a: Env, b: Env, k: string)
    requires k in a || k in b
    requires UnionName(a, b, k) != PathVariable && !IsFlagsVariable(UnionName(a, b, k))
    ensures CombineEntries(cfg, a, b)[k].value == if k in b then b[k].value else a[k].value
  {
  }

  /** Flag variables are concatenated, later block first. */
  lemma CombineConcatenatesFlags(cfg: Config, a: Env, b: Env, k: string)
    requires k in a && k in b && IsFlagsVariable(a[k].name)
    requires a[k].value.Some? && b[k].value.Some?
    ensures CombineEntries(cfg, a, b)[k].value == Some(b[k].value.value + " " + a[k].value.value)
  {
  }

  /** The entries of a merged `PATH` are those of the later block followed by
      the earlier block's, each path once. */
  lemma CombinePathEntries(cfg: Config, a: Env, b: Env, k: string)
    requires k in a && k in b && a[k].name == PathVariable
    requires a[k].value.Some? && b[k].value.Some?
    ensures CombineEntries(cfg, a, b)[k].value.Some?
    ensures var sep := cfg.pathSeparator;
            var pa := Split(a[k].value.value, sep);
            var pb := Split(b[k].value.value, sep);
            var r := Split(CombineEntries(cfg, a, b)[k].value.value, sep);
            && r == Distinct(pb, PathKey(cfg)) + DistinctExcept(pa, PathKey(cfg), KeysOf(pb, PathKey(cfg)))
            && UniqueKeys(r, PathKey(cfg))
            && (forall p :: p in pb + pa ==> exists q :: q in r && PathKey(cfg)(q) == PathKey(cfg)(p))
  {
    var sep := cfg.pathSeparator;
    var key := PathKey(cfg);
    var pa := Split(a[k].value.value, sep);
    var pb := Split(b[k].value.value, sep);
    SplitYieldsSegments(a[k].value.value, sep);
    SplitYieldsSegments(b[k].value.value, sep);
    SegmentsAppend(pb, pa, sep);
    JoinOfDistinctSegments(pb + pa, key, sep);
    DistinctExceptAppend(pb, pa, key, {});
    assert {} + KeysOf(pb, key) == KeysOf(pb, key);
    DistinctExceptUnique(pb + pa, key, {});
    DistinctExceptCovers(pb + pa, key, {});
  }

  /** Deduplicated segments of split strings survive a join and a split. */
  lemma JoinOfDistinctSegments(parts: seq<string>, key: string -> string, sep: char)
    requires Segments(parts, sep)
    ensures Split(Join(Distinct(parts, key), sep), sep) == Distinct(parts, key)
  {
    DistinctExceptSubset(parts, key, {});
    SegmentsOfSubset(parts, Distinct(parts, key), sep);
    SplitJoin(Distinct(parts, key), sep);
  }

  /** An empty block on either side changes nothing. */
  lemma CombineWithEmpty(cfg: Config, e: Env)
    ensures CombineEntries(cfg, e, map[]) == e
    ensures CombineEntries(cfg, map[], e) == e
  {
    assert CombineEntries(cfg, e, map[]).Keys == e.Keys;
    assert CombineEntries(cfg, map[], e).Keys == e.Keys;
  }

  /** On Windows the switch on the spelling misses a `PATH` spelled otherwise:
      `Path` overlaid by `PATH` is overridden, not merged. */
  lemma CombinePathSpelledDifferently()
    ensures var cfg := Config(true, true, ';');
            var a := map["path" := Entry("Path", Some("C:\\a"))];
            var b := map["path" := Entry("PATH", Some("C:\\b"))];
            CombineEntries(cfg, a, b) == map["path" := Entry("Path", Some("C:\\b"))]
  {
    var cfg := Config(true, true, ';');
    var a := map["path" := Entry("Path", Some("C:\\a"))];
    var b := map["path" := Entry("PATH", Some("C:\\b"))];
    assert CombineEntries(cfg, a, b).Keys == {"path"};
  }

  // ---------------------------------------------------------------------------
  // PATH editing
  // ---------------------------------------------------------------------------

  /** `SplitPath`: the non-empty entries of a `PATH` value. */
  function SplitPath(cfg: Config, value: string): seq<string> {
    Split(value, cfg.pathSeparator)
  }

  /** `JoinPaths`: entries joined with the path separator. */
  function JoinPaths(cfg: Config, paths: seq<string>): string {
    Join(paths, cfg.pathSeparator)
  }

  /** `SplitPath` yields only non-empty entries free of the separator. */
  lemma SplitPathEntries(cfg: Config, value: string)
    ensures forall p :: p in SplitPath(cfg, value) ==> p != "" && cfg.pathSeparator !in p
  {
    SplitYieldsSegments(value, cfg.pathSeparator);
  }

  /** Joining the entries of a `PATH` value that has no empty entry gives it back. */
  lemma JoinSplitPath(cfg: Config, value: string)
    requires value != ""
    requires forall i :: 0 <= i < |SplitRaw(value, cfg.pathSeparator)| ==> SplitRaw(value, cfg.pathSeparator)[i] != ""
    ensures JoinPaths(cfg, SplitPath(cfg, value)) == value
  {
    JoinSplit(value, cfg.pathSeparator);
  }

  /** Splitting joined entries gives them back when none is empty or holds the separator. */
  lemma SplitJoinPaths(cfg: Config, paths: seq<string>)
    requires Segments(paths, cfg.pathSeparator)
    ensures SplitPath(cfg, JoinPaths(cfg, paths)) == paths
  {
    SplitJoin(paths, cfg.pathSeparator);
  }

  /** The given paths that are neither null nor empty, in order. */
  function NonEmptyPaths(paths: seq<Option<string>>): (r: seq<string>)
    ensures forall i :: 0 <= i < |r| ==> r[i] != ""
    ensures forall p :: p in r <==> Some(p) in paths && p != ""
  {
    if paths == [] then []
    else
      var rest := NonEmptyPaths(paths[1..]);
      assert forall x :: x in paths <==> x == paths[0] || x in paths[1..];
      if paths[0].Some? && paths[0].value != "" then [paths[0].value] + rest else rest
  }

  /** The `PATH` value after `PrependPaths(paths)` given its current value. */
  function PrependedPath(cfg: Config, current: Option<string>, paths: seq<Option<string>>): string {
    JoinPaths(cfg, Distinct(NonEmptyPaths(paths) + SplitPath(cfg, current.GetOr("")), PathKey(cfg)))
  }

  ghost predicate NoSeparatorIn(cfg: Config, paths: seq<Option<string>>) {
    forall i :: 0 <= i < |paths| && paths[i].Some? ==> cfg.pathSeparator !in paths[i].value
  }

  /** The entries of the new `PATH`: the given directories first, in order and
      once each, then the previous entries that were not among them. */
  lemma PrependedPathEntries(cfg: Config, current: Option<string>, paths: seq<Option<string>>)
    requires NoSeparatorIn(cfg, paths)
    ensures var sep := cfg.pathSeparator;
            var given := NonEmptyPaths(paths);
            var prior := Split(current.GetOr(""), sep);
            var r := Split(PrependedPath(cfg, current, paths), sep);
            && r == Distinct(given, PathKey(cfg)) + DistinctExcept(prior, PathKey(cfg), KeysOf(given, PathKey(cfg)))
            && UniqueKeys(r, PathKey(cfg))
            && (forall p :: p in given + prior ==> exists q :: q in r && PathKey(cfg)(q) == PathKey(cfg)(p))
  {
    var sep := cfg.pathSeparator;
    var key := PathKey(cfg);
    var given := NonEmptyPaths(paths);
    var prior := Split(current.GetOr(""), sep);
    SplitYieldsSegments(current.GetOr(""), sep);
    forall i | 0 <= i < |given| ensures sep !in given[i] {
      assert given[i] in given;
    }
    SegmentsAppend(given, prior, sep);
    JoinOfDistinctSegments(given + prior, key, sep);
    DistinctExceptAppend(given, prior, key, {});
    assert {} + KeysOf(given, key) == KeysOf(given, key);
    DistinctExceptUnique(given + prior, key, {});
    DistinctExceptCovers(given + prior, key, {});
  }

  /** The first prepended directory heads the new `PATH`. */
  lemma PrependedPathFirst(cfg: Config, current: Option<string>, paths: seq<Option<string>>, first: string)
    requires NoSeparatorIn(cfg, paths)
    requires |paths| > 0 && paths[0] == Some(first) && first != ""
    ensures var r := SplitPath(cfg, PrependedPath(cfg, current, paths));
            |r| > 0 && r[0] == first
  {
    var given := NonEmptyPaths(paths);
    assert given == [first] + NonEmptyPaths(paths[1..]);
    PrependedPathEntries(cfg, current, paths);
    assert Distinct(given, PathKey(cfg))[0] == first;
  }

  /** Prepending the same directories a second time leaves `PATH` as it is. */
  lemma PrependPathsIdempotent(cfg: Config, current: Option<string>, paths: seq<Option<string>>)
    requires NoSeparatorIn(cfg, paths)
    ensures var once := PrependedPath(cfg, current, paths);
            PrependedPath(cfg, Some(once), paths) == once
  {
    var sep := cfg.pathSeparator;
    var key := PathKey(cfg);
    var given := NonEmptyPaths(paths);
    var prior := Split(current.GetOr(""), sep);
    SplitYieldsSegments(current.GetOr(""), sep);
    forall i | 0 <= i < |given| ensures sep !in given[i] {
      assert given[i] in given;
    }
    SegmentsAppend(given, prior, sep);
    JoinOfDistinctSegments(given + prior, key, sep);
    DistinctPrependAgain(given, prior, key);
  }

  /** The paths `RemovePaths` takes out, in canonical form (a null path
      matches nothing). */
  function ExcludedKeys(cfg: Config, paths: seq<Option<string>>): set<string> {
    set i | 0 <= i < |paths| && paths[i].Some? :: PathKey(cfg)(paths[i].value)
  }

  /** The `PATH` value after `RemovePaths(paths)`: LINQ `Except` keeps each
      remaining entry once. */
  function RemovedPath(cfg: Config, path: string, paths: seq<Option<string>>): string {
    JoinPaths(cfg, DistinctExcept(SplitPath(cfg, path), PathKey(cfg), ExcludedKeys(cfg, paths)))
  }

  /** After removal the entries are those of `path` that match no removed
      path, in their original order and each once (as `Except` keeps the order
      of its first sequence): no entry matches a removed path, every other
      entry is still there, and none is repeated. */
  lemma RemovedPathEntries(cfg: Config, path: string, paths: seq<Option<string>>)
    ensures var sep := cfg.pathSeparator;
            var key := PathKey(cfg);
            var r := Split(RemovedPath(cfg, path, paths), sep);
            && r == DistinctExcept(Split(path, sep), key, ExcludedKeys(cfg, paths))
            && (forall q :: q in r ==> q in Split(path, sep) && key(q) !in ExcludedKeys(cfg, paths))
            && (forall p :: p in Split(path, sep) && key(p) !in ExcludedKeys(cfg, paths) ==>
                  exists q :: q in r && key(q) == key(p))
            && UniqueKeys(r, key)
  {
    var sep := cfg.pathSeparator;
    var key := PathKey(cfg);
    var ex := ExcludedKeys(cfg, paths);
    var parts := Split(path, sep);
    SplitYieldsSegments(path, sep);
    DistinctExceptSubset(parts, key, ex);
    SegmentsOfSubset(parts, DistinctExcept(parts, key, ex), sep);
    SplitJoin(DistinctExcept(parts, key, ex), sep);
    DistinctExceptUnique(parts, key, ex);
    DistinctExceptCovers(parts, key, ex);
  }

  /** Removing the same paths twice is the same as removing them once. */
  lemma RemovePathsIdempotent(cfg: Config, path: string, paths: seq<Option<string>>)
    ensures RemovedPath(cfg, RemovedPath(cfg, path, paths), paths) == RemovedPath(cfg, path, paths)
  {
    var sep := cfg.pathSeparator;
    var key := PathKey(cfg);
    var ex := ExcludedKeys(cfg, paths);
    var parts := Split(path, sep);
    SplitYieldsSegments(path, sep);
    DistinctExceptSubset(parts, key, ex);
    SegmentsOfSubset(parts, DistinctExcept(parts, key, ex), sep);
    SplitJoin(DistinctExcept(parts, key, ex), sep);
    DistinctExceptIdempotent(parts, key, ex);
  }

  // ---------------------------------------------------------------------------
  // A mutable environment dictionary
  // ---------------------------------------------------------------------------

  /** Part way through an in-place overlay of `a` towards `target`: the keys
      in `done` hold their target entries, the other keys of `a` are
      untouched. */
  ghost predicate OverlayProgress(a: Env, target: Env, entries: Env, done: set<string>) {
    && entries.Keys == a.Keys + done
    && (forall k :: k in done ==> k in target && entries[k] == target[k])
    && (forall k :: k in a && k !in done ==> entries[k] == a[k])
  }

  /** One step of the overlay of `b` on `a`: the name read at `k` is `k`'s
      own, the value read there is the combined one, and writing it extends
      the progress. */
  lemma CombineStep(cfg: Config, a: Env, b: Env, entries: Env, done: set<string>, k: string)
    requires Wf(cfg, entries) && Wf(cfg, b)
    requires OverlayProgress(a, CombineEntries(cfg, a, b), entries, done)
    requires k in a.Keys + b.Keys && k !in done
    ensures var name := if k in entries then entries[k].name else b[k].name;
            && NameKey(cfg, name) == k
            && CombinedAt(cfg, entries, b, k) == CombinedAt(cfg, a, b, k)
            && OverlayProgress(a, CombineEntries(cfg, a, b), SetValue(cfg, entries, name, CombinedAt(cfg, a, b, k)), done + {k})
  {
    var target := CombineEntries(cfg, a, b);
    var name := if k in entries then entries[k].name else b[k].name;
    assert k in entries <==> k in a;
    assert k in target && target[k] == Entry(name, CombinedAt(cfg, a, b, k));
    OverlayStep(a, target, entries, done, k);
  }

  lemma OverlayStep(a: Env, target: Env, entries: Env, done: set<string>, k: string)
    requires OverlayProgress(a, target, entries, done) && k in target
    ensures OverlayProgress(a, target, entries[k := target[k]], done + {k})
  {
  }

  /** A `Dictionary<string, string?>` created with the name comparer, such as a
      process start-up environment, edited in place. */
  class EnvironmentDictionary {
    const cfg: Config
    var entries: Env

    ghost predicate Valid()
      reads this
    {
      Wf(cfg, entries)
    }

    /** `Create()`: an empty dictionary. */
    constructor (cfg: Config)
      ensures this.cfg == cfg && entries == map[]
      ensures Valid()
    {
      this.cfg := cfg;
      entries := map[];
    }

    /** A dictionary holding the variables of `env`. */
    constructor FromEnv(cfg: Config, env: Env)
      requires Wf(cfg, env)
      ensures this.cfg == cfg && entries == env
      ensures Valid()
    {
      this.cfg := cfg;
      entries := env;
    }

    function Get(name: string): (r: Option<Option<string>>)
      reads this
      ensures r == TryGetValue(cfg, entries, name)
    {
      TryGetValue(cfg, entries, name)
    }

    function ContainsKey(name: string): (r: bool)
      reads this
      ensures r <==> ContainsName(cfg, entries, name)
    {
      NameKey(cfg, name) in entries
    }

    method Set(name: string, value: Option<string>)
      requires Valid()
      modifies this
      ensures Valid()
      ensures entries == SetValue(cfg, old(entries), name, value)
    {
      SetValueWf(cfg, entries, name, value);
      entries := SetValue(cfg, entries, name, value);
    }

    /** `CombineWith(other)`: overlays `other` on this dictionary in place,
        name by name over the union of both key sets. */
    method CombineWith(other: Option<Env>)
      requires Valid()
      requires other.Some? ==> Wf(cfg, other.value)
      modifies this
      ensures Valid()
      ensures other.None? ==> entries == old(entries)
      ensures other.Some? ==> entries == CombineEntries(cfg, old(entries), other.value)
    {
      if other.None? {
        return;
      }
      var b := other.value;
      ghost var a := entries;
      ghost var target := CombineEntries(cfg, a, b);
      var pending := entries.Keys + b.Keys;
      ghost var done: set<string> := {};
      while pending != {}
        invariant Valid()
        invariant pending + done == a.Keys + b.Keys && pending !! done
        invariant OverlayProgress(a, CombineEntries(cfg, a, b), entries, done)
        decreases pending
      {
        var k :| k in pending;
        var name := if k in entries then entries[k].name else b[k].name;
        CombineStep(cfg, a, b, entries, done, k);
        var value := CombineLookedUp(name, b);
        Set(name, value);
        pending := pending - {k};
        done := done + {k};
      }
      assert entries.Keys == CombineEntries(cfg, a, b).Keys;
    }

    /** The value `CombineValues(env, other, name)` reads from this dictionary
        and `other`, the name being in one of them. */
    function CombineLookedUp(name: string, b: Env): (r: Option<string>)
      reads this
      requires NameKey(cfg, name) in entries || NameKey(cfg, name) in b
      requires NameKey(cfg, name) in entries ==> entries[NameKey(cfg, name)].name == name
      ensures r == CombinedAt(cfg, entries, b, NameKey(cfg, name))
    {
      var va := TryGetValue(cfg, entries, name);
      var vb := TryGetValue(cfg, b, name);
      if va.Some? && vb.Some? then CombineValue(cfg, name, va.value, vb.value)
      else if va.Some? then va.value
      else vb.value
    }

    /** `PrependPaths(paths)`: puts the non-empty `paths` in front of `PATH`,
        dropping later duplicates. */
    method PrependPaths(paths: seq<Option<string>>)
      requires Valid()
      modifies this
      ensures Valid()
      ensures entries == SetValue(cfg, old(entries), PathVariable,
                                  Some(PrependedPath(cfg, GetValueOrNull(cfg, old(entries), PathVariable), paths)))
    {
      var current := GetValueOrNull(cfg, entries, PathVariable);
      Set(PathVariable, Some(PrependedPath(cfg, current, paths)));
    }

    /** `RemovePaths(paths)`: takes `paths` out of a non-empty `PATH`. */
    method RemovePaths(paths: seq<Option<string>>)
      requires Valid()
      modifies this
      ensures Valid()
      ensures var path := GetValueOrNull(cfg, old(entries), PathVariable);
              if path.Some? && path.value != "" then
                entries == SetValue(cfg, old(entries), PathVariable, Some(RemovedPath(cfg, path.value, paths)))
              else
                entries == old(entries)
    {
      var path := TryGetValue(cfg, entries, PathVariable);
      if path.Some? && path.value.Some? && path.value.value != "" {
        Set(PathVariable, Some(RemovedPath(cfg, path.value.value, paths)));
      }
    }
  }
}
