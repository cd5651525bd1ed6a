/** The toolkit registry and selector (`ToolkitServices`): which families a
    host supports, the order in which discovered toolkits are offered, how the
    names a user gives select among them, and how a scriptable backend and the
    environment toolkits layered over it are chosen. Toolkits are referred to
    by their position in the pool, which stands for object identity. */
module ToolkitServices {
  import opened Wrappers
  import opened Text
  import opened ToolkitEnvironment
  import opened Toolkits
  import MSys2Toolkit
  import CygwinToolkit
  import WslToolkit
  import SystemToolkit
  import HomebrewToolkit

  // ---------------------------------------------------------------------------
  // Choosing the backend
  // ---------------------------------------------------------------------------

  /** The backend and the environment toolkits seen before it, in order. With
      no environment toolkit the backend is used by itself; otherwise they are
      wrapped in a `MetaToolkit`. */
  datatype Choice = Choice(backend: Toolkit, contributors: seq<Toolkit>)

  /** The environment toolkits among `toolkits`, in order. */
  function Environments(toolkits: seq<Toolkit>): (r: seq<Toolkit>)
    ensures forall t :: t in r ==> t in toolkits && t.IsEnvironment()
    ensures forall i :: 0 <= i < |toolkits| && toolkits[i].IsEnvironment() ==> toolkits[i] in r
    ensures |r| <= |toolkits|
  {
    if toolkits == [] then []
    else
      var init, last := toolkits[..|toolkits| - 1], toolkits[|toolkits| - 1];
      assert forall i :: 0 <= i < |init| ==> init[i] == toolkits[i];
      Environments(init) + (if last.IsEnvironment() then [last] else [])
  }

  /** Collecting keeps the order of the candidates: the environments of a
      concatenation are those of the first part followed by those of the
      second. */
  lemma {:induction false} EnvironmentsAppend(a: seq<Toolkit>, b: seq<Toolkit>)
    ensures Environments(a + b) == Environments(a) + Environments(b)
    decreases |b|
  {
    if b != [] {
      var b' := b[..|b| - 1];
      assert (a + b)[..|a + b| - 1] == a + b';
      assert (a + b)[|a + b| - 1] == b[|b| - 1];
      EnvironmentsAppend(a, b');
    } else {
      assert a + b == a;
    }
  }

  /** A candidate is accepted when it is scriptable and, once an environment
      toolkit has been seen, runs without isolation. */
  predicate Accepts(seen: seq<Toolkit>, t: Toolkit) {
    t.IsScriptable() && (seen == [] || t.IsNonIsolatedScriptable())
  }

  /** The candidate at `j` is accepted, given the environment toolkits before
      it. */
  predicate AcceptedAt(toolkits: seq<Toolkit>, j: nat)
    requires j < |toolkits|
  {
    Accepts(Environments(toolkits[..j]), toolkits[j])
  }

  /** Reference definition: the first accepted candidate, with the
      environment toolkits before it. */
  function Choose(toolkits: seq<Toolkit>): Option<Choice> {
    ChooseFrom(toolkits, 0)
  }

  function ChooseFrom(toolkits: seq<Toolkit>, i: nat): Option<Choice>
    requires i <= |toolkits|
    decreases |toolkits| - i
  {
    if i == |toolkits| then None
    else if AcceptedAt(toolkits, i) then Some(Choice(toolkits[i], Environments(toolkits[..i])))
    else ChooseFrom(toolkits, i + 1)
  }

  /** `TryGetScriptableToolkit`. */
  method TryGetScriptableToolkit(toolkits: seq<Toolkit>) returns (r: Option<Choice>)
    ensures r == Choose(toolkits)
  {
    var scriptableToolkit: Option<Toolkit> := None;
    var toolkitEnvironments: seq<Toolkit> := [];
    var i := 0;
    while i < |toolkits|
      invariant 0 <= i <= |toolkits|
      invariant toolkitEnvironments == Environments(toolkits[..i])
      invariant ChooseFrom(toolkits, 0) == ChooseFrom(toolkits, i)
    {
      var toolkit := toolkits[i];
      if toolkit.IsScriptable() && (toolkitEnvironments == [] || toolkit.scripting.value.isolation == NoIsolation) {
        scriptableToolkit := Some(toolkit);
        break;
      }
      if toolkit.IsEnvironment() {
        toolkitEnvironments := toolkitEnvironments + [toolkit];
      }
      assert toolkits[..i + 1][..i] == toolkits[..i];
      i := i + 1;
    }
    if scriptableToolkit.None? {
      return None;
    }
    return Some(Choice(scriptableToolkit.value, toolkitEnvironments));
  }

  /** There is no choice iff no candidate is accepted. */
  lemma {:induction false} ChooseFromNone(toolkits: seq<Toolkit>, i: nat)
    requires i <= |toolkits|
    ensures ChooseFrom(toolkits, i).None? <==> forall j :: i <= j < |toolkits| ==> !AcceptedAt(toolkits, j)
    decreases |toolkits| - i
  {
    if i == |toolkits| {
    } else if AcceptedAt(toolkits, i) {
      assert ChooseFrom(toolkits, i).Some?;
    } else {
      assert ChooseFrom(toolkits, i) == ChooseFrom(toolkits, i + 1);
      ChooseFromNone(toolkits, i + 1);
      if ChooseFrom(toolkits, i + 1).None? {
        forall j | i <= j < |toolkits|
          ensures !AcceptedAt(toolkits, j)
        {
          if j == i {
            assert !AcceptedAt(toolkits, i);
          }
        }
      }
    }
  }

  /** The choice is the first accepted candidate: every toolkit before it was
      rejected, and its contributors are exactly the environment toolkits
      before it. */
  lemma {:induction false} ChooseFromFirstAccepted(toolkits: seq<Toolkit>, i: nat)
    requires i <= |toolkits| && ChooseFrom(toolkits, i).Some?
    ensures exists j :: i <= j < |toolkits| && AcceptedAt(toolkits, j)
              && (forall m :: i <= m < j ==> !AcceptedAt(toolkits, m))
              && ChooseFrom(toolkits, i).value == Choice(toolkits[j], Environments(toolkits[..j]))
    decreases |toolkits| - i
  {
    if !AcceptedAt(toolkits, i) {
      ChooseFromFirstAccepted(toolkits, i + 1);
      var j :| i + 1 <= j < |toolkits| && AcceptedAt(toolkits, j)
              && (forall m :: i + 1 <= m < j ==> !AcceptedAt(toolkits, m))
              && ChooseFrom(toolkits, i + 1).value == Choice(toolkits[j], Environments(toolkits[..j]));
      assert forall m :: i <= m < j ==> !AcceptedAt(toolkits, m);
    } else {
      assert AcceptedAt(toolkits, i);
    }
  }

  /** A scriptable toolkit that comes first is always chosen, whatever its
      isolation; after an environment toolkit only a non-isolated one is. */
  lemma ChooseFirstScriptable(toolkits: seq<Toolkit>)
    requires |toolkits| > 0 && toolkits[0].IsScriptable()
    ensures Choose(toolkits) == Some(Choice(toolkits[0], []))
  {
    assert Environments(toolkits[..0]) == [];
  }

  /** An environment toolkit followed by an isolated and then a non-isolated
      scriptable toolkit: the isolated one is skipped, and the environment
      toolkit wraps the non-isolated one. */
  lemma ChooseSkipsIsolated(env: Toolkit, isolated: Toolkit, native: Toolkit)
    requires env.IsEnvironment() && !env.IsScriptable()
    requires isolated.IsScriptable() && !isolated.IsNonIsolatedScriptable() && !isolated.IsEnvironment()
    requires native.IsNonIsolatedScriptable()
    ensures Choose([env, isolated, native]) == Some(Choice(native, [env]))
  {
    var ts := [env, isolated, native];
    assert ts[..0] == [];
    assert !AcceptedAt(ts, 0);
    assert ts[..1] == [env] && ts[..1][..0] == [];
    assert Environments(ts[..1]) == [env];
    assert !AcceptedAt(ts, 1);
    assert ts[..2][..1] == ts[..1];
    assert Environments(ts[..2]) == [env];
    assert AcceptedAt(ts, 2);
    assert ChooseFrom(ts, 2) == Some(Choice(native, [env]));
    assert ChooseFrom(ts, 1) == ChooseFrom(ts, 2);
  }

  // ---------------------------------------------------------------------------
  // Selecting by name
  // ---------------------------------------------------------------------------

  /** The name that asks for automatic selection. */
  const AutoName: string := "auto"

  /** `name` asks for automatic selection. */
  predicate IsAuto(name: string) {
    EqualsIgnoreCase(name, AutoName)
  }

  /** The toolkit's name (or its family's name) equals `name` ignoring case. */
  predicate Matches(t: Toolkit, name: string, byFamily: bool) {
    EqualsIgnoreCase(if byFamily then t.family.name else t.name, name)
  }

  /** The first index at or after `i` whose toolkit name (or family name)
      equals `name` ignoring case. */
  function FirstMatch(pool: seq<Toolkit>, name: string, byFamily: bool, i: nat): (r: Option<nat>)
    requires i <= |pool|
    ensures r.None? ==> forall j :: i <= j < |pool| ==> !Matches(pool[j], name, byFamily)
    ensures r.Some? ==> i <= r.value < |pool| && Matches(pool[r.value], name, byFamily)
    ensures r.Some? ==> forall j :: i <= j < r.value ==> !Matches(pool[j], name, byFamily)
    decreases |pool| - i
  {
    if i == |pool| then None
    else if Matches(pool[i], name, byFamily) then Some(i)
    else FirstMatch(pool, name, byFamily, i + 1)
  }

  /** The toolkit a name selects: the first with that name, otherwise the
      first of a family with that name. */
  function Resolve(pool: seq<Toolkit>, name: string): Option<nat> {
    var byName := FirstMatch(pool, name, false, 0);
    if byName.Some? then byName else FirstMatch(pool, name, true, 0)
  }

  /** A name selects the first toolkit it names; only when no toolkit has that
      name does it select the first toolkit of the family with that name; and
      it selects nothing when neither exists. */
  lemma ResolveChoosesFirst(pool: seq<Toolkit>, name: string)
    ensures var r := Resolve(pool, name);
            && (r.None? <==> forall j :: 0 <= j < |pool| ==> !Matches(pool[j], name, false) && !Matches(pool[j], name, true))
            && (r.Some? ==> r.value < |pool|)
            && ((exists j :: 0 <= j < |pool| && Matches(pool[j], name, false)) ==>
                  r.Some? && Matches(pool[r.value], name, false)
                  && forall j :: 0 <= j < r.value ==> !Matches(pool[j], name, false))
            && ((forall j :: 0 <= j < |pool| ==> !Matches(pool[j], name, false)) && r.Some? ==>
                  Matches(pool[r.value], name, true)
                  && forall j :: 0 <= j < r.value ==> !Matches(pool[j], name, true))
  {
  }

  /** The toolkits the names select, in the order of the names; names that
      select nothing are skipped. */
  function ResolveAll(pool: seq<Toolkit>, names: seq<string>): (r: seq<nat>)
    ensures forall j :: j in r ==> j < |pool|
  {
    if names == [] then []
    else
      var last := Resolve(pool, names[|names| - 1]);
      ResolveFacts(pool, names[|names| - 1]);
      ResolveAll(pool, names[..|names| - 1]) + (if last.Some? then [last.value] else [])
  }

  lemma ResolveFacts(pool: seq<Toolkit>, name: string)
    ensures Resolve(pool, name).Some? ==> Resolve(pool, name).value < |pool|
  {
    ResolveChoosesFirst(pool, name);
  }

  /** The position of the first `auto` among the names, if any. */
  function AutoAt(names: seq<string>): (r: Option<nat>)
    ensures r.Some? ==> r.value < |names| && IsAuto(names[r.value])
    ensures r.Some? ==> forall j :: 0 <= j < r.value ==> !IsAuto(names[j])
    ensures r.None? <==> forall j :: 0 <= j < |names| ==> !IsAuto(names[j])
  {
    AutoFrom(names, 0)
  }

  /** The position of the first `auto` at or after `i`. */
  function AutoFrom(names: seq<string>, i: nat): (r: Option<nat>)
    requires i <= |names|
    ensures r.Some? ==> i <= r.value < |names| && IsAuto(names[r.value])
    ensures r.Some? ==> forall j :: i <= j < r.value ==> !IsAuto(names[j])
    ensures r.None? <==> forall j :: i <= j < |names| ==> !IsAuto(names[j])
    decreases |names| - i
  {
    if i == |names| then None
    else if IsAuto(names[i]) then Some(i)
    else AutoFrom(names, i + 1)
  }

  lemma AutoAtFirst(names: seq<string>, i: nat)
    requires i < |names| && IsAuto(names[i])
    requires forall j :: 0 <= j < i ==> !IsAuto(names[j])
    ensures AutoAt(names) == Some(i)
  {
  }

  /** `0, 1, …, n - 1`: the whole pool in order. */
  function Indices(n: nat): (r: seq<nat>)
    ensures |r| == n && forall j :: 0 <= j < n ==> r[j] == j
  {
    if n == 0 then [] else Indices(n - 1) + [n - 1]
  }

  function Identity(j: nat): nat { j }

  /** The first scriptable toolkit of the pool that runs without isolation. */
  function FirstNonIsolatedScriptable(pool: seq<Toolkit>, i: nat): (r: Option<nat>)
    requires i <= |pool|
    ensures r.Some? ==> i <= r.value < |pool| && pool[r.value].IsNonIsolatedScriptable()
    ensures r.Some? ==> forall j :: i <= j < r.value ==> !pool[j].IsNonIsolatedScriptable()
    ensures r.None? ==> forall j :: i <= j < |pool| ==> !pool[j].IsNonIsolatedScriptable()
    decreases |pool| - i
  {
    if i == |pool| then None
    else if pool[i].IsNonIsolatedScriptable() then Some(i)
    else FirstNonIsolatedScriptable(pool, i + 1)
  }

  /** The selection lacks a backend: it has an environment toolkit but no
      scriptable one. */
  predicate NeedsBackend(pool: seq<Toolkit>, selected: seq<nat>)
    requires forall j :: j in selected ==> j < |pool|
  {
    && (forall j :: j in selected ==> !pool[j].IsScriptable())
    && (exists j :: j in selected && pool[j].IsEnvironment())
  }

  /** The post-pass that adds an implicit backend. */
  function WithBackend(pool: seq<Toolkit>, selected: seq<nat>): (r: seq<nat>)
    requires forall j :: j in selected ==> j < |pool|
    ensures forall j :: j in r ==> j < |pool|
  {
    if selected != [] && NeedsBackend(pool, selected) then
      var backend := FirstNonIsolatedScriptable(pool, 0);
      if backend.Some? then selected + [backend.value] else selected
    else selected
  }

  /** `selected?.Union(pool) ?? pool`: the pool itself when nothing was
      selected, else the selected toolkits followed by the others, each
      once. */
  function UnionWithPool(pool: seq<Toolkit>, selected: seq<nat>): seq<nat> {
    if selected == [] then Indices(|pool|) else Distinct(selected + Indices(|pool|), Identity)
  }

  /** Reference definition of `SelectToolkits`: with no names the whole pool;
      at the first `auto` the toolkits selected so far, then the rest of the
      pool, each once; otherwise the selected toolkits with an implicit backend
      added when needed. */
  function Selected(pool: seq<Toolkit>, names: Option<seq<string>>): seq<nat> {
    if names.None? then Indices(|pool|)
    else
      var ns := names.value;
      var auto := AutoAt(ns);
      if auto.Some? then
        UnionWithPool(pool, ResolveAll(pool, ns[..auto.value]))
      else WithBackend(pool, ResolveAll(pool, ns))
  }

  /** `SelectToolkits`. */
  method SelectToolkits(pool: seq<Toolkit>, names: Option<seq<string>>) returns (r: seq<nat>)
    ensures r == Selected(pool, names)
  {
    if names.None? {
      return Indices(|pool|);
    }
    var ns := names.value;
    var selectedToolkits: seq<nat> := [];
    var i := 0;
    while i < |ns|
      invariant 0 <= i <= |ns|
      invariant forall j :: 0 <= j < i ==> !IsAuto(ns[j])
      invariant selectedToolkits == ResolveAll(pool, ns[..i])
    {
      var name := ns[i];
      if IsAuto(name) {
        SelectedAtAuto(pool, ns, i);
        return UnionWithPool(pool, selectedToolkits);
      }
      var selectedToolkit := ResolveName(pool, name);
      if selectedToolkit.Some? {
        selectedToolkits := selectedToolkits + [selectedToolkit.value];
      }
      ResolveAllStep(pool, ns, i);
      NoAutoStep(ns, i);
      i := i + 1;
    }
    SelectedWithoutAuto(pool, ns);
    r := AddImplicitBackend(pool, selectedToolkits);
  }

  /** The selection made when the first `auto` is at position `i`. */
  lemma SelectedAtAuto(pool: seq<Toolkit>, ns: seq<string>, i: nat)
    requires i < |ns| && IsAuto(ns[i])
    requires forall j :: 0 <= j < i ==> !IsAuto(ns[j])
    ensures Selected(pool, Some(ns)) == UnionWithPool(pool, ResolveAll(pool, ns[..i]))
  {
    AutoAtFirst(ns, i);
  }

  /** The selection made by names without `auto`. */
  lemma SelectedWithoutAuto(pool: seq<Toolkit>, ns: seq<string>)
    requires forall j :: 0 <= j < |ns| ==> !IsAuto(ns[j])
    ensures Selected(pool, Some(ns)) == WithBackend(pool, ResolveAll(pool, ns[..|ns|]))
  {
    assert ns[..|ns|] == ns;
  }

  /** One more name that is not `auto`. */
  lemma NoAutoStep(ns: seq<string>, i: nat)
    requires i < |ns| && !IsAuto(ns[i])
    requires forall j :: 0 <= j < i ==> !IsAuto(ns[j])
    ensures forall j :: 0 <= j < i + 1 ==> !IsAuto(ns[j])
  {
  }

  /** One more name resolved. */
  lemma ResolveAllStep(pool: seq<Toolkit>, ns: seq<string>, i: nat)
    requires i < |ns|
    ensures ResolveAll(pool, ns[..i + 1]) ==
            ResolveAll(pool, ns[..i]) + (if Resolve(pool, ns[i]).Some? then [Resolve(pool, ns[i]).value] else [])
  {
    assert ns[..i + 1] == ns[..i] + [ns[i]];
    ResolveAllAppend(pool, ns[..i], ns[i]);
  }

  /** A name resolved by toolkit name, else by family name. */
  method ResolveName(pool: seq<Toolkit>, name: string) returns (r: Option<nat>)
    ensures r == Resolve(pool, name)
    ensures r.Some? ==> r.value < |pool|
  {
    r := FirstMatch(pool, name, false, 0);
    if r.None? {
      r := FirstMatch(pool, name, true, 0);
    }
  }

  /** Step 3 of `SelectToolkits`: a selection with an environment toolkit but
      no scriptable one gets the pool's first non-isolated scriptable toolkit,
      if there is one. */
  method AddImplicitBackend(pool: seq<Toolkit>, selectedToolkits: seq<nat>) returns (r: seq<nat>)
    requires forall j :: j in selectedToolkits ==> j < |pool|
    ensures r == WithBackend(pool, selectedToolkits)
  {
    r := selectedToolkits;
    if selectedToolkits != [] && NeedsBackend(pool, selectedToolkits) {
      var scriptableToolkit := FirstNonIsolatedScriptable(pool, 0);
      if scriptableToolkit.Some? {
        r := selectedToolkits + [scriptableToolkit.value];
      }
    }
  }

  /** The pool in order has no repeated index. */
  lemma IndicesUnique(n: nat)
    ensures UniqueKeys(Indices(n), Identity)
  {
  }

  /** With `auto`, the toolkits named before it come first, in order and each
      once, followed by the rest of the pool in pool order. */
  lemma AutoOrder(pool: seq<Toolkit>, names: seq<string>)
    requires AutoAt(names).Some?
    ensures var before := ResolveAll(pool, names[..AutoAt(names).value]);
            Selected(pool, Some(names)) ==
              Distinct(before, Identity) + DistinctExcept(Indices(|pool|), Identity, KeysOf(before, Identity))
  {
    UnionWithPoolOrder(pool, ResolveAll(pool, names[..AutoAt(names).value]));
  }

  lemma UnionWithPoolOrder(pool: seq<Toolkit>, before: seq<nat>)
    ensures UnionWithPool(pool, before) ==
              Distinct(before, Identity) + DistinctExcept(Indices(|pool|), Identity, KeysOf(before, Identity))
  {
    var all := Indices(|pool|);
    var none: set<nat> := {};
    if before == [] {
      assert Distinct(before, Identity) == [];
      assert KeysOf(before, Identity) == none;
      IndicesUnique(|pool|);
      DistinctOfUnique(all, Identity, none);
    } else {
      DistinctExceptAppend(before, all, Identity, none);
      assert none + KeysOf(before, Identity) == KeysOf(before, Identity);
    }
  }

  /** With `auto`, every toolkit of the pool is selected, exactly once. */
  lemma AutoSelectsAll(pool: seq<Toolkit>, names: seq<string>)
    requires AutoAt(names).Some?
    ensures var r := Selected(pool, Some(names));
            && UniqueKeys(r, Identity)
            && (forall j :: 0 <= j < |pool| <==> j in r)
  {
    var before := ResolveAll(pool, names[..AutoAt(names).value]);
    assert Selected(pool, Some(names)) == UnionWithPool(pool, before);
    UnionWithPoolUnique(pool, before);
    UnionWithPoolMembers(pool, before);
  }

  lemma UnionWithPoolUnique(pool: seq<Toolkit>, before: seq<nat>)
    ensures UniqueKeys(UnionWithPool(pool, before), Identity)
  {
    IndicesUnique(|pool|);
    if before != [] {
      DistinctExceptUnique(before + Indices(|pool|), Identity, {});
    }
  }

  lemma UnionWithPoolMembers(pool: seq<Toolkit>, before: seq<nat>)
    requires forall j :: j in before ==> j < |pool|
    ensures forall j :: 0 <= j < |pool| <==> j in UnionWithPool(pool, before)
  {
    var all := Indices(|pool|);
    var r := UnionWithPool(pool, before);
    if before != [] {
      DistinctExceptSubset(before + all, Identity, {});
      DistinctExceptCovers(before + all, Identity, {});
      forall j | 0 <= j < |pool|
        ensures j in r
      {
        assert all[j] == j;
        assert j in before + all;
        var y :| y in r && Identity(y) == Identity(j);
      }
    } else {
      forall j | 0 <= j < |pool|
        ensures j in r
      {
        assert all[j] == j;
      }
    }
  }

  /** Without `auto`, the named toolkits are selected in the order of the
      names, and one more — the pool's first non-isolated scriptable toolkit —
      is appended iff the selection has an environment toolkit but no
      scriptable one and the pool has such a toolkit. Nothing named gives an
      empty selection. */
  lemma SelectionByName(pool: seq<Toolkit>, names: seq<string>)
    requires AutoAt(names).None?
    ensures var r := Selected(pool, Some(names));
            var named := ResolveAll(pool, names);
            && |named| <= |r| <= |named| + 1
            && r[..|named|] == named
            && (named == [] ==> r == [])
            && (|r| == |named| + 1 <==>
                  named != [] && NeedsBackend(pool, named) && FirstNonIsolatedScriptable(pool, 0).Some?)
            && (|r| == |named| + 1 ==>
                  r[|named|] == FirstNonIsolatedScriptable(pool, 0).value
                  && pool[r[|named|]].IsNonIsolatedScriptable())
  {
    var named := ResolveAll(pool, names);
    var r := Selected(pool, Some(names));
    assert r == WithBackend(pool, named);
    if |r| == |named| + 1 {
      assert r[|named|] == FirstNonIsolatedScriptable(pool, 0).value;
    }
  }

  /** The toolkits selected by a list without `auto` are resolved name by
      name: the selection of `names + [name]` extends that of `names` by what
      `name` selects. */
  lemma ResolveAllAppend(pool: seq<Toolkit>, names: seq<string>, name: string)
    ensures ResolveAll(pool, names + [name]) ==
            ResolveAll(pool, names) + (if Resolve(pool, name).Some? then [Resolve(pool, name).value] else [])
  {
    assert (names + [name])[..|names|] == names;
  }

  // ---------------------------------------------------------------------------
  // Enumerating toolkits
  // ---------------------------------------------------------------------------

  /** What identifies a discovered toolkit: its name compared ordinally and
      its installation path compared by the host's path comparer. */
  function IdentityKey(cfg: Config): Toolkit -> (string, Option<string>) {
    (t: Toolkit) => (t.name, if t.installationPath.Some? then Some(PathKey(cfg)(t.installationPath.value)) else None)
  }

  /** `SelectMany(family => found(family))`. */
  function FromFamilies<F>(families: seq<F>, found: F -> seq<Toolkit>): seq<Toolkit> {
    if families == [] then [] else found(families[0]) + FromFamilies(families[1..], found)
  }

  /** Portable toolkits: for each path in order, each family's toolkits in
      that directory. */
  function PortableToolkits<F>(families: seq<F>, paths: seq<string>, inDirectory: (F, string) -> seq<Toolkit>): seq<Toolkit> {
    if paths == [] then []
    else FromFamilies(families, (f: F) => inDirectory(f, paths[0])) + PortableToolkits(families, paths[1..], inDirectory)
  }

  /** Installed toolkits, family by family. */
  function InstalledToolkits<F>(families: seq<F>, installed: F -> seq<Toolkit>): seq<Toolkit> {
    FromFamilies(families, installed)
  }

  /** `EnumerateToolkits`: portable toolkits first, then installed ones, the
      first of each identity kept. */
  function EnumerateToolkits<F>(
    cfg: Config, families: seq<F>, paths: seq<string>,
    inDirectory: (F, string) -> seq<Toolkit>, installed: F -> seq<Toolkit>): seq<Toolkit>
  {
    Distinct(PortableToolkits(families, paths, inDirectory) + InstalledToolkits(families, installed), IdentityKey(cfg))
  }

  /** No two enumerated toolkits share an identity; every discovered identity
      is represented; portable toolkits come first, and an installed toolkit
      appears only if no portable one has its identity. */
  lemma EnumerateToolkitsOrder<F>(
    cfg: Config, families: seq<F>, paths: seq<string>,
    inDirectory: (F, string) -> seq<Toolkit>, installed: F -> seq<Toolkit>)
    ensures var portable := PortableToolkits(families, paths, inDirectory);
            var inst := InstalledToolkits(families, installed);
            var key := IdentityKey(cfg);
            var r := EnumerateToolkits(cfg, families, paths, inDirectory, installed);
            && UniqueKeys(r, key)
            && (forall t :: t in portable + inst ==> exists u :: u in r && key(u) == key(t))
            && (forall u :: u in r ==> u in portable + inst)
            && r == Distinct(portable, key) + DistinctExcept(inst, key, KeysOf(portable, key))
  {
    var portable := PortableToolkits(families, paths, inDirectory);
    var inst := InstalledToolkits(families, installed);
    var key := IdentityKey(cfg);
    assert EnumerateToolkits(cfg, families, paths, inDirectory, installed) == Distinct(portable + inst, key);
    DistinctParts(portable, inst, key);
  }

  /** The properties of `Distinct` over the portable toolkits followed by the
      installed ones. */
  lemma DistinctParts<T, K>(portable: seq<T>, inst: seq<T>, key: T -> K)
    ensures var r := Distinct(portable + inst, key);
            && UniqueKeys(r, key)
            && (forall t :: t in portable + inst ==> exists u :: u in r && key(u) == key(t))
            && (forall u :: u in r ==> u in portable + inst)
            && r == Distinct(portable, key) + DistinctExcept(inst, key, KeysOf(portable, key))
  {
    var none: set<K> := {};
    DistinctExceptUnique(portable + inst, key, none);
    DistinctExceptCovers(portable + inst, key, none);
    DistinctExceptSubset(portable + inst, key, none);
    DistinctExceptAppend(portable, inst, key, none);
    assert none + KeysOf(portable, key) == KeysOf(portable, key);
  }

  /** A portable toolkit and an installed one with the same name and the same
      path (as the path comparer sees it) count as one: the portable one is
      kept. */
  lemma PortableWins(cfg: Config, portable: Toolkit, installed: Toolkit)
    requires IdentityKey(cfg)(portable) == IdentityKey(cfg)(installed)
    ensures Distinct([portable, installed], IdentityKey(cfg)) == [portable]
  {
    var key := IdentityKey(cfg);
    var xs := [portable, installed];
    assert xs[1..] == [installed] && [installed][1..] == [];
    assert DistinctExcept([installed], key, {key(portable)}) == [];
    assert {} + {key(portable)} == {key(portable)};
    assert DistinctExcept(xs, key, {}) == [portable] + DistinctExcept([installed], key, {key(portable)});
  }

  // ---------------------------------------------------------------------------
  // Supported families
  // ---------------------------------------------------------------------------

  /** `GetSupportedToolkitFamilies`, in priority order. */
  function SupportedFamilies(os: OS): seq<Family> {
    match os
    case Windows => [
      Family(MSys2Toolkit.FamilyName, MSys2Toolkit.Traits),
      Family(CygwinToolkit.FamilyName, CygwinToolkit.FamilyTraits),
      Family(WslToolkit.FamilyName, WslToolkit.FamilyTraits)]
    case Linux => [Family(SystemToolkit.FamilyName, SystemToolkit.FamilyTraits(os))]
    case MacOS => [
      Family(HomebrewToolkit.FamilyName, HomebrewToolkit.FamilyTraits),
      Family(SystemToolkit.FamilyName, SystemToolkit.FamilyTraits(os))]
    case OtherUnix => [Family(SystemToolkit.FamilyName, SystemToolkit.FamilyTraits(os))]
    case OtherOS => []
  }

  function FamilyNames(families: seq<Family>): (r: seq<string>)
    ensures |r| == |families| && forall i :: 0 <= i < |families| ==> r[i] == families[i].name
  {
    if families == [] then [] else [families[0].name] + FamilyNames(families[1..])
  }

  /** Which family is offered where: the system's own tools on every
      Unix-like host, Homebrew only on macOS (ahead of the system), the
      Windows families only on Windows (MSYS2, then Cygwin, then WSL), and no
      family twice. */
  lemma SupportedFamiliesByOS(os: OS)
    ensures var names := FamilyNames(SupportedFamilies(os));
            && (SystemToolkit.FamilyName in names <==> os in {Linux, MacOS, OtherUnix})
            && (HomebrewToolkit.FamilyName in names <==> os == MacOS)
            && (MSys2Toolkit.FamilyName in names <==> os == Windows)
            && (CygwinToolkit.FamilyName in names <==> os == Windows)
            && (WslToolkit.FamilyName in names <==> os == Windows)
            && (os == Windows ==> names == [MSys2Toolkit.FamilyName, CygwinToolkit.FamilyName, WslToolkit.FamilyName])
            && (os == MacOS ==> names == [HomebrewToolkit.FamilyName, SystemToolkit.FamilyName])
            && (forall i, j :: 0 <= i < j < |names| ==> names[i] != names[j])
  {
    var names := FamilyNames(SupportedFamilies(os));
    match os
    case Windows =>
      assert names == ["MSYS2", "Cygwin", "WSL"];
    case Linux =>
      assert names == ["System"];
    case MacOS =>
      assert names == ["Homebrew", "System"];
    case OtherUnix =>
      assert names == ["System"];
    case OtherOS =>
      assert names == [];
  }
}
