/** The composite toolkit (`MetaToolkit`): a scriptable backend with
    environment toolkits layered over it. Its name, description and traits are
    derived from the constituents once and then kept; its commands and files
    run on the backend with the contributors' variables merged into the
    caller's. */
module Meta {
  import opened Wrappers
  import opened Text
  import opened ToolkitEnvironment
  import opened Toolkits
  import LinguisticServices

  // ---------------------------------------------------------------------------
  // Folds
  // ---------------------------------------------------------------------------

  /** LINQ `Reverse`. */
  function Reverse<T>(xs: seq<T>): (r: seq<T>)
    ensures |r| == |xs|
  {
    if xs == [] then [] else Reverse(xs[1..]) + [xs[0]]
  }

  /** LINQ `Aggregate(ToolkitEnvironment.Combine)` on a non-empty sequence:
      a left fold seeded with the first block. */
  function FoldCombine(cfg: Config, envs: seq<Option<Env>>): Option<Env>
    requires |envs| >= 1
  {
    if |envs| == 1 then envs[0]
    else Combine(cfg, FoldCombine(cfg, envs[..|envs| - 1]), envs[|envs| - 1])
  }

  /** A block defines `k` when it is present and has an entry there. */
  predicate Defines(env: Option<Env>, k: string) {
    env.Some? && k in env.value
  }

  /** What a block holds at `k`: `None` when it does not define it. */
  function Lookup(env: Option<Env>, k: string): Option<Option<string>> {
    if Defines(env, k) then Some(env.value[k].value) else None
  }

  /** Neither `PATH` nor a flag variable: the later block simply wins. */
  predicate Ordinary(name: string) {
    name != PathVariable && !IsFlagsVariable(name)
  }

  /** Every block that defines `k` spells it as an ordinary variable. */
  ghost predicate OrdinaryAt(envs: seq<Option<Env>>, k: string) {
    forall j :: 0 <= j < |envs| && Defines(envs[j], k) ==> Ordinary(envs[j].value[k].name)
  }

  /** Reference definition: the value of the last block that defines `k`. */
  function Topmost(envs: seq<Option<Env>>, k: string): Option<Option<string>> {
    if envs == [] then None
    else if Defines(envs[|envs| - 1], k) then Lookup(envs[|envs| - 1], k)
    else Topmost(envs[..|envs| - 1], k)
  }

  /** Reference definition: the value of the first block that defines `k`. */
  function First(envs: seq<Option<Env>>, k: string): Option<Option<string>> {
    if envs == [] then None
    else if Defines(envs[0], k) then Lookup(envs[0], k)
    else First(envs[1..], k)
  }

  /** Folding ordinary variables: the last block that defines a variable
      decides its value, and the folded block keeps an ordinary spelling. */
  lemma {:induction false} FoldCombineTopmost(cfg: Config, envs: seq<Option<Env>>, k: string)
    requires |envs| >= 1 && OrdinaryAt(envs, k)
    ensures Lookup(FoldCombine(cfg, envs), k) == Topmost(envs, k)
    ensures Defines(FoldCombine(cfg, envs), k) ==> Ordinary(FoldCombine(cfg, envs).value[k].name)
  {
    if |envs| > 1 {
      var init := envs[..|envs| - 1];
      var last := envs[|envs| - 1];
      assert OrdinaryAt(init, k) by {
        forall j | 0 <= j < |init| && Defines(init[j], k)
          ensures Ordinary(init[j].value[k].name)
        {
          assert init[j] == envs[j];
        }
      }
      FoldCombineTopmost(cfg, init, k);
      var a := FoldCombine(cfg, init);
      if a.Some? && last.Some? && (k in a.value || k in last.value) {
        CombineKeepsFirstSpelling(cfg, a.value, last.value, k);
        if k in a.value && k in last.value {
          CombineLaterWins(cfg, a.value, last.value, k);
        }
      }
    }
  }

  /** Reversing turns the last definition into the first. */
  lemma {:induction false} TopmostOfReverse(envs: seq<Option<Env>>, k: string)
    ensures Topmost(Reverse(envs), k) == First(envs, k)
  {
    if envs != [] {
      var r := Reverse(envs);
      assert r == Reverse(envs[1..]) + [envs[0]];
      assert r[..|r| - 1] == Reverse(envs[1..]);
      TopmostOfReverse(envs[1..], k);
    }
  }

  lemma OrdinaryAtReverse(envs: seq<Option<Env>>, k: string)
    requires OrdinaryAt(envs, k)
    ensures OrdinaryAt(Reverse(envs), k)
    ensures forall j :: 0 <= j < |envs| ==> Reverse(envs)[j] in envs
  {
    ReverseElements(envs);
  }

  lemma {:induction false} ReverseElements<T>(xs: seq<T>)
    ensures forall j :: 0 <= j < |xs| ==> Reverse(xs)[j] in xs
  {
    if xs != [] {
      ReverseElements(xs[1..]);
      var r := Reverse(xs);
      assert r == Reverse(xs[1..]) + [xs[0]];
      forall j | 0 <= j < |xs|
        ensures r[j] in xs
      {
        if j < |xs| - 1 {
          assert r[j] == Reverse(xs[1..])[j];
          assert Reverse(xs[1..])[j] in xs[1..];
        }
      }
    }
  }

  // ---------------------------------------------------------------------------
  // Derived values
  // ---------------------------------------------------------------------------

  /** `GetUnderlyingToolkits`: the contributors, then the backend. */
  function Underlying(backend: Toolkit, contributors: seq<Toolkit>): (r: seq<Toolkit>)
    ensures |r| == |contributors| + 1 && r[|contributors|] == backend
    ensures r[..|contributors|] == contributors
  {
    contributors + [backend]
  }

  function Names(toolkits: seq<Toolkit>): (r: seq<string>)
    ensures |r| == |toolkits|
    ensures forall i :: 0 <= i < |toolkits| ==> r[i] == toolkits[i].name
  {
    if toolkits == [] then [] else [toolkits[0].name] + Names(toolkits[1..])
  }

  /** The composite name: the constituents' names joined with `+`. */
  function ComposedName(backend: Toolkit, contributors: seq<Toolkit>): string {
    Join(Names(Underlying(backend, contributors)), '+')
  }

  /** The name splits back into the constituents' names, in order, when each
      is non-empty and free of `+`. */
  lemma ComposedNameSplits(backend: Toolkit, contributors: seq<Toolkit>)
    requires forall t :: t in Underlying(backend, contributors) ==> t.name != "" && '+' !in t.name
    ensures Split(ComposedName(backend, contributors), '+') == Names(Underlying(backend, contributors))
  {
    var u := Underlying(backend, contributors);
    assert Segments(Names(u), '+') by {
      forall i | 0 <= i < |u|
        ensures Names(u)[i] != "" && '+' !in Names(u)[i]
      {
        assert u[i] in u;
      }
    }
    SplitJoin(Names(u), '+');
  }

  /** A constituent's description as it appears in the composite's: its
      trailing periods dropped, in single quotes. */
  function QuotedDescription(t: Toolkit): string {
    LinguisticServices.SingleQuote(TrimEnd(t.description, '.'))
  }

  function QuotedDescriptions(toolkits: seq<Toolkit>): (r: seq<string>)
    ensures |r| == |toolkits|
    ensures forall i :: 0 <= i < |toolkits| ==> r[i] == QuotedDescription(toolkits[i])
  {
    if toolkits == [] then [] else [QuotedDescription(toolkits[0])] + QuotedDescriptions(toolkits[1..])
  }

  const DescriptionSuffix: string := " meta toolkit."

  /** The composite description. */
  function ComposedDescription(backend: Toolkit, contributors: seq<Toolkit>): string {
    JoinWith(QuotedDescriptions(Underlying(backend, contributors)), " + ") + DescriptionSuffix
  }

  /** One contributor over a backend: `'<contributor>' + '<backend>' meta
      toolkit.`, each description without its final periods. */
  lemma DescriptionOfPair(backend: Toolkit, contributor: Toolkit)
    ensures ComposedDescription(backend, [contributor]) ==
            "'" + TrimEnd(contributor.description, '.') + "' + '" + TrimEnd(backend.description, '.') + "'" + DescriptionSuffix
    ensures var c := TrimEnd(contributor.description, '.');
            c == [] || c[|c| - 1] != '.'
  {
    var q := QuotedDescriptions(Underlying(backend, [contributor]));
    assert q == [QuotedDescription(contributor), QuotedDescription(backend)];
    assert q[..1] == [QuotedDescription(contributor)];
    assert JoinWith(q, " + ") == QuotedDescription(contributor) + " + " + QuotedDescription(backend);
    PairSpelled(TrimEnd(contributor.description, '.'), TrimEnd(backend.description, '.'));
  }

  /** Two quoted descriptions joined by ` + `, spelled out. */
  lemma PairSpelled(c: string, b: string)
    ensures LinguisticServices.SingleQuote(c) + " + " + LinguisticServices.SingleQuote(b) + DescriptionSuffix ==
            "'" + c + "' + '" + b + "'" + DescriptionSuffix
  {
    var quote: string := "'";
    assert "' + '" == quote + " + " + quote;
    assert quote + c + quote + " + " + (quote + b + quote) + DescriptionSuffix ==
           quote + c + (quote + " + " + quote) + b + quote + DescriptionSuffix;
  }

  function TraitsOf(toolkits: seq<Toolkit>): (r: seq<FamilyTraits>)
    ensures |r| == |toolkits|
    ensures forall i :: 0 <= i < |toolkits| ==> r[i] == toolkits[i].family.traits
  {
    if toolkits == [] then [] else [toolkits[0].family.traits] + TraitsOf(toolkits[1..])
  }

  /** `Aggregate((a, b) => a | b)` on a non-empty sequence. */
  function OrAll(ts: seq<FamilyTraits>): FamilyTraits
    requires |ts| >= 1
  {
    if |ts| == 1 then ts[0] else OrAll(ts[..|ts| - 1]) | ts[|ts| - 1]
  }

  /** The composite family's traits: those of any constituent, without the
      deployment bits. */
  function ComposedTraits(backend: Toolkit, contributors: seq<Toolkit>): FamilyTraits {
    OrAll(TraitsOf(Underlying(backend, contributors))) & !DeploymentMask
  }

  const FamilyName: string := "Meta"

  /** A single-bit trait is in the fold iff some element has it. */
  lemma {:induction false} OrAllHasFlag(ts: seq<FamilyTraits>, flag: FamilyTraits)
    requires |ts| >= 1
    requires flag == Installable || flag == Portable || flag == Alike || flag == FilePathTranslation
    ensures HasFlag(OrAll(ts), flag) <==> exists i :: 0 <= i < |ts| && HasFlag(ts[i], flag)
  {
    if |ts| > 1 {
      var init := ts[..|ts| - 1];
      OrAllHasFlag(init, flag);
      if exists i :: 0 <= i < |init| && HasFlag(init[i], flag) {
        var i :| 0 <= i < |init| && HasFlag(init[i], flag);
        assert ts[i] == init[i];
      }
      if exists i :: 0 <= i < |ts| && HasFlag(ts[i], flag) {
        var i :| 0 <= i < |ts| && HasFlag(ts[i], flag);
        if i < |ts| - 1 {
          assert init[i] == ts[i];
        }
      }
    }
  }

  /** The composite is GNU-like, or translates file paths, iff one of its
      constituents is or does; it is neither installable nor portable. */
  lemma ComposedTraitsFlags(backend: Toolkit, contributors: seq<Toolkit>, flag: FamilyTraits)
    requires flag == Alike || flag == FilePathTranslation
    ensures var u := Underlying(backend, contributors);
            HasFlag(ComposedTraits(backend, contributors), flag) <==>
              exists i :: 0 <= i < |u| && HasFlag(u[i].family.traits, flag)
    ensures ComposedTraits(backend, contributors) & DeploymentMask == 0
  {
    var u := Underlying(backend, contributors);
    var ts := TraitsOf(u);
    OrAllHasFlag(ts, flag);
    var all := OrAll(ts);
    assert HasFlag(all & !DeploymentMask, flag) <==> HasFlag(all, flag);
    if exists i :: 0 <= i < |u| && HasFlag(u[i].family.traits, flag) {
      var i :| 0 <= i < |u| && HasFlag(u[i].family.traits, flag);
      assert HasFlag(ts[i], flag);
    }
  }

  /** The blocks `GetCombinedEnvironment` folds: the contributors' environments
      in reverse, then the caller's. */
  function CombinedLayers(contributions: seq<Option<Env>>, environment: Option<Env>): seq<Option<Env>> {
    Reverse(contributions) + [environment]
  }

  /** `GetCombinedEnvironment(environment)`. */
  function CombinedEnvironment(cfg: Config, contributions: seq<Option<Env>>, environment: Option<Env>): Option<Env> {
    FoldCombine(cfg, CombinedLayers(contributions, environment))
  }

  /** For an ordinary variable the caller's value wins; otherwise the first
      contributor that defines it decides; a variable nobody defines stays
      undefined. */
  lemma CombinedEnvironmentValue(cfg: Config, contributions: seq<Option<Env>>, environment: Option<Env>, k: string)
    requires OrdinaryAt(contributions, k)
    requires Defines(environment, k) ==> Ordinary(environment.value[k].name)
    ensures Lookup(CombinedEnvironment(cfg, contributions, environment), k) ==
            if Defines(environment, k) then Lookup(environment, k) else First(contributions, k)
  {
    var layers := CombinedLayers(contributions, environment);
    OrdinaryAtReverse(contributions, k);
    assert OrdinaryAt(layers, k) by {
      forall j | 0 <= j < |layers| && Defines(layers[j], k)
        ensures Ordinary(layers[j].value[k].name)
      {
        if j < |contributions| {
          assert layers[j] == Reverse(contributions)[j];
        }
      }
    }
    FoldCombineTopmost(cfg, layers, k);
    assert layers[..|layers| - 1] == Reverse(contributions);
    TopmostOfReverse(contributions, k);
  }

  /** The environments the underlying environment toolkits expose, in order. */
  function EnvironmentsOf(toolkits: seq<Toolkit>): (r: seq<Option<Env>>)
    ensures |r| <= |toolkits|
  {
    if toolkits == [] then []
    else (if toolkits[0].IsEnvironment() then [toolkits[0].environment.value] else []) + EnvironmentsOf(toolkits[1..])
  }

  /** `Environment`: the reverse fold over every underlying environment
      toolkit; `None` when there is none, where the fold throws. */
  function ComposedEnvironment(cfg: Config, backend: Toolkit, contributors: seq<Toolkit>): Option<Option<Env>> {
    var envs := EnvironmentsOf(Underlying(backend, contributors));
    if envs == [] then None else Some(FoldCombine(cfg, Reverse(envs)))
  }

  lemma {:induction false} EnvironmentsOfAppend(xs: seq<Toolkit>, ys: seq<Toolkit>)
    ensures EnvironmentsOf(xs + ys) == EnvironmentsOf(xs) + EnvironmentsOf(ys)
  {
    if xs != [] {
      assert (xs + ys)[1..] == xs[1..] + ys;
      EnvironmentsOfAppend(xs[1..], ys);
    } else {
      assert xs + ys == ys;
    }
  }

  /** The composite's own `Environment` is defined whenever it has an
      environment toolkit among its constituents; an environment-providing
      backend is folded in as well, below every contributor. */
  lemma ComposedEnvironmentLayers(cfg: Config, backend: Toolkit, contributors: seq<Toolkit>)
    ensures var envs := EnvironmentsOf(contributors);
            ComposedEnvironment(cfg, backend, contributors).Some? <==> envs != [] || backend.IsEnvironment()
    ensures var envs := EnvironmentsOf(contributors);
            backend.IsEnvironment() ==>
              ComposedEnvironment(cfg, backend, contributors) ==
                Some(FoldCombine(cfg, [backend.environment.value] + Reverse(envs)))
  {
    EnvironmentsOfAppend(contributors, [backend]);
    var envs := EnvironmentsOf(contributors);
    assert EnvironmentsOf([backend]) == if backend.IsEnvironment() then [backend.environment.value] else [];
    if backend.IsEnvironment() {
      var all := envs + [backend.environment.value];
      assert Reverse(all) == [backend.environment.value] + Reverse(envs) by {
        ReverseAppendOne(envs, backend.environment.value);
      }
    }
  }

  lemma {:induction false} ReverseAppendOne<T>(xs: seq<T>, x: T)
    ensures Reverse(xs + [x]) == [x] + Reverse(xs)
  {
    if xs != [] {
      assert (xs + [x])[1..] == xs[1..] + [x];
      ReverseAppendOne(xs[1..], x);
    } else {
      assert Reverse([x]) == Reverse([]) + [x];
    }
  }

  /** The request the backend receives: everything as given, except that the
      environment is the combined one. */
  function Delegated(cfg: Config, contributions: seq<Option<Env>>, request: Request): (r: Request)
    ensures r.kind == request.kind && r.text == request.text
    ensures r.arguments == request.arguments && r.options == request.options
  {
    request.(environment := CombinedEnvironment(cfg, contributions, request.environment))
  }

  // ---------------------------------------------------------------------------
  // The composite toolkit
  // ---------------------------------------------------------------------------

  /** A composite toolkit. `name`, `description` and `traits` are the
      write-once caches behind the lazily computed properties (`None` until
      first read, unless set at initialisation); `installationPath` is the
      explicitly initialised path, if any. */
  class MetaToolkit {
    const cfg: Config
    const backend: Toolkit
    const contributors: seq<Toolkit>
    const installationPath: Option<string>
    var name: Option<string>
    var description: Option<string>
    var traits: Option<FamilyTraits>

    /** The backend is scriptable and every contributor is an environment
        toolkit. */
    predicate Valid() {
      backend.IsScriptable() && forall t :: t in contributors ==> t.IsEnvironment()
    }

    /** The contributors' environments, in order. */
    function Contributions(): (r: seq<Option<Env>>)
      requires Valid()
      ensures |r| == |contributors|
      ensures forall i :: 0 <= i < |contributors| ==> Some(r[i]) == contributors[i].environment
    {
      ContributionsOf(contributors)
    }

    constructor(
      cfg: Config, backend: Toolkit, contributors: seq<Toolkit>,
      name: Option<string>, description: Option<string>, installationPath: Option<string>)
      requires backend.IsScriptable() && forall t :: t in contributors ==> t.IsEnvironment()
      ensures Valid()
      ensures this.cfg == cfg && this.backend == backend && this.contributors == contributors
      ensures this.name == name && this.description == description
      ensures this.installationPath == installationPath && this.traits.None?
    {
      this.cfg := cfg;
      this.backend := backend;
      this.contributors := contributors;
      this.name := name;
      this.description := description;
      this.installationPath := installationPath;
      this.traits := None;
    }

    /** `Name`: computed on first read unless initialised, then kept. */
    method Name() returns (r: string)
      modifies this
      ensures r == if old(name).Some? then old(name).value else ComposedName(backend, contributors)
      ensures name == Some(r)
      ensures description == old(description) && traits == old(traits)
    {
      if name.None? {
        name := Some(Join(Names(Underlying(backend, contributors)), '+'));
      }
      r := name.value;
    }

    /** `Description`: computed on first read unless initialised, then kept. */
    method Description() returns (r: string)
      modifies this
      ensures r == if old(description).Some? then old(description).value else ComposedDescription(backend, contributors)
      ensures description == Some(r)
      ensures name == old(name) && traits == old(traits)
    {
      if description.None? {
        var quoted := QuotedDescriptions(Underlying(backend, contributors));
        description := Some(JoinWith(quoted, " + ") + DescriptionSuffix);
      }
      r := description.value;
    }

    /** `Family`: the family named `Meta` with the composed traits, computed
        once. */
    method Family() returns (r: Toolkits.Family)
      modifies this
      ensures r == Toolkits.Family(FamilyName, if old(traits).Some? then old(traits).value else ComposedTraits(backend, contributors))
      ensures traits == Some(r.traits)
      ensures name == old(name) && description == old(description)
    {
      if traits.None? {
        traits := Some(OrAll(TraitsOf(Underlying(backend, contributors))) & !DeploymentMask);
      }
      r := Toolkits.Family(FamilyName, traits.value);
    }

    /** `InstallationPath`: the initialised path, else the backend's. */
    function InstallationPath(): (r: Option<string>)
      ensures installationPath.None? ==> r == backend.installationPath
      ensures installationPath.Some? ==> r == installationPath
    {
      if installationPath.Some? then installationPath else backend.installationPath
    }

    /** `Environment`. */
    function Environment(): Option<Option<Env>> {
      ComposedEnvironment(cfg, backend, contributors)
    }

    /** `ExecuteCommand` and `ExecuteFile`: the request the backend runs. */
    function Execute(request: Request): (r: Request)
      requires Valid()
      ensures r == Delegated(cfg, Contributions(), request)
    {
      request.(environment := CombinedEnvironment(cfg, Contributions(), request.environment))
    }

    /** `TranslateFilePath` and `Isolation`: the backend's. */
    function Scripting(): (r: Toolkits.Scripting)
      requires Valid()
      ensures Some(r) == backend.scripting
    {
      backend.scripting.value
    }
  }

  function ContributionsOf(toolkits: seq<Toolkit>): (r: seq<Option<Env>>)
    requires forall t :: t in toolkits ==> t.IsEnvironment()
    ensures |r| == |toolkits|
    ensures forall i :: 0 <= i < |toolkits| ==> Some(r[i]) == toolkits[i].environment
  {
    if toolkits == [] then []
    else
      assert toolkits[0] in toolkits;
      assert toolkits[0].IsEnvironment();
      [toolkits[0].environment.value] + ContributionsOf(toolkits[1..])
  }
}
