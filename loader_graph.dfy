/**
 * What `loadLoaders` does to the container's definitions, as functions on
 * values: per loader, the repository service it reads from, the definitions
 * it synthesizes, and the fold over all configured loaders in order.
 */
module LoaderGraph {
  import opened Wrappers
  import opened ServiceIds
  import opened Services

  /**
   * One validated entry of `loaders`. `kind` is the `type` option. An option
   * that is absent, null or empty is the empty string here.
   */
  datatype LoaderConfig = LoaderConfig(
    kind: string,
    prefix: string,
    localeCallable: string,
    modelClass: string,
    repository: string)

  /** The `loaders` mapping in its iteration order: (name, config) pairs. */
  type Loaders = seq<(string, LoaderConfig)>

  /** The loader passes `createLoaderRepository`'s checks. */
  predicate Accepted(cfg: LoaderConfig)
  {
    if cfg.kind == CUSTOM_KIND then cfg.repository != "" else RegistryFor(cfg.kind).Some?
  }

  /** The id `createLoaderRepository` returns for a loader, or the configuration error it raises. */
  function RepositoryFor(name: string, cfg: LoaderConfig): (r: Result<string, Error>)
    ensures r.Ok? <==> Accepted(cfg)
    ensures r.Ok? && cfg.kind == CUSTOM_KIND ==> r.value == cfg.repository
    ensures r.Ok? && cfg.kind != CUSTOM_KIND ==> r.value == RepositoryId(name)
    ensures r.Err? ==> (r.error.MissingRepository? || r.error.UnknownLoaderType?) && r.error.loader == name
    ensures cfg.kind == CUSTOM_KIND && cfg.repository == "" ==> r == Err(MissingRepository(name))
  {
    if cfg.kind == CUSTOM_KIND then
      if cfg.repository == "" then Err(MissingRepository(name)) else Ok(cfg.repository)
    else if RegistryFor(cfg.kind).None? then Err(UnknownLoaderType(name))
    else Ok(RepositoryId(name))
  }

  /** The ids an accepted loader defines. */
  function DerivedIds(name: string, cfg: LoaderConfig): (ids: set<string>)
    ensures LoaderId(name) in ids && ids <= AllIds(name)
    ensures cfg.kind == CUSTOM_KIND <==> ManagerId(name) !in ids
    ensures cfg.kind == CUSTOM_KIND <==> RepositoryId(name) !in ids
  {
    KindsDistinct(name);
    if cfg.kind == CUSTOM_KIND then {LoaderId(name)} else AllIds(name)
  }

  /** Argument 2 of a loader: the locale callable service, if one is named. */
  function LocaleArgument(localeCallable: string): Value
  {
    if localeCallable != "" then Ref(localeCallable) else Null
  }

  /** `LOADER(N)`: child of the abstract loader, public, tagged, with three argument overrides. */
  function LoaderDefinition(repository: string, cfg: LoaderConfig): Definition
  {
    Definition(
      Some(LOADER_ABSTRACT_ID), [],
      map[0 := Ref(repository), 1 := Str(cfg.prefix), 2 := LocaleArgument(cfg.localeCallable)],
      Some(true), [LOADER_TAG], None, None)
  }

  /** `MGR(N)`: child of the abstract manager, public, built by `registry.getManagerForClass(modelClass)`. */
  function ManagerDefinition(registry: string, modelClass: string): Definition
  {
    Definition(Some(MANAGER_ABSTRACT_ID), [Str(modelClass)], map[], Some(true), [], Some(registry), Some(GET_MANAGER_FOR_CLASS))
  }

  /** `REPO(N)`: child of the abstract repository, never marked, built by `MGR(N).getRepository(modelClass)`. */
  function RepositoryDefinition(name: string, modelClass: string): Definition
  {
    Definition(Some(REPOSITORY_ABSTRACT_ID), [Str(modelClass)], map[], None, [], Some(ManagerId(name)), Some(GET_REPOSITORY))
  }

  /** The two auxiliary definitions of a Doctrine loader, written over `defs`. */
  function AuxiliaryDefinitions(defs: map<string, Definition>, name: string, cfg: LoaderConfig): map<string, Definition>
    requires RegistryFor(cfg.kind).Some?
  {
    var modelClass := LTrimBackslash(cfg.modelClass);
    defs[ManagerId(name) := ManagerDefinition(RegistryFor(cfg.kind).value, modelClass)]
        [RepositoryId(name) := RepositoryDefinition(name, modelClass)]
  }

  /** `setupLoader` for one loader: every definition it writes, or its configuration error. */
  function SetupLoaderDefs(defs: map<string, Definition>, name: string, cfg: LoaderConfig): (r: Result<map<string, Definition>, Error>)
    ensures r.Ok? <==> Accepted(cfg)
    ensures r.Err? ==> r.error == RepositoryFor(name, cfg).error
    ensures r.Ok? ==> r.value.Keys == defs.Keys + DerivedIds(name, cfg)
    ensures r.Ok? ==> forall id :: id in defs && id !in DerivedIds(name, cfg) ==> r.value[id] == defs[id]
  {
    match RepositoryFor(name, cfg)
    case Err(e) => Err(e)
    case Ok(repository) =>
      var withAuxiliaries := if cfg.kind == CUSTOM_KIND then defs else AuxiliaryDefinitions(defs, name, cfg);
      Ok(withAuxiliaries[LoaderId(name) := LoaderDefinition(repository, cfg)])
  }

  /** Where a run over the loaders ended: the definitions, and whether a loader raised an error. */
  datatype Run = Run(definitions: map<string, Definition>, outcome: Outcome<Error>)

  /** Every id the loaders may define. */
  function Footprint(loaders: Loaders): set<string>
  {
    if loaders == [] then {} else DerivedIds(loaders[0].0, loaders[0].1) + Footprint(loaders[1..])
  }

  /** The `foreach` over the loaders: each in turn, stopping at the first error. */
  function SetupLoaders(defs: map<string, Definition>, loaders: Loaders): (run: Run)
    ensures run.outcome.Pass? <==> forall i :: 0 <= i < |loaders| ==> Accepted(loaders[i].1)
    ensures forall id :: id !in Footprint(loaders) ==> Lookup(run.definitions, id) == Lookup(defs, id)
    decreases |loaders|
  {
    if loaders == [] then Run(defs, Pass)
    else match SetupLoaderDefs(defs, loaders[0].0, loaders[0].1)
      case Err(e) => Run(defs, Fail(e))
      case Ok(next) => SetupLoaders(next, loaders[1..])
  }

  /** Different loaders never derive a common id. */
  ghost predicate IdsDisjoint(loaders: Loaders)
  {
    forall i, j :: 0 <= i < |loaders| && 0 <= j < |loaders| && i != j ==> AllIds(loaders[i].0) !! AllIds(loaders[j].0)
  }

  lemma {:induction false} FootprintMembership(loaders: Loaders, id: string)
    ensures id in Footprint(loaders) <==> exists i :: 0 <= i < |loaders| && id in DerivedIds(loaders[i].0, loaders[i].1)
  {
    if loaders != [] {
      FootprintMembership(loaders[1..], id);
      if id in Footprint(loaders[1..]) {
        var i :| 0 <= i < |loaders[1..]| && id in DerivedIds(loaders[1..][i].0, loaders[1..][i].1);
        assert loaders[i + 1] == loaders[1..][i];
      }
      forall i | 1 <= i < |loaders| && id in DerivedIds(loaders[i].0, loaders[i].1)
        ensures id in Footprint(loaders[1..])
      {
        assert loaders[1..][i - 1] == loaders[i];
      }
    }
  }

  /** An id derived from no configured name is never touched. */
  lemma OutsideFootprint(loaders: Loaders, id: string)
    requires forall i :: 0 <= i < |loaders| ==> id !in AllIds(loaders[i].0)
    ensures id !in Footprint(loaders)
  {
    FootprintMembership(loaders, id);
  }

  lemma DisjointTail(loaders: Loaders)
    requires loaders != [] && IdsDisjoint(loaders)
    ensures IdsDisjoint(loaders[1..])
    ensures AllIds(loaders[0].0) !! Footprint(loaders[1..])
  {
    var tail := loaders[1..];
    forall i, j | 0 <= i < |tail| && 0 <= j < |tail| && i != j
      ensures AllIds(tail[i].0) !! AllIds(tail[j].0)
    {
      assert tail[i] == loaders[i + 1] && tail[j] == loaders[j + 1];
    }
    forall id | id in AllIds(loaders[0].0) ensures id !in Footprint(tail) {
      forall i | 0 <= i < |tail| ensures id !in AllIds(tail[i].0) {
        assert tail[i] == loaders[i + 1];
      }
      OutsideFootprint(tail, id);
    }
  }

  /** Running the first k loaders and then the rest is running them all. */
  lemma PrefixThenStep(defs: map<string, Definition>, loaders: Loaders, k: nat)
    requires k < |loaders| && loaders != []
    requires SetupLoaderDefs(defs, loaders[0].0, loaders[0].1).Ok?
    ensures loaders[..k + 1][1..] == loaders[1..][..k]
    ensures SetupLoaders(defs, loaders[..k + 1]) == SetupLoaders(SetupLoaderDefs(defs, loaders[0].0, loaders[0].1).value, loaders[1..][..k])
  {
    assert loaders[..k + 1][0] == loaders[0];
    assert loaders[..k + 1][1..] == loaders[1..][..k];
  }

  /** What an accepted loader writes at one of its own ids; it does not depend on what was there before. */
  function OwnDefinition(name: string, cfg: LoaderConfig, id: string): Definition
    requires Accepted(cfg) && id in DerivedIds(name, cfg)
  {
    if id == LoaderId(name) then LoaderDefinition(RepositoryFor(name, cfg).value, cfg)
    else if id == ManagerId(name) then ManagerDefinition(RegistryFor(cfg.kind).value, LTrimBackslash(cfg.modelClass))
    else RepositoryDefinition(name, LTrimBackslash(cfg.modelClass))
  }

  /** One loader's step writes its own definition at each of its own ids, whatever the definitions were. */
  lemma OwnDefinitionWritten(defs: map<string, Definition>, name: string, cfg: LoaderConfig, id: string)
    requires Accepted(cfg) && id in DerivedIds(name, cfg)
    ensures id in SetupLoaderDefs(defs, name, cfg).value
    ensures SetupLoaderDefs(defs, name, cfg).value[id] == OwnDefinition(name, cfg, id)
  {
    KindsDistinct(name);
  }

  /**
   * After a successful run over loaders with disjoint ids, each id that the
   * k-th loader derives holds what that loader wrote there.
   */
  lemma {:induction false} OwnIdsSurvive(defs: map<string, Definition>, loaders: Loaders, k: nat, id: string)
    requires IdsDisjoint(loaders) && SetupLoaders(defs, loaders).outcome.Pass?
    requires k < |loaders| && id in DerivedIds(loaders[k].0, loaders[k].1)
    ensures Accepted(loaders[k].1)
    ensures Lookup(SetupLoaders(defs, loaders).definitions, id) == Some(OwnDefinition(loaders[k].0, loaders[k].1, id))
    decreases k
  {
    var next := SetupLoaderDefs(defs, loaders[0].0, loaders[0].1).value;
    UnfoldFirst(defs, loaders);
    DisjointTail(loaders);
    if k == 0 {
      OwnDefinitionWritten(defs, loaders[0].0, loaders[0].1, id);
      assert id !in Footprint(loaders[1..]);
    } else {
      assert loaders[1..][k - 1] == loaders[k];
      OwnIdsSurvive(next, loaders[1..], k - 1, id);
    }
  }

  /** A successful run is the first loader's step followed by a successful run over the rest. */
  lemma UnfoldFirst(defs: map<string, Definition>, loaders: Loaders)
    requires loaders != [] && SetupLoaders(defs, loaders).outcome.Pass?
    ensures Accepted(loaders[0].1)
    ensures SetupLoaders(defs, loaders) == SetupLoaders(SetupLoaderDefs(defs, loaders[0].0, loaders[0].1).value, loaders[1..])
  {
    assert Accepted(loaders[0].1);
  }

  /**
   * Every configured loader N ends up at `LOADER(N)`: a public child of the
   * abstract loader, tagged `twig.loader`, whose arguments are a reference
   * to its repository service, its prefix, and a reference to its locale
   * callable or null.
   */
  lemma LoaderRegistered(defs: map<string, Definition>, loaders: Loaders, k: nat)
    requires IdsDisjoint(loaders) && SetupLoaders(defs, loaders).outcome.Pass? && k < |loaders|
    ensures var (name, cfg) := loaders[k];
      var out := SetupLoaders(defs, loaders).definitions;
      && LoaderId(name) in out
      && out[LoaderId(name)].parent == Some(LOADER_ABSTRACT_ID)
      && out[LoaderId(name)].visibility == Some(true)
      && LOADER_TAG in out[LoaderId(name)].tags
      && ArgumentAt(out[LoaderId(name)], 0)
         == Some(Ref(if cfg.kind == CUSTOM_KIND then cfg.repository else RepositoryId(name)))
      && ArgumentAt(out[LoaderId(name)], 1) == Some(Str(cfg.prefix))
      && ArgumentAt(out[LoaderId(name)], 2)
         == Some(if cfg.localeCallable != "" then Ref(cfg.localeCallable) else Null)
  {
    var (name, cfg) := loaders[k];
    OwnIdsSurvive(defs, loaders, k, LoaderId(name));
    LoaderDefinitionShape(RepositoryFor(name, cfg).value, cfg);
  }

  lemma LoaderDefinitionShape(repository: string, cfg: LoaderConfig)
    ensures var d := LoaderDefinition(repository, cfg);
      && d.parent == Some(LOADER_ABSTRACT_ID) && d.visibility == Some(true) && LOADER_TAG in d.tags
      && ArgumentAt(d, 0) == Some(Ref(repository))
      && ArgumentAt(d, 1) == Some(Str(cfg.prefix))
      && ArgumentAt(d, 2) == Some(LocaleArgument(cfg.localeCallable))
  {
    var d := LoaderDefinition(repository, cfg);
    assert 0 in d.replacements && 1 in d.replacements && 2 in d.replacements;
  }

  /**
   * A Doctrine loader N ends up with `MGR(N)`, public, built by its registry's
   * `getManagerForClass`, and `REPO(N)`, never marked public, built by
   * `MGR(N).getRepository`; both take the model class without its leading
   * backslashes as their one argument.
   */
  lemma DoctrineAuxiliaries(defs: map<string, Definition>, loaders: Loaders, k: nat)
    requires IdsDisjoint(loaders) && SetupLoaders(defs, loaders).outcome.Pass? && k < |loaders|
    requires loaders[k].1.kind != CUSTOM_KIND
    ensures var (name, cfg) := loaders[k];
      var out := SetupLoaders(defs, loaders).definitions;
      var modelClass := LTrimBackslash(cfg.modelClass);
      && RegistryFor(cfg.kind).Some?
      && ManagerId(name) in out && RepositoryId(name) in out
      && out[ManagerId(name)].parent == Some(MANAGER_ABSTRACT_ID)
      && out[ManagerId(name)].visibility == Some(true)
      && out[ManagerId(name)].arguments == [Str(modelClass)]
      && out[ManagerId(name)].factoryService == RegistryFor(cfg.kind)
      && out[ManagerId(name)].factoryMethod == Some(GET_MANAGER_FOR_CLASS)
      && out[RepositoryId(name)].parent == Some(REPOSITORY_ABSTRACT_ID)
      && out[RepositoryId(name)].visibility == None
      && out[RepositoryId(name)].arguments == [Str(modelClass)]
      && out[RepositoryId(name)].factoryService == Some(ManagerId(name))
      && out[RepositoryId(name)].factoryMethod == Some(GET_REPOSITORY)
      && (modelClass == [] || modelClass[0] != '\\')
  {
    var (name, cfg) := loaders[k];
    OwnIdsSurvive(defs, loaders, k, ManagerId(name));
    OwnIdsSurvive(defs, loaders, k, RepositoryId(name));
    KindsDistinct(name);
  }

  /** A custom loader synthesizes nothing at `MGR(N)` or `REPO(N)`: what was there before is still there. */
  lemma CustomAddsNoAuxiliaries(defs: map<string, Definition>, loaders: Loaders, k: nat)
    requires IdsDisjoint(loaders) && k < |loaders| && loaders[k].1.kind == CUSTOM_KIND
    ensures var name := loaders[k].0;
      var out := SetupLoaders(defs, loaders).definitions;
      && Lookup(out, ManagerId(name)) == Lookup(defs, ManagerId(name))
      && Lookup(out, RepositoryId(name)) == Lookup(defs, RepositoryId(name))
  {
    var name := loaders[k].0;
    KindsDistinct(name);
    forall id | id == ManagerId(name) || id == RepositoryId(name) ensures id !in Footprint(loaders) {
      FootprintMembership(loaders, id);
    }
  }

  /**
   * The run over `loaders` stopped at loader k: every loader before it was
   * accepted, k was not, the run carries k's configuration error, and its
   * definitions are those the loaders before k left.
   */
  predicate RejectsAt(defs: map<string, Definition>, loaders: Loaders, k: nat)
  {
    && k < |loaders|
    && !Accepted(loaders[k].1)
    && (forall i :: 0 <= i < k ==> Accepted(loaders[i].1))
    && SetupLoaders(defs, loaders).outcome == Fail(RepositoryFor(loaders[k].0, loaders[k].1).error)
    && SetupLoaders(defs, loaders).definitions == SetupLoaders(defs, loaders[..k]).definitions
  }

  /** A run that fails does so at its first rejected loader. */
  lemma {:induction false} FirstRejection(defs: map<string, Definition>, loaders: Loaders)
    requires SetupLoaders(defs, loaders).outcome.Fail?
    ensures exists k :: RejectsAt(defs, loaders, k)
    decreases |loaders|
  {
    assert loaders != [];
    match SetupLoaderDefs(defs, loaders[0].0, loaders[0].1)
    case Err(e) =>
      assert loaders[..0] == [];
      assert RejectsAt(defs, loaders, 0);
    case Ok(next) =>
      FirstRejection(next, loaders[1..]);
      var k :| RejectsAt(next, loaders[1..], k);
      RejectionShifts(defs, loaders, k);
  }

  /** A rejection at k in the tail, after an accepted first loader, is a rejection at k + 1. */
  lemma RejectionShifts(defs: map<string, Definition>, loaders: Loaders, k: nat)
    requires loaders != [] && SetupLoaderDefs(defs, loaders[0].0, loaders[0].1).Ok?
    requires RejectsAt(SetupLoaderDefs(defs, loaders[0].0, loaders[0].1).value, loaders[1..], k)
    ensures RejectsAt(defs, loaders, k + 1)
  {
    var next := SetupLoaderDefs(defs, loaders[0].0, loaders[0].1).value;
    assert SetupLoaders(defs, loaders) == SetupLoaders(next, loaders[1..]);
    assert loaders[1..][k] == loaders[k + 1];
    forall i | 0 <= i < k + 1 ensures Accepted(loaders[i].1) {
      if i > 0 { assert loaders[1..][i - 1] == loaders[i]; }
    }
    PrefixThenStep(defs, loaders, k);
  }

  /**
   * The rejected loader defines nothing: with disjoint ids, none of its ids
   * changes.
   */
  lemma RejectedLoaderAddsNothing(defs: map<string, Definition>, loaders: Loaders, k: nat, id: string)
    requires IdsDisjoint(loaders) && k < |loaders| && !Accepted(loaders[k].1)
    requires forall i :: 0 <= i < k ==> Accepted(loaders[i].1)
    requires id in AllIds(loaders[k].0)
    ensures Lookup(SetupLoaders(defs, loaders).definitions, id) == Lookup(defs, id)
  {
    assert !Accepted(loaders[k].1);
    FirstRejection(defs, loaders);
    var j :| RejectsAt(defs, loaders, j);
    assert j == k;
    var prefix := loaders[..k];
    forall i | 0 <= i < |prefix| ensures id !in AllIds(prefix[i].0) {
      assert prefix[i] == loaders[i];
      assert AllIds(loaders[i].0) !! AllIds(loaders[k].0);
    }
    OutsideFootprint(prefix, id);
  }

  /** Dot-free, pairwise distinct loader names give disjoint ids. */
  lemma DotFreeLoadersDisjoint(loaders: Loaders)
    requires forall i :: 0 <= i < |loaders| ==> '.' !in loaders[i].0
    requires forall i, j :: 0 <= i < j < |loaders| ==> loaders[i].0 != loaders[j].0
    ensures IdsDisjoint(loaders)
  {
    forall i, j | 0 <= i < |loaders| && 0 <= j < |loaders| && i != j
      ensures AllIds(loaders[i].0) !! AllIds(loaders[j].0)
    {
      DotFreeNamesDisjoint(loaders[i].0, loaders[j].0);
    }
  }

  /**
   * Without disjointness the graph breaks: a custom loader named
   * `N.object_manager` configured after the Doctrine loader N replaces
   * N's object manager with a loader definition.
   */
  lemma DottedNameReplacesManager(defs: map<string, Definition>, name: string, repository: string)
    requires repository != ""
    ensures var orm := LoaderConfig("orm", "", "", "App\\Tpl", "");
      var custom := LoaderConfig(CUSTOM_KIND, "", "", "", repository);
      var run := SetupLoaders(defs, [(name, orm), (name + MANAGER_SUFFIX, custom)]);
      && run.outcome.Pass?
      && Lookup(run.definitions, ManagerId(name)) == Some(LoaderDefinition(repository, custom))
  {
    var orm := LoaderConfig("orm", "", "", "App\\Tpl", "");
    var custom := LoaderConfig(CUSTOM_KIND, "", "", "", repository);
    assert RegistryFor("orm").Some?;
    TwoLoaderRun(defs, (name, orm), (name + MANAGER_SUFFIX, custom));
    DottedNameCollides(name);
    var first := SetupLoaderDefs(defs, name, orm).value;
    assert SetupLoaderDefs(first, name + MANAGER_SUFFIX, custom) == Ok(first[LoaderId(name + MANAGER_SUFFIX) := LoaderDefinition(repository, custom)]);
  }

  /** Two accepted loaders run as their two steps in order. */
  lemma TwoLoaderRun(defs: map<string, Definition>, a: (string, LoaderConfig), b: (string, LoaderConfig))
    requires Accepted(a.1) && Accepted(b.1)
    ensures var first := SetupLoaderDefs(defs, a.0, a.1).value;
      SetupLoaders(defs, [a, b]) == Run(SetupLoaderDefs(first, b.0, b.1).value, Pass)
  {
    var first := SetupLoaderDefs(defs, a.0, a.1).value;
    assert [a, b][1..] == [b] && [b][1..] == [];
    assert SetupLoaders(defs, [a, b]) == SetupLoaders(first, [b]);
  }
}
