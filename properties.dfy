/**
 * What `load` guarantees about the container it leaves behind, stated on
 * the step functions the extension's methods are proved against.
 */
module Properties {
  import opened Wrappers
  import opened ServiceIds
  import opened Services
  import opened Container
  import opened LoaderGraph
  import opened Extension

  /** The configuration files a successful `load` imports, in order. */
  function ImportedBundles(config: Config): seq<string>
  {
    (if config.defer.enabled then [DEFER_BUNDLE] else [])
    + (if config.constraint.enabled then [CONSTRAINT_BUNDLE] else [])
    + (if config.exclamation then [EXCLAMATION_BUNDLE] else [])
    + (if |config.loaders| > 0 then [LOADER_BUNDLE] else [])
  }

  /** The state in which the loaders are processed, once the three toggles have run. */
  function BeforeLoaders(s: State, files: Files, config: Config): State
  {
    ExclamationStep(ConstraintStep(DeferStep(s, files, config.defer), files, config.constraint).after, files, config.exclamation)
  }

  lemma LoadersStepKeepsParameters(s: State, files: Files, loaders: Loaders)
    ensures LoadersStep(s, files, loaders).after.parameters == s.parameters
  {
  }

  lemma DeferImports(s: State, files: Files, cfg: DeferConfig)
    ensures DeferStep(s, files, cfg).imports == s.imports + (if cfg.enabled then [DEFER_BUNDLE] else [])
  {
  }

  lemma ConstraintImports(s: State, files: Files, cfg: ConstraintConfig)
    ensures ConstraintStep(s, files, cfg).after.imports == s.imports + (if cfg.enabled then [CONSTRAINT_BUNDLE] else [])
  {
  }

  lemma ExclamationImports(s: State, files: Files, flag: bool)
    ensures ExclamationStep(s, files, flag).imports == s.imports + (if flag then [EXCLAMATION_BUNDLE] else [])
  {
  }

  lemma LoadersImports(s: State, files: Files, loaders: Loaders)
    ensures LoadersStep(s, files, loaders).after.imports == s.imports + (if |loaders| > 0 then [LOADER_BUNDLE] else [])
  {
  }

  /** A successful `load` appends exactly the bundles of the enabled features to the imports. */
  lemma LoadImports(s: State, files: Files, config: Config)
    requires LoadSpec(s, files, config).outcome.Pass?
    ensures LoadSpec(s, files, config).after.imports == s.imports + ImportedBundles(config)
  {
    var a := if config.defer.enabled then [DEFER_BUNDLE] else [];
    var b := if config.constraint.enabled then [CONSTRAINT_BUNDLE] else [];
    var c := if config.exclamation then [EXCLAMATION_BUNDLE] else [];
    var d := if |config.loaders| > 0 then [LOADER_BUNDLE] else [];
    var deferred := DeferStep(s, files, config.defer);
    DeferImports(s, files, config.defer);
    var constrained := ConstraintStep(deferred, files, config.constraint);
    ConstraintImports(deferred, files, config.constraint);
    var recorded := ExclamationStep(constrained.after, files, config.exclamation);
    ExclamationImports(constrained.after, files, config.exclamation);
    LoadersImports(recorded, files, config.loaders);
    assert LoadSpec(s, files, config) == LoadersStep(recorded, files, config.loaders);
    assert ImportedBundles(config) == a + b + c + d;
    AppendFour(s.imports, a, b, c, d);
  }

  /**
   * Regrouping a concatenation. Kept as a separate lemma so that the
   * associativity steps do not share a proof context with `LoadSpec`;
   * asserted inline, they make `LoadImports` too costly to check.
   */
  lemma AppendFour(x: seq<string>, a: seq<string>, b: seq<string>, c: seq<string>, d: seq<string>)
    ensures x + a + b + c + d == x + (a + b + c + d)
  {
  }

  /** Each feature bundle is imported iff its flag is set. */
  lemma BundlesFollowFlags(config: Config)
    ensures DEFER_BUNDLE in ImportedBundles(config) <==> config.defer.enabled
    ensures CONSTRAINT_BUNDLE in ImportedBundles(config) <==> config.constraint.enabled
    ensures EXCLAMATION_BUNDLE in ImportedBundles(config) <==> config.exclamation
  {
    var a := if config.defer.enabled then [DEFER_BUNDLE] else [];
    var b := if config.constraint.enabled then [CONSTRAINT_BUNDLE] else [];
    var c := if config.exclamation then [EXCLAMATION_BUNDLE] else [];
    var d := if |config.loaders| > 0 then [LOADER_BUNDLE] else [];
    assert ImportedBundles(config) == a + b + c + d;
    assert DEFER_BUNDLE != CONSTRAINT_BUNDLE && DEFER_BUNDLE != EXCLAMATION_BUNDLE && DEFER_BUNDLE != LOADER_BUNDLE;
    assert CONSTRAINT_BUNDLE != EXCLAMATION_BUNDLE && CONSTRAINT_BUNDLE != LOADER_BUNDLE;
    assert EXCLAMATION_BUNDLE != LOADER_BUNDLE;
    assert DEFER_BUNDLE in a + b + c + d <==> DEFER_BUNDLE in a || DEFER_BUNDLE in b || DEFER_BUNDLE in c || DEFER_BUNDLE in d;
    assert CONSTRAINT_BUNDLE in a + b + c + d <==> CONSTRAINT_BUNDLE in a || CONSTRAINT_BUNDLE in b || CONSTRAINT_BUNDLE in c || CONSTRAINT_BUNDLE in d;
    assert EXCLAMATION_BUNDLE in a + b + c + d <==> EXCLAMATION_BUNDLE in a || EXCLAMATION_BUNDLE in b || EXCLAMATION_BUNDLE in c || EXCLAMATION_BUNDLE in d;
  }

  /** `loader.yml` is imported once if there are loaders, never otherwise. */
  lemma LoaderBundleOnce(config: Config)
    ensures multiset(ImportedBundles(config))[LOADER_BUNDLE] == if |config.loaders| > 0 then 1 else 0
  {
    var a := if config.defer.enabled then [DEFER_BUNDLE] else [];
    var b := if config.constraint.enabled then [CONSTRAINT_BUNDLE] else [];
    var c := if config.exclamation then [EXCLAMATION_BUNDLE] else [];
    var d := if |config.loaders| > 0 then [LOADER_BUNDLE] else [];
    assert ImportedBundles(config) == a + b + c + d;
    assert LOADER_BUNDLE != DEFER_BUNDLE && LOADER_BUNDLE != CONSTRAINT_BUNDLE && LOADER_BUNDLE != EXCLAMATION_BUNDLE;
    OnlyInLast(LOADER_BUNDLE, a, b, c, d);
  }

  /** `loader.yml` comes last, so before any loader is processed. */
  lemma LoaderBundleLast(config: Config)
    requires |config.loaders| > 0
    ensures ImportedBundles(config)[|ImportedBundles(config)| - 1] == LOADER_BUNDLE
  {
    var front := (if config.defer.enabled then [DEFER_BUNDLE] else [])
      + (if config.constraint.enabled then [CONSTRAINT_BUNDLE] else [])
      + (if config.exclamation then [EXCLAMATION_BUNDLE] else []);
    var all := front + [LOADER_BUNDLE];
    assert ImportedBundles(config) == all;
    assert all[|all| - 1] == LOADER_BUNDLE;
  }

  /** `x` occurs in `a + b + c + d` only through `d`. */
  lemma OnlyInLast(x: string, a: seq<string>, b: seq<string>, c: seq<string>, d: seq<string>)
    requires x !in a && x !in b && x !in c
    ensures multiset(a + b + c + d)[x] == multiset(d)[x]
  {
    assert multiset(a + b + c + d) == multiset(a) + multiset(b) + multiset(c) + multiset(d);
  }

  /** The exclamation parameter is set to the flag, whatever the flag. */
  lemma ExclamationRecorded(s: State, files: Files, config: Config)
    requires LoadSpec(s, files, config).outcome.Pass?
    ensures EXCLAMATION_PARAMETER in LoadSpec(s, files, config).after.parameters
    ensures LoadSpec(s, files, config).after.parameters[EXCLAMATION_PARAMETER] == Bool(config.exclamation)
  {
    LoadersStepKeepsParameters(BeforeLoaders(s, files, config), files, config.loaders);
  }

  /** The defer prefix parameter is set to the configured prefix when defer is enabled, and left alone otherwise. */
  lemma DeferPrefixRecorded(s: State, files: Files, config: Config)
    requires LoadSpec(s, files, config).outcome.Pass?
    ensures var p := LoadSpec(s, files, config).after.parameters;
      && (config.defer.enabled ==> DEFER_PREFIX_PARAMETER in p && p[DEFER_PREFIX_PARAMETER] == Str(config.defer.prefix))
      && (!config.defer.enabled ==> Lookup(p, DEFER_PREFIX_PARAMETER) == Lookup(s.parameters, DEFER_PREFIX_PARAMETER))
  {
    LoadersStepKeepsParameters(BeforeLoaders(s, files, config), files, config.loaders);
  }

  /** No loader ever writes the constraint validator's id. */
  lemma LoadersKeepValidator(defs: map<string, Definition>, loaders: Loaders)
    ensures Lookup(SetupLoaders(defs, loaders).definitions, VALIDATOR_ID) == Lookup(defs, VALIDATOR_ID)
  {
    forall i | 0 <= i < |loaders| ensures VALIDATOR_ID !in AllIds(loaders[i].0) {
      DerivedIdsAvoidFixedIds(loaders[i].0);
    }
    OutsideFootprint(loaders, VALIDATOR_ID);
  }

  /**
   * With constraint enabled, a successful `load` leaves the validator's
   * argument 0 a reference to the configured environment, provided the
   * files imported later do not declare the validator again.
   */
  lemma ValidatorRebound(s: State, files: Files, config: Config)
    requires VALIDATOR_ID !in Declared(files, EXCLAMATION_BUNDLE) && VALIDATOR_ID !in Declared(files, LOADER_BUNDLE)
    requires config.constraint.enabled && LoadSpec(s, files, config).outcome.Pass?
    ensures VALIDATOR_ID in LoadSpec(s, files, config).after.definitions
    ensures ArgumentAt(LoadSpec(s, files, config).after.definitions[VALIDATOR_ID], 0) == Some(Ref(config.constraint.environment))
  {
    var before := BeforeLoaders(s, files, config);
    if |config.loaders| > 0 {
      LoadersKeepValidator(Imported(before, files, LOADER_BUNDLE).definitions, config.loaders);
    }
  }

  /** With constraint enabled, a validator that the files never declared aborts `load` with a host error. */
  lemma MissingValidatorFails(s: State, files: Files, config: Config)
    requires config.constraint.enabled
    requires VALIDATOR_ID !in s.definitions
    requires VALIDATOR_ID !in Declared(files, DEFER_BUNDLE) && VALIDATOR_ID !in Declared(files, CONSTRAINT_BUNDLE)
    ensures LoadSpec(s, files, config).outcome == Fail(ServiceNotFound(VALIDATOR_ID))
  {
  }

  /** Without loaders, the loaders step changes nothing: no import, no definition. */
  lemma NoLoadersNoChange(s: State, files: Files, config: Config)
    requires |config.loaders| == 0 && LoadSpec(s, files, config).outcome.Pass?
    ensures LoadSpec(s, files, config).after == BeforeLoaders(s, files, config)
    ensures LOADER_BUNDLE !in LoadSpec(s, files, config).after.imports[|s.imports|..]
  {
    LoadImports(s, files, config);
    LoaderBundleOnce(config);
  }

  /**
   * After a successful `load` over loaders with disjoint ids, every
   * configured loader name N has a public, `twig.loader`-tagged definition
   * at `LOADER(N)` whose argument 0 references its repository service.
   */
  lemma EveryLoaderRegistered(s: State, files: Files, config: Config)
    requires IdsDisjoint(config.loaders) && LoadSpec(s, files, config).outcome.Pass?
    ensures forall k :: 0 <= k < |config.loaders| ==>
      var (name, cfg) := config.loaders[k];
      var out := LoadSpec(s, files, config).after.definitions;
      && LoaderId(name) in out
      && out[LoaderId(name)].visibility == Some(true)
      && LOADER_TAG in out[LoaderId(name)].tags
      && ArgumentAt(out[LoaderId(name)], 0)
         == Some(Ref(if cfg.kind == CUSTOM_KIND then cfg.repository else RepositoryId(name)))
  {
    var defs := Imported(BeforeLoaders(s, files, config), files, LOADER_BUNDLE).definitions;
    forall k | 0 <= k < |config.loaders|
      ensures var (name, cfg) := config.loaders[k];
        var out := LoadSpec(s, files, config).after.definitions;
        && LoaderId(name) in out
        && out[LoaderId(name)].visibility == Some(true)
        && LOADER_TAG in out[LoaderId(name)].tags
        && ArgumentAt(out[LoaderId(name)], 0)
           == Some(Ref(if cfg.kind == CUSTOM_KIND then cfg.repository else RepositoryId(name)))
    {
      LoaderRegistered(defs, config.loaders, k);
    }
  }

  /** The bundle files as far as the scenarios need them: `loader.yml` declares the abstract loader. */
  function ScenarioFiles(): Files
  {
    map[LOADER_BUNDLE := map[LOADER_ABSTRACT_ID := Definition(None, [Null, Null, Null], map[], None, [], None, None)]]
  }

  const EMPTY: State := State(map[], map[], [])
  const OFF: Config := Config(DeferConfig(false, ""), ConstraintConfig(false, ""), false, [])

  /** No option set: only the exclamation parameter, false; nothing imported, nothing defined. */
  lemma MinimalScenario()
    ensures LoadSpec(EMPTY, ScenarioFiles(), OFF) == Step(State(map[], map[EXCLAMATION_PARAMETER := Bool(false)], []), Pass)
  {
  }

  /** Defer alone: the defer bundle is imported and its prefix recorded. */
  lemma DeferScenario()
    ensures var r := LoadSpec(EMPTY, ScenarioFiles(), OFF.(defer := DeferConfig(true, "_d_")));
      && r.outcome.Pass?
      && r.after.imports == [DEFER_BUNDLE]
      && r.after.parameters[DEFER_PREFIX_PARAMETER] == Str("_d_")
  {
  }

  /** An ORM loader whose model class is written with a leading backslash. */
  const ORM_LOADER: LoaderConfig := LoaderConfig("orm", "@db/", "", "\\App\\Tpl", "")

  /** One ORM loader, whatever its name: manager, repository and loader, wired together. */
  lemma OrmScenario(name: string)
    ensures var r := LoadSpec(EMPTY, ScenarioFiles(), OFF.(loaders := [(name, ORM_LOADER)]));
      var defs := r.after.definitions;
      && r.outcome.Pass?
      && r.after.imports == [LOADER_BUNDLE]
      && Lookup(defs, ManagerId(name)) == Some(ManagerDefinition("doctrine", "App\\Tpl"))
      && Lookup(defs, RepositoryId(name)) == Some(RepositoryDefinition(name, "App\\Tpl"))
      && Lookup(defs, LoaderId(name)) == Some(LoaderDefinition(RepositoryId(name), ORM_LOADER))
  {
    var loaders := [(name, ORM_LOADER)];
    OnlyLoaders(loaders);
    var imported := Imported(State(map[], map[EXCLAMATION_PARAMETER := Bool(false)], []), ScenarioFiles(), LOADER_BUNDLE);
    assert LOADER_ABSTRACT_ID in imported.definitions && imported.imports == [LOADER_BUNDLE];
    OrmSetup(imported.definitions, name);
  }

  /** With every toggle off, `load` is the loaders step on a container holding only the exclamation parameter. */
  lemma OnlyLoaders(loaders: Loaders)
    ensures LoadSpec(EMPTY, ScenarioFiles(), OFF.(loaders := loaders))
         == LoadersStep(State(map[], map[EXCLAMATION_PARAMETER := Bool(false)], []), ScenarioFiles(), loaders)
  {
  }

  /** Setting up the ORM loader alone writes its manager, its repository and the loader itself. */
  lemma OrmSetup(defs: map<string, Definition>, name: string)
    ensures var run := SetupLoaders(defs, [(name, ORM_LOADER)]);
      && run.outcome.Pass?
      && Lookup(run.definitions, ManagerId(name)) == Some(ManagerDefinition("doctrine", "App\\Tpl"))
      && Lookup(run.definitions, RepositoryId(name)) == Some(RepositoryDefinition(name, "App\\Tpl"))
      && Lookup(run.definitions, LoaderId(name)) == Some(LoaderDefinition(RepositoryId(name), ORM_LOADER))
  {
    assert Accepted(ORM_LOADER);
    SingleLoaderRun(defs, name, ORM_LOADER);
    OrmDefinitions(defs, name);
    KindsDistinct(name);
  }

  lemma OrmDefinitions(defs: map<string, Definition>, name: string)
    ensures SetupLoaderDefs(defs, name, ORM_LOADER)
         == Ok(defs[ManagerId(name) := ManagerDefinition("doctrine", "App\\Tpl")]
                   [RepositoryId(name) := RepositoryDefinition(name, "App\\Tpl")]
                   [LoaderId(name) := LoaderDefinition(RepositoryId(name), ORM_LOADER)])
  {
    assert LTrimBackslash("\\App\\Tpl") == LTrimBackslash("App\\Tpl") == "App\\Tpl";
  }

  lemma SingleLoaderRun(defs: map<string, Definition>, name: string, cfg: LoaderConfig)
    requires Accepted(cfg)
    ensures SetupLoaders(defs, [(name, cfg)]) == Run(SetupLoaderDefs(defs, name, cfg).value, Pass)
  {
    assert [(name, cfg)][1..] == [];
  }

  /** A custom loader without a repository: `load` fails with the error naming it. */
  lemma CustomWithoutRepositoryScenario()
    ensures var cfg := LoaderConfig(CUSTOM_KIND, "p", "", "", "");
      var r := LoadSpec(EMPTY, ScenarioFiles(), OFF.(loaders := [("x", cfg)]));
      && r.outcome == Fail(MissingRepository("x"))
      && Message(r.outcome.error) == "No repository option provided for x"
      && LoaderId("x") !in r.after.definitions
  {
  }
}
