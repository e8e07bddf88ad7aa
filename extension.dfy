/**
 * The extension's `load` and its private steps, as methods that change a
 * `ContainerBuilder` call by call, each proved equal to a step function on
 * container snapshots. `files` stands for the YAML loader of the bundle's
 * configuration directory; `useFactoryMethod` is the answer of the probe for
 * the newer factory API.
 */
module Extension {
  import opened Wrappers
  import opened ServiceIds
  import opened Services
  import opened Container
  import opened LoaderGraph

  datatype DeferConfig = DeferConfig(enabled: bool, prefix: string)
  datatype ConstraintConfig = ConstraintConfig(enabled: bool, environment: string)

  /** The configuration after the schema has merged and validated it. */
  datatype Config = Config(
    defer: DeferConfig,
    constraint: ConstraintConfig,
    exclamation: bool,
    loaders: Loaders)

  /** The container after a step, and whether the step raised an error. */
  datatype Step = Step(after: State, outcome: Outcome<Error>)

  /** `loadDefer` */
  function DeferStep(s: State, files: Files, cfg: DeferConfig): State
  {
    if !cfg.enabled then s
    else Imported(s.(parameters := s.parameters[DEFER_PREFIX_PARAMETER := Str(cfg.prefix)]), files, DEFER_BUNDLE)
  }

  /** `loadConstraint` */
  function ConstraintStep(s: State, files: Files, cfg: ConstraintConfig): Step
  {
    if !cfg.enabled then Step(s, Pass)
    else
      var imported := Imported(s, files, CONSTRAINT_BUNDLE);
      if VALIDATOR_ID !in imported.definitions then Step(imported, Fail(ServiceNotFound(VALIDATOR_ID)))
      else match ReplaceArgument(imported.definitions[VALIDATOR_ID], 0, Ref(cfg.environment))
        case Err(e) => Step(imported, Fail(e))
        case Ok(d) => Step(imported.(definitions := imported.definitions[VALIDATOR_ID := d]), Pass)
  }

  /** `loadExclamation` */
  function ExclamationStep(s: State, files: Files, flag: bool): State
  {
    var recorded := s.(parameters := s.parameters[EXCLAMATION_PARAMETER := Bool(flag)]);
    if flag then Imported(recorded, files, EXCLAMATION_BUNDLE) else recorded
  }

  /** `loadLoaders` */
  function LoadersStep(s: State, files: Files, loaders: Loaders): Step
  {
    if |loaders| == 0 then Step(s, Pass)
    else
      var imported := Imported(s, files, LOADER_BUNDLE);
      if LOADER_ABSTRACT_ID !in imported.definitions then Step(imported, Fail(ServiceNotFound(LOADER_ABSTRACT_ID)))
      else
        var run := SetupLoaders(imported.definitions, loaders);
        Step(imported.(definitions := run.definitions), run.outcome)
  }

  /** `load`, after the configuration has been processed: the four steps in order, stopping at an error. */
  function LoadSpec(s: State, files: Files, config: Config): Step
  {
    var deferred := DeferStep(s, files, config.defer);
    var constrained := ConstraintStep(deferred, files, config.constraint);
    if constrained.outcome.Fail? then constrained
    else LoadersStep(ExclamationStep(constrained.after, files, config.exclamation), files, config.loaders)
  }

  method Load(c: ContainerBuilder, files: Files, config: Config, useFactoryMethod: bool) returns (r: Outcome<Error>)
    modifies c
    ensures Step(c.Snapshot(), r) == LoadSpec(old(c.Snapshot()), files, config)
  {
    LoadDefer(c, files, config.defer);
    r := LoadConstraint(c, files, config.constraint);
    if r.Fail? {
      return;
    }
    LoadExclamation(c, files, config.exclamation);
    r := LoadLoaders(c, files, config.loaders, useFactoryMethod);
  }

  method LoadLoaders(c: ContainerBuilder, files: Files, loaders: Loaders, useFactoryMethod: bool) returns (r: Outcome<Error>)
    modifies c
    ensures Step(c.Snapshot(), r) == LoadersStep(old(c.Snapshot()), files, loaders)
  {
    if |loaders| == 0 {
      return Pass;
    }
    c.Import(LOADER_BUNDLE, files);
    var loaderAbstract := c.GetDefinition(LOADER_ABSTRACT_ID);
    if loaderAbstract.Err? {
      return Fail(loaderAbstract.error);
    }
    ghost var start := c.definitions;
    r := Pass;
    var i := 0;
    while i < |loaders|
      invariant 0 <= i <= |loaders|
      invariant c.parameters == old(c.parameters) && c.imports == old(c.imports) + [LOADER_BUNDLE]
      invariant SetupLoaders(start, loaders) == SetupLoaders(c.definitions, loaders[i..])
      invariant r == Pass
    {
      assert loaders[i..][0] == loaders[i] && loaders[i..][1..] == loaders[i + 1..];
      r := SetupLoader(c, loaders[i].0, loaders[i].1, useFactoryMethod);
      if r.Fail? {
        return;
      }
      i := i + 1;
    }
    assert loaders[i..] == [];
  }

  method SetupLoader(c: ContainerBuilder, name: string, cfg: LoaderConfig, useFactoryMethod: bool) returns (r: Outcome<Error>)
    modifies c
    ensures c.parameters == old(c.parameters) && c.imports == old(c.imports)
    ensures match SetupLoaderDefs(old(c.definitions), name, cfg)
      case Ok(defs) => r.Pass? && c.definitions == defs
      case Err(e) => r == Fail(e) && c.definitions == old(c.definitions)
  {
    var repository := CreateLoaderRepository(c, name, cfg, useFactoryMethod);
    if repository.Err? {
      return Fail(repository.error);
    }
    DefineLoader(c, name, repository.value, cfg);
    r := Pass;
  }

  method CreateLoaderRepository(c: ContainerBuilder, name: string, cfg: LoaderConfig, useFactoryMethod: bool)
    returns (r: Result<string, Error>)
    modifies c
    ensures r == RepositoryFor(name, cfg)
    ensures c.parameters == old(c.parameters) && c.imports == old(c.imports)
    ensures c.definitions
         == if r.Ok? && cfg.kind != CUSTOM_KIND then AuxiliaryDefinitions(old(c.definitions), name, cfg) else old(c.definitions)
  {
    if cfg.kind == CUSTOM_KIND {
      if cfg.repository == "" {
        return Err(MissingRepository(name));
      }
      return Ok(cfg.repository);
    }
    var registry := RegistryFor(cfg.kind);
    if registry.None? {
      return Err(UnknownLoaderType(name));
    }
    var repositoryService := RepositoryId(name);
    var managerService := ManagerId(name);
    var modelClass := LTrimBackslash(cfg.modelClass);

    DefineManager(c, managerService, registry.value, modelClass, useFactoryMethod);
    DefineRepository(c, name, modelClass, useFactoryMethod);
    return Ok(repositoryService);
  }

  /** The loader half of `setupLoader`: `LOADER(N)`, reading from `repository`. */
  method DefineLoader(c: ContainerBuilder, name: string, repository: string, cfg: LoaderConfig)
    modifies c
    ensures c.definitions == old(c.definitions)[LoaderId(name) := LoaderDefinition(repository, cfg)]
    ensures c.parameters == old(c.parameters) && c.imports == old(c.imports)
  {
    var id := LoaderId(name);
    c.SetDefinition(id, Decorator(LOADER_ABSTRACT_ID));
    c.SetPublic(id, true);
    c.AddTag(id, LOADER_TAG);
    // a child definition accepts an override at any index
    var replaced := c.ReplaceArgument(id, 0, Ref(repository));
    replaced := c.ReplaceArgument(id, 1, Str(cfg.prefix));
    replaced := c.ReplaceArgument(id, 2, LocaleArgument(cfg.localeCallable));
    assert c.definitions[id] == LoaderDefinition(repository, cfg);
  }

  /** The manager half of `createLoaderRepository`: `MGR(N)`, built by the registry. */
  method DefineManager(c: ContainerBuilder, id: string, registry: string, modelClass: string, useFactoryMethod: bool)
    modifies c
    ensures c.definitions == old(c.definitions)[id := ManagerDefinition(registry, modelClass)]
    ensures c.parameters == old(c.parameters) && c.imports == old(c.imports)
  {
    c.SetDefinition(id, Decorator(MANAGER_ABSTRACT_ID));
    c.SetPublic(id, true);
    c.SetArguments(id, [Str(modelClass)]);
    BindFactory(c, id, registry, GET_MANAGER_FOR_CLASS, useFactoryMethod);
  }

  /** The repository half of `createLoaderRepository`: `REPO(N)`, built by `MGR(N)`. */
  method DefineRepository(c: ContainerBuilder, name: string, modelClass: string, useFactoryMethod: bool)
    modifies c
    ensures c.definitions == old(c.definitions)[RepositoryId(name) := RepositoryDefinition(name, modelClass)]
    ensures c.parameters == old(c.parameters) && c.imports == old(c.imports)
  {
    var id := RepositoryId(name);
    c.SetDefinition(id, Decorator(REPOSITORY_ABSTRACT_ID));
    c.SetArguments(id, [Str(modelClass)]);
    BindFactory(c, id, ManagerId(name), GET_REPOSITORY, useFactoryMethod);
  }

  /**
   * Binds a factory through the API the probe chose: `setFactory` with a
   * reference, or `setFactoryService` then `setFactoryMethod`. Both leave
   * the same definition behind.
   */
  method BindFactory(c: ContainerBuilder, id: string, service: string, factoryName: string, useFactoryMethod: bool)
    requires id in c.definitions
    modifies c
    ensures c.definitions == old(c.definitions)[id := WithFactory(old(c.definitions)[id], service, factoryName)]
    ensures c.parameters == old(c.parameters) && c.imports == old(c.imports)
  {
    if useFactoryMethod {
      c.SetFactory(id, service, factoryName);
    } else {
      c.SetFactoryService(id, service);
      c.SetFactoryMethod(id, factoryName);
    }
  }

  method LoadDefer(c: ContainerBuilder, files: Files, cfg: DeferConfig)
    modifies c
    ensures c.Snapshot() == DeferStep(old(c.Snapshot()), files, cfg)
  {
    if !cfg.enabled {
      return;
    }
    c.SetParameter(DEFER_PREFIX_PARAMETER, Str(cfg.prefix));
    c.Import(DEFER_BUNDLE, files);
  }

  method LoadConstraint(c: ContainerBuilder, files: Files, cfg: ConstraintConfig) returns (r: Outcome<Error>)
    modifies c
    ensures Step(c.Snapshot(), r) == ConstraintStep(old(c.Snapshot()), files, cfg)
  {
    if !cfg.enabled {
      return Pass;
    }
    c.Import(CONSTRAINT_BUNDLE, files);
    var validator := c.GetDefinition(VALIDATOR_ID);
    if validator.Err? {
      return Fail(validator.error);
    }
    r := c.ReplaceArgument(VALIDATOR_ID, 0, Ref(cfg.environment));
  }

  method LoadExclamation(c: ContainerBuilder, files: Files, flag: bool)
    modifies c
    ensures c.Snapshot() == ExclamationStep(old(c.Snapshot()), files, flag)
  {
    c.SetParameter(EXCLAMATION_PARAMETER, Bool(flag));
    if flag {
      c.Import(EXCLAMATION_BUNDLE, files);
    }
  }
}
