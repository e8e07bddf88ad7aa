# TwigJackBundle container extension, modelled in Dafny

`BoekkooiTwigJackExtension` is the dependency-injection extension of a Symfony
bundle that adds Twig features. At container-compile time its `load` takes the
validated bundle configuration and writes service definitions and parameters
into the `ContainerBuilder`:

- **defer**: when enabled, sets `boekkooi.twig_jack.defer.prefix` and imports `defer.yml`;
- **constraint**: when enabled, imports `constraint.yml` and rebinds argument 0 of
  `boekkooi.twig_jack.constraint_validator` to a reference to the configured Twig environment;
- **exclamation**: always sets `boekkooi.twig_jack.exclamation` to the flag, and imports
  `exclamation.yml` when it is true;
- **loaders**: when any are configured, imports `loader.yml` once and then, per named loader N,
  builds `boekkooi.twig_jack.loaders.N` (public, tagged `twig.loader`, arguments: repository
  reference, prefix, locale-callable reference or null). A `custom` loader names its repository
  service itself. An `orm`, `mongo` or `couch` loader gets `N.object_manager`, built by the
  registry service `doctrine`, `doctrine_mongodb` or `doctrine_couchdb` through `getManagerForClass`.
  It also gets `N.object_repository`, built by that manager through `getRepository`. Both take the
  model class without its leading backslashes.

The model keeps the source's imperative shape. `Container.ContainerBuilder` is a class holding
the definitions map, the parameters map, and the list of imported files. The extension's methods
(`Extension.Load`, `LoadLoaders`, `SetupLoader`, `CreateLoaderRepository`, `LoadDefer`,
`LoadConstraint`, `LoadExclamation`) change it call by call, through `setDefinition`, `setPublic`,
`addTag`, `replaceArgument`, `setArguments` and the two factory APIs. Each method is proved equal
to a step function on container snapshots (`DeferStep`, `ConstraintStep`, `ExclamationStep`,
`LoadersStep`, `LoadSpec`). The lemmas in `LoaderGraph` and `Properties` state what the
extension guarantees about those functions.

Files: `wrappers.dfy` (Option/Result/Outcome), `ids.dfy` (id derivation, `ltrim`, the registry
table), `services.dfy` (definitions, values, errors), `container.dfy` (the container),
`loader_graph.dfy` (the loader factory graph), `extension.dfy` (the extension's methods),
`properties.dfy` (what `load` guarantees, and the worked scenarios).

Modelling choices:
- Each YAML file of `Resources/config` is a parameter `files`, giving what the file declares.
  `ContainerBuilder.Import` records the file name and merges those definitions over existing ones.
- The `method_exists(..., 'setFactory')` probe is the boolean `useFactoryMethod` given to `Load`.
  Both factory APIs end in the same (service, method) pair; `Extension.BindFactory` proves this.
- `visibility` is `None` on a definition the extension never marks. It then keeps the host's
  default. `N.object_repository` stays `None`; the loader and the manager are `Some(true)`.
- `replaceArgument` writes an override on a child definition (`DefinitionDecorator`) at any index.
  On a plain definition it writes an existing position, and fails past the end of the list.
- An option that is absent, null or empty is the empty string.
- The loaders are a sequence of (name, config) pairs, in the PHP array's iteration order.

Behaviour worth noting:
- Derived ids are not collision-free for every name. The loader named `a.object_manager` gets
  the id of loader `a`'s object manager (`ServiceIds.DottedNameCollides`). When both are
  configured, the later one overwrites the earlier one's definition
  (`LoaderGraph.DottedNameReplacesManager`). Distinct names without a dot derive distinct
  ids (`ServiceIds.DotFreeNamesDisjoint`), as ids are compared here, which is case-sensitively
  (see "## Left out"). The per-loader guarantees (`LoaderRegistered`, `DoctrineAuxiliaries`,
  `EveryLoaderRegistered`) assume `LoaderGraph.IdsDisjoint`: different loader names share none of
  their three possible ids. This is a sufficient condition on the names, not a necessary one.
  Two custom loaders `a` and `a.object_manager` write disjoint ids, yet they fail it. The configuration schema that might forbid such names is not part
  of this model.
- A configuration error in loader k aborts `load`, but the container is not left unchanged.
  The definitions of loaders 0..k-1, and every earlier import and parameter, stay
  (`LoaderGraph.FirstRejection`). Only the rejected loader itself adds nothing
  (`LoaderGraph.RejectedLoaderAddsNothing`).
- A constraint-validator lookup that fails aborts `load` before the exclamation parameter is set.

## Model

| member | source | states |
|---|---|---|
| ServiceIds.LoaderId | src/DependencyInjection/BoekkooiTwigJackExtension.php:55 | the loader id is the fixed `boekkooi.twig_jack.loaders.` prefix followed by the name, and gives the name back |
| ServiceIds.ManagerId | src/DependencyInjection/BoekkooiTwigJackExtension.php:90 | the manager id is the loader id followed by `.object_manager` |
| ServiceIds.RepositoryId | src/DependencyInjection/BoekkooiTwigJackExtension.php:89 | the repository id is the loader id followed by `.object_repository` |
| ServiceIds.LoaderIdInjective | src/DependencyInjection/BoekkooiTwigJackExtension.php:55 | two loader names map to the same loader id iff they are equal |
| ServiceIds.ManagerIdInjective | src/DependencyInjection/BoekkooiTwigJackExtension.php:90 | two names map to the same manager id iff they are equal |
| ServiceIds.RepositoryIdInjective | src/DependencyInjection/BoekkooiTwigJackExtension.php:89 | two names map to the same repository id iff they are equal |
| ServiceIds.KindsDistinct | src/DependencyInjection/BoekkooiTwigJackExtension.php:89-90 | for one name, the loader, manager and repository ids are pairwise distinct |
| ServiceIds.DottedNameCollides | src/DependencyInjection/BoekkooiTwigJackExtension.php:89-90 | the loader `N.object_manager` gets the same id as loader N's manager, so derivation is not collision-free |
| ServiceIds.DotFreeNamesDisjoint | src/DependencyInjection/BoekkooiTwigJackExtension.php:89-90 | distinct names without a dot share no derived id |
| ServiceIds.DerivedIdsAvoidFixedIds | src/DependencyInjection/BoekkooiTwigJackExtension.php:55-57 | no derived id equals the abstract parents' ids or the constraint validator's id |
| ServiceIds.LTrimBackslash | src/DependencyInjection/BoekkooiTwigJackExtension.php:92 | the result is a suffix of the input, does not start with a backslash, and everything dropped was a backslash |
| ServiceIds.LTrimIdempotent | src/DependencyInjection/BoekkooiTwigJackExtension.php:92 | stripping twice is stripping once |
| ServiceIds.LTrimKeepsPlainNames | src/DependencyInjection/BoekkooiTwigJackExtension.php:92 | a class name without a leading backslash is passed on unchanged |
| ServiceIds.LTrimSplits | src/DependencyInjection/BoekkooiTwigJackExtension.php:92 | the input is exactly a run of backslashes followed by the result |
| ServiceIds.RegistryFor | src/DependencyInjection/BoekkooiTwigJackExtension.php:74-86 | a registry exists exactly for the types `orm`, `mongo` and `couch` |
| ServiceIds.RegistryTable | src/DependencyInjection/BoekkooiTwigJackExtension.php:74-82 | `orm` maps to `doctrine`, `mongo` to `doctrine_mongodb`, `couch` to `doctrine_couchdb`, and `custom` has no registry |
| ServiceIds.RegistryInjective | src/DependencyInjection/BoekkooiTwigJackExtension.php:74-82 | distinct Doctrine types use distinct registries |
| Services.Message | src/DependencyInjection/BoekkooiTwigJackExtension.php:70 | a configuration error's message ends with the loader's name |
| Services.ReplaceArgument | src/DependencyInjection/BoekkooiTwigJackExtension.php:59-62 | after a successful replacement, position i holds the new value and every other position is unchanged; only a plain definition with too few arguments fails |
| Services.WithFactory | src/DependencyInjection/BoekkooiTwigJackExtension.php:115-125 | binding a factory sets its service and method and changes nothing else |
| Container.Imported | src/DependencyInjection/BoekkooiTwigJackExtension.php:42 | importing a file appends its name, keeps the parameters, and keeps every definition the file does not redeclare |
| LoaderGraph.RepositoryFor | src/DependencyInjection/BoekkooiTwigJackExtension.php:65-90 | succeeds iff the loader is custom with a repository or a Doctrine type; a custom loader yields its own repository id, a Doctrine loader yields `N.object_repository`; errors name the loader; a custom loader without a repository fails with MissingRepository |
| LoaderGraph.DerivedIds | src/DependencyInjection/BoekkooiTwigJackExtension.php:89-90 | the ids an accepted loader writes: always its loader id, and the manager and repository ids iff it is not custom |
| LoaderGraph.SetupLoaderDefs | src/DependencyInjection/BoekkooiTwigJackExtension.php:50-63 | one loader succeeds iff it is accepted; on success exactly its derived ids are added and every other definition is unchanged; on failure the error is the repository check's |
| LoaderGraph.SetupLoaders | src/DependencyInjection/BoekkooiTwigJackExtension.php:45-47 | the run over all loaders succeeds iff every loader is accepted, and no id outside the loaders' derived ids changes |
| LoaderGraph.LoaderRegistered | src/DependencyInjection/BoekkooiTwigJackExtension.php:55-62 | each loader N ends public at `LOADER(N)`, child of the abstract loader, tagged `twig.loader`, with arg 0 a reference to its repository, arg 1 its prefix, arg 2 a reference to its locale callable or null |
| LoaderGraph.DoctrineAuxiliaries | src/DependencyInjection/BoekkooiTwigJackExtension.php:92-127 | a Doctrine loader ends with a public manager built by the type's registry via `getManagerForClass`, and an unmarked repository built by that manager via `getRepository`; both take the stripped model class, which does not start with a backslash |
| LoaderGraph.CustomAddsNoAuxiliaries | src/DependencyInjection/BoekkooiTwigJackExtension.php:68-73 | a custom loader leaves `N.object_manager` and `N.object_repository` as they were |
| LoaderGraph.FirstRejection | src/DependencyInjection/BoekkooiTwigJackExtension.php:45-47 | a failed run stops at the first rejected loader with that loader's error, keeping exactly the definitions of the loaders before it |
| LoaderGraph.RejectionShifts | src/DependencyInjection/BoekkooiTwigJackExtension.php:45-47 | when the first loader is accepted, a rejection at position k of the remaining loaders is a rejection at k + 1 of the whole run |
| LoaderGraph.RejectedLoaderAddsNothing | src/DependencyInjection/BoekkooiTwigJackExtension.php:69-71 | a rejected loader leaves all of its own ids unchanged |
| LoaderGraph.DotFreeLoadersDisjoint | src/DependencyInjection/BoekkooiTwigJackExtension.php:89-90 | distinct dot-free loader names give disjoint ids |
| LoaderGraph.DottedNameReplacesManager | src/DependencyInjection/BoekkooiTwigJackExtension.php:89-96 | for any name N, an ORM loader N followed by a custom loader `N.object_manager` succeeds, and N's manager id ends holding the custom loader's definition |
| LoaderGraph.OwnDefinitionWritten | src/DependencyInjection/BoekkooiTwigJackExtension.php:55-127 | an accepted loader's step writes, at each of its own ids, a definition that depends only on that loader and not on what was there before |
| LoaderGraph.LocaleArgument | src/DependencyInjection/BoekkooiTwigJackExtension.php:62 | defines argument 2 of a loader: a reference to the locale callable when one is named, else null |
| LoaderGraph.LoaderDefinition | src/DependencyInjection/BoekkooiTwigJackExtension.php:55-62 | defines the definition written at `LOADER(N)`; its shape is stated by `LoaderDefinitionShape` |
| LoaderGraph.LoaderDefinitionShape | src/DependencyInjection/BoekkooiTwigJackExtension.php:55-62 | the loader definition is a child of the abstract loader, public, tagged `twig.loader`, with arg 0 the repository reference, arg 1 the prefix, arg 2 the locale argument |
| LoaderGraph.ManagerDefinition | src/DependencyInjection/BoekkooiTwigJackExtension.php:95-109 | defines the definition written at `N.object_manager`; `DoctrineAuxiliaries` states its parent, visibility, argument and factory |
| LoaderGraph.RepositoryDefinition | src/DependencyInjection/BoekkooiTwigJackExtension.php:112-125 | defines the definition written at `N.object_repository`; `DoctrineAuxiliaries` states its parent, argument and factory |
| LoaderGraph.AuxiliaryDefinitions | src/DependencyInjection/BoekkooiTwigJackExtension.php:89-125 | defines the two Doctrine definitions written over the existing ones, with the stripped model class |
| LoaderGraph.OwnIdsSurvive | src/DependencyInjection/BoekkooiTwigJackExtension.php:45-127 | after a successful run over loaders with disjoint ids, every id the k-th loader derives holds that loader's own definition |
| Extension.Load | src/DependencyInjection/BoekkooiTwigJackExtension.php:22-34 | runs defer, constraint, exclamation and loaders in that order, stopping at a constraint error; the container ends as `LoadSpec` says |
| Extension.LoadLoaders | src/DependencyInjection/BoekkooiTwigJackExtension.php:36-48 | with no loaders nothing changes; otherwise `loader.yml` is imported once, the abstract loader must exist, then every loader is set up in order, stopping at the first error |
| Extension.SetupLoader | src/DependencyInjection/BoekkooiTwigJackExtension.php:50-63 | the definitions end as `SetupLoaderDefs` gives, or stay unchanged when the loader is rejected; parameters and imports are untouched |
| Extension.CreateLoaderRepository | src/DependencyInjection/BoekkooiTwigJackExtension.php:65-128 | returns the repository id or the configuration error; only a Doctrine loader adds the manager and repository definitions |
| Extension.BindFactory | src/DependencyInjection/BoekkooiTwigJackExtension.php:99-109 | the newer `setFactory` and the older `setFactoryService` + `setFactoryMethod` leave the same definition |
| Extension.LoadDefer | src/DependencyInjection/BoekkooiTwigJackExtension.php:130-138 | when enabled, sets the prefix parameter and imports `defer.yml`; otherwise nothing changes |
| Extension.LoadConstraint | src/DependencyInjection/BoekkooiTwigJackExtension.php:140-149 | when enabled, imports `constraint.yml` and rebinds the validator's argument 0, failing if the validator is missing; otherwise nothing changes |
| Extension.LoadExclamation | src/DependencyInjection/BoekkooiTwigJackExtension.php:156-163 | sets the exclamation parameter to the flag and imports `exclamation.yml` iff the flag is true |
| Extension.DeferStep | src/DependencyInjection/BoekkooiTwigJackExtension.php:130-138 | defines what `loadDefer` does to a container snapshot; `DeferPrefixRecorded` and `DeferImports` state it |
| Extension.ConstraintStep | src/DependencyInjection/BoekkooiTwigJackExtension.php:140-149 | defines what `loadConstraint` does to a container snapshot; `ValidatorRebound`, `MissingValidatorFails` and `ConstraintImports` state it |
| Extension.ExclamationStep | src/DependencyInjection/BoekkooiTwigJackExtension.php:156-163 | defines what `loadExclamation` does to a container snapshot; `ExclamationRecorded` and `ExclamationImports` state it |
| Extension.LoadersStep | src/DependencyInjection/BoekkooiTwigJackExtension.php:36-48 | defines what `loadLoaders` does to a container snapshot; `LoadersImports`, `NoLoadersNoChange` and the `LoaderGraph` lemmas state it |
| Extension.LoadSpec | src/DependencyInjection/BoekkooiTwigJackExtension.php:22-34 | defines what `load` does to a container snapshot: the four steps in source order, stopping at a constraint error |
| Extension.DefineLoader | src/DependencyInjection/BoekkooiTwigJackExtension.php:55-62 | the definitions gain exactly `LOADER(N)` := `LoaderDefinition`; parameters and imports are untouched |
| Extension.DefineManager | src/DependencyInjection/BoekkooiTwigJackExtension.php:95-109 | the definitions gain exactly `N.object_manager` := `ManagerDefinition`, whichever factory API is used; parameters and imports are untouched |
| Extension.DefineRepository | src/DependencyInjection/BoekkooiTwigJackExtension.php:112-125 | the definitions gain exactly `N.object_repository` := `RepositoryDefinition`, whichever factory API is used; parameters and imports are untouched |
| Properties.DeferImports | src/DependencyInjection/BoekkooiTwigJackExtension.php:136-137 | the defer step appends `defer.yml` to the imports iff defer is enabled |
| Properties.ConstraintImports | src/DependencyInjection/BoekkooiTwigJackExtension.php:142-146 | the constraint step appends `constraint.yml` to the imports iff constraint is enabled, whether or not the validator lookup then fails |
| Properties.ExclamationImports | src/DependencyInjection/BoekkooiTwigJackExtension.php:160-162 | the exclamation step appends `exclamation.yml` iff the flag is true |
| Properties.LoadersImports | src/DependencyInjection/BoekkooiTwigJackExtension.php:38-42 | the loaders step appends `loader.yml` iff there are loaders, whether or not a loader then fails |
| Properties.LoadersStepKeepsParameters | src/DependencyInjection/BoekkooiTwigJackExtension.php:36-48 | the loaders step never changes a parameter |
| Properties.LoadersKeepValidator | src/DependencyInjection/BoekkooiTwigJackExtension.php:45-62 | no loader writes the constraint validator's id, so the run leaves it as it was |
| Properties.LoadImports | src/DependencyInjection/BoekkooiTwigJackExtension.php:29-42 | a successful `load` appends exactly the enabled features' files, in the fixed order |
| Properties.BundlesFollowFlags | src/DependencyInjection/BoekkooiTwigJackExtension.php:29-33 | each feature file is imported iff its flag is set |
| Properties.LoaderBundleOnce | src/DependencyInjection/BoekkooiTwigJackExtension.php:38-42 | `loader.yml` is imported exactly once when there are loaders, and never otherwise |
| Properties.LoaderBundleLast | src/DependencyInjection/BoekkooiTwigJackExtension.php:42 | with loaders, `loader.yml` is the last file imported, so it comes before any loader is set up |
| Properties.ExclamationRecorded | src/DependencyInjection/BoekkooiTwigJackExtension.php:158 | after a successful `load` the exclamation parameter holds the flag |
| Properties.DeferPrefixRecorded | src/DependencyInjection/BoekkooiTwigJackExtension.php:132-136 | the defer prefix parameter is the configured prefix when defer is enabled, and untouched otherwise |
| Properties.ValidatorRebound | src/DependencyInjection/BoekkooiTwigJackExtension.php:146-148 | with constraint enabled, the validator's argument 0 ends a reference to the configured environment, unless a later file redeclares it |
| Properties.MissingValidatorFails | src/DependencyInjection/BoekkooiTwigJackExtension.php:147 | with constraint enabled and no validator declared, `load` fails with ServiceNotFound |
| Properties.NoLoadersNoChange | src/DependencyInjection/BoekkooiTwigJackExtension.php:38-40 | without loaders, the loaders step imports nothing and defines nothing |
| Properties.EveryLoaderRegistered | src/DependencyInjection/BoekkooiTwigJackExtension.php:45-62 | after a successful `load`, every configured loader has a public, tagged definition whose arg 0 references its repository |
| Properties.MinimalScenario | src/DependencyInjection/BoekkooiTwigJackExtension.php:22-34 | with nothing configured, only the exclamation parameter is set, to false |
| Properties.DeferScenario | src/DependencyInjection/BoekkooiTwigJackExtension.php:130-138 | defer alone imports `defer.yml` and records prefix `_d_` |
| Properties.OrmScenario | src/DependencyInjection/BoekkooiTwigJackExtension.php:65-127 | `load` with one ORM loader of any name and model class `\App\Tpl` succeeds, imports only `loader.yml`, and holds the manager, repository and loader definitions with class `App\Tpl` |
| Properties.OrmDefinitions | src/DependencyInjection/BoekkooiTwigJackExtension.php:89-125 | setting up that ORM loader writes exactly the manager, the repository and the loader over the existing definitions |
| Properties.CustomWithoutRepositoryScenario | src/DependencyInjection/BoekkooiTwigJackExtension.php:68-71 | a custom loader `x` without a repository fails with "No repository option provided for x", and `x` gets no loader definition |

## Left out

- `Processor::processConfiguration` and the `Configuration` schema are not part of this model. `Load` takes the already validated configuration (`Extension.Config`).
- The YAML files' contents and file I/O: `files` is a parameter. Parameters that a YAML file may declare are not modelled. A file missing from `files` declares nothing: the locator's file-not-found error is not modelled.
- The `method_exists` reflection probe is an input, `useFactoryMethod`.
- Service ids and reference targets are compared case-sensitively. The host container lowercases every id in `setDefinition`, `getDefinition` and `Reference`. So loaders `Blog` and `blog` share all three ids there, which the model does not capture: `DotFreeNamesDisjoint` and `DotFreeLoadersDisjoint` hold only for names that are distinct after lowercasing.
- How a child definition inherits from its parent, how references resolve, and the host's default visibility are not modelled. `setDefinition` overwrites whatever the id held.
- `addTag`'s attribute array (always empty here) is not modelled; a tag is its name.
- PHP `empty()` treats `"0"` as empty; here only the empty string is empty. `(string)` on the prefix is the identity, because the prefix is already a string.
- Integer-like loader names: PHP turns such array keys into integers, and `sprintf` turns them back into the same digits. The names here are strings.
- Symfony's own exception messages (service not found, index out of bounds) are not modelled; the errors carry only the id or index.
