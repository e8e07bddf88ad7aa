/**
 * The pure helpers of the extension: the service ids it derives from a
 * loader's name (the `sprintf` calls), the `ltrim` of a model class name,
 * and the table from loader type to Doctrine registry service.
 */
module ServiceIds {
  import opened Wrappers

  const LOADER_ID_PREFIX: string := "boekkooi.twig_jack.loaders."
  const MANAGER_SUFFIX: string := ".object_manager"
  const REPOSITORY_SUFFIX: string := ".object_repository"

  const LOADER_ABSTRACT_ID: string := "boekkooi.twig_jack.loader.abstract"
  const MANAGER_ABSTRACT_ID: string := "boekkooi.twig_jack.doctrine.object_manager.abstract"
  const REPOSITORY_ABSTRACT_ID: string := "boekkooi.twig_jack.doctrine.object_repository.abstract"
  const VALIDATOR_ID: string := "boekkooi.twig_jack.constraint_validator"

  const DEFER_PREFIX_PARAMETER: string := "boekkooi.twig_jack.defer.prefix"
  const EXCLAMATION_PARAMETER: string := "boekkooi.twig_jack.exclamation"

  const LOADER_TAG: string := "twig.loader"

  const LOADER_BUNDLE: string := "loader.yml"
  const DEFER_BUNDLE: string := "defer.yml"
  const CONSTRAINT_BUNDLE: string := "constraint.yml"
  const EXCLAMATION_BUNDLE: string := "exclamation.yml"

  const CUSTOM_KIND: string := "custom"
  const GET_MANAGER_FOR_CLASS: string := "getManagerForClass"
  const GET_REPOSITORY: string := "getRepository"

  /** `boekkooi.twig_jack.loaders.%s` */
  function LoaderId(name: string): (id: string)
    ensures |id| == |LOADER_ID_PREFIX| + |name|
    ensures id[..|LOADER_ID_PREFIX|] == LOADER_ID_PREFIX && id[|LOADER_ID_PREFIX|..] == name
  {
    LOADER_ID_PREFIX + name
  }

  /** `boekkooi.twig_jack.loaders.%s.object_manager` */
  function ManagerId(name: string): (id: string)
    ensures id == LoaderId(name) + MANAGER_SUFFIX
  {
    LOADER_ID_PREFIX + name + MANAGER_SUFFIX
  }

  /** `boekkooi.twig_jack.loaders.%s.object_repository` */
  function RepositoryId(name: string): (id: string)
    ensures id == LoaderId(name) + REPOSITORY_SUFFIX
  {
    LOADER_ID_PREFIX + name + REPOSITORY_SUFFIX
  }

  /** Every id derived for one loader name, whatever its type. */
  function AllIds(name: string): set<string>
  {
    {LoaderId(name), ManagerId(name), RepositoryId(name)}
  }

  /** PHP `ltrim($s, '\\')`: drop every leading backslash. */
  function LTrimBackslash(s: string): (r: string)
    ensures |r| <= |s| && r == s[|s| - |r|..]
    ensures r == [] || r[0] != '\\'
    ensures forall i :: 0 <= i < |s| - |r| ==> s[i] == '\\'
  {
    if s != [] && s[0] == '\\' then LTrimBackslash(s[1..]) else s
  }

  /** The Doctrine registry service that serves a loader type; None for any other type. */
  function RegistryFor(kind: string): (r: Option<string>)
    ensures r.Some? <==> kind in {"orm", "mongo", "couch"}
  {
    match kind
    case "orm" => Some("doctrine")
    case "mongo" => Some("doctrine_mongodb")
    case "couch" => Some("doctrine_couchdb")
    case _ => None
  }

  lemma RegistryTable()
    ensures RegistryFor("orm") == Some("doctrine")
    ensures RegistryFor("mongo") == Some("doctrine_mongodb")
    ensures RegistryFor("couch") == Some("doctrine_couchdb")
    ensures RegistryFor(CUSTOM_KIND) == None
  {
  }

  /** Distinct Doctrine types are served by distinct registries. */
  lemma RegistryInjective(a: string, b: string)
    requires RegistryFor(a).Some? && RegistryFor(b).Some?
    ensures RegistryFor(a) == RegistryFor(b) <==> a == b
  {
  }

  /** Stripping a second time changes nothing. */
  lemma LTrimIdempotent(s: string)
    ensures LTrimBackslash(LTrimBackslash(s)) == LTrimBackslash(s)
  {
    var r := LTrimBackslash(s);
    assert r == [] || r[0] != '\\';
  }

  /** A name without a leading backslash is passed on unchanged. */
  lemma LTrimKeepsPlainNames(s: string)
    requires s == [] || s[0] != '\\'
    ensures LTrimBackslash(s) == s
  {
  }

  /** `ltrim` removes exactly the maximal run of leading backslashes: `s` is that run followed by the result. */
  lemma LTrimSplits(s: string)
    ensures s == Backslashes(|s| - |LTrimBackslash(s)|) + LTrimBackslash(s)
  {
    var r := LTrimBackslash(s);
    var b := Backslashes(|s| - |r|);
    forall i | 0 <= i < |s|
      ensures (b + r)[i] == s[i]
    {
      if i < |b| {
        assert (b + r)[i] == b[i] == '\\';
      } else {
        assert (b + r)[i] == r[i - |b|] == s[|s| - |r|..][i - |b|];
      }
    }
    assert |b + r| == |s|;
    assert b + r == s;
  }

  function Backslashes(n: nat): (r: string)
    ensures |r| == n && forall i :: 0 <= i < n ==> r[i] == '\\'
  {
    if n == 0 then [] else ['\\'] + Backslashes(n - 1)
  }

  /** The loader id determines the loader name. */
  lemma LoaderIdInjective(a: string, b: string)
    ensures LoaderId(a) == LoaderId(b) <==> a == b
  {
    if LoaderId(a) == LoaderId(b) {
      assert a == LoaderId(a)[|LOADER_ID_PREFIX|..];
    }
  }

  /** The manager id determines the loader name. */
  lemma ManagerIdInjective(a: string, b: string)
    ensures ManagerId(a) == ManagerId(b) <==> a == b
  {
    if ManagerId(a) == ManagerId(b) {
      assert |a| == |b|;
      assert LoaderId(a) == ManagerId(a)[..|ManagerId(a)| - |MANAGER_SUFFIX|];
      LoaderIdInjective(a, b);
    }
  }

  /** The repository id determines the loader name. */
  lemma RepositoryIdInjective(a: string, b: string)
    ensures RepositoryId(a) == RepositoryId(b) <==> a == b
  {
    if RepositoryId(a) == RepositoryId(b) {
      assert |a| == |b|;
      assert LoaderId(a) == RepositoryId(a)[..|RepositoryId(a)| - |REPOSITORY_SUFFIX|];
      LoaderIdInjective(a, b);
    }
  }

  /** For one name, the three derived ids are pairwise distinct. */
  lemma KindsDistinct(name: string)
    ensures LoaderId(name) != ManagerId(name)
    ensures LoaderId(name) != RepositoryId(name)
    ensures ManagerId(name) != RepositoryId(name)
  {
  }

  /**
   * Id derivation is NOT collision-free for arbitrary names: the loader
   * named `N.object_manager` gets the id of loader N's object manager.
   */
  lemma DottedNameCollides(name: string)
    ensures name + MANAGER_SUFFIX != name
    ensures LoaderId(name + MANAGER_SUFFIX) == ManagerId(name)
  {
    assert |name + MANAGER_SUFFIX| > |name|;
  }

  /** When two derived ids agree and the first name is the longer, that name holds the suffix's dot. */
  lemma DotInLongerName(x: string, s: string, y: string, t: string)
    requires LOADER_ID_PREFIX + x + s == LOADER_ID_PREFIX + y + t
    requires |y| < |x| && t != [] && t[0] == '.'
    ensures '.' in x
  {
    var p := LOADER_ID_PREFIX;
    assert x + s == (p + x + s)[|p|..];
    assert y + t == (p + y + t)[|p|..];
    assert (x + s)[|y|] == x[|y|];
    assert (y + t)[|y|] == t[0];
  }

  /** Names without a dot never share a derived id. */
  lemma DotFreeNamesDisjoint(a: string, b: string)
    requires a != b && '.' !in a && '.' !in b
    ensures AllIds(a) !! AllIds(b)
  {
    LoaderIdInjective(a, b);
    ManagerIdInjective(a, b);
    RepositoryIdInjective(a, b);
    NoDotCrossKind(a, b);
    NoDotCrossKind(b, a);
  }

  lemma NoDotCrossKind(x: string, y: string)
    requires '.' !in x && '.' !in y
    ensures LoaderId(x) != ManagerId(y) && LoaderId(x) != RepositoryId(y)
    ensures ManagerId(x) != RepositoryId(y)
  {
    if LoaderId(x) == ManagerId(y) {
      DotInLongerName(x, [], y, MANAGER_SUFFIX);
    }
    if LoaderId(x) == RepositoryId(y) {
      DotInLongerName(x, [], y, REPOSITORY_SUFFIX);
    }
    if ManagerId(x) == RepositoryId(y) {
      DotInLongerName(x, MANAGER_SUFFIX, y, REPOSITORY_SUFFIX);
    }
  }

  /** Loader-derived ids never coincide with the fixed ids of the bundles. */
  lemma DerivedIdsAvoidFixedIds(name: string)
    ensures AllIds(name) !! {LOADER_ABSTRACT_ID, MANAGER_ABSTRACT_ID, REPOSITORY_ABSTRACT_ID, VALIDATOR_ID}
  {
    var p := LOADER_ID_PREFIX;
    forall id | id in AllIds(name) ensures id[..|p|] == p {
      assert id == p + (id[|p|..]);
    }
    assert VALIDATOR_ID[19] != p[19];
    assert MANAGER_ABSTRACT_ID[19] != p[19];
    assert REPOSITORY_ABSTRACT_ID[19] != p[19];
    assert LOADER_ABSTRACT_ID[25] != p[25];
  }
}
