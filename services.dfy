/**
 * Service definitions as plain records, and the errors the extension can
 * raise: its own configuration errors and the host container's errors.
 */
module Services {
  import opened Wrappers

  /** An argument or a parameter value. */
  datatype Value = Null | Str(s: string) | Bool(b: bool) | Ref(id: string)

  /**
   * A service definition. `parent` is Some for a child definition (a
   * `DefinitionDecorator`); `replacements` are its positional argument
   * overrides (`replaceArgument`). `visibility` is None while the definition
   * has never been marked, so the host's default applies. The factory is the
   * service and method that build it, however the host API set them.
   */
  datatype Definition = Definition(
    parent: Option<string>,
    arguments: seq<Value>,
    replacements: map<nat, Value>,
    visibility: Option<bool>,
    tags: seq<string>,
    factoryService: Option<string>,
    factoryMethod: Option<string>)

  datatype Error =
    | MissingRepository(loader: string)  // InvalidConfigurationException
    | UnknownLoaderType(loader: string)  // InvalidConfigurationException
    | ServiceNotFound(id: string)        // host: getDefinition of an absent id
    | ArgumentOutOfBounds(index: nat)    // host: replaceArgument past the argument list

  /** The message of the extension's own configuration errors. */
  function Message(e: Error): (m: string)
    requires e.MissingRepository? || e.UnknownLoaderType?
    ensures |m| >= |e.loader| && m[|m| - |e.loader|..] == e.loader
  {
    match e
    case MissingRepository(n) => "No repository option provided for " + n
    case UnknownLoaderType(n) => "Unknown loader type provided for " + n
  }

  /** `new DefinitionDecorator(parent)`: a fresh child definition. */
  function Decorator(parent: string): Definition
  {
    Definition(Some(parent), [], map[], None, [], None, None)
  }

  /** The value passed at position `i`, as far as this definition says (only a child definition has overrides). */
  function ArgumentAt(d: Definition, i: nat): Option<Value>
  {
    if d.parent.Some? && i in d.replacements then Some(d.replacements[i])
    else if i < |d.arguments| then Some(d.arguments[i])
    else None
  }

  /**
   * `replaceArgument(i, v)`: a child definition records an override for any
   * index; a plain definition overwrites an existing position and rejects
   * any other index.
   */
  function ReplaceArgument(d: Definition, i: nat, v: Value): (r: Result<Definition, Error>)
    ensures r.Ok? <==> d.parent.Some? || i < |d.arguments|
    ensures r.Ok? ==> ArgumentAt(r.value, i) == Some(v)
    ensures r.Ok? ==> forall j: nat :: j != i ==> ArgumentAt(r.value, j) == ArgumentAt(d, j)
    ensures r.Ok? ==> r.value.(arguments := d.arguments, replacements := d.replacements) == d
    ensures r.Err? ==> r.error == ArgumentOutOfBounds(i)
  {
    if d.parent.Some? then Ok(d.(replacements := d.replacements[i := v]))
    else if i < |d.arguments| then Ok(d.(arguments := d.arguments[i := v]))
    else Err(ArgumentOutOfBounds(i))
  }

  /** A factory bound through either host API: the service and method it names. */
  function WithFactory(d: Definition, service: string, factoryName: string): (r: Definition)
    ensures r.factoryService == Some(service) && r.factoryMethod == Some(factoryName)
    ensures r.(factoryService := d.factoryService, factoryMethod := d.factoryMethod) == d
  {
    d.(factoryService := Some(service), factoryMethod := Some(factoryName))
  }
}
