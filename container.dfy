/**
 * The host's service container during compilation, reduced to the state the
 * extension touches: definitions by id, parameters by name, and the names of
 * the configuration files imported so far.
 */
module Container {
  import opened Wrappers
  import opened Services

  /** What each configuration file of the bundle declares, by file name. */
  type Files = map<string, map<string, Definition>>

  function Declared(files: Files, file: string): map<string, Definition>
  {
    if file in files then files[file] else map[]
  }

  /** A snapshot of a container. */
  datatype State = State(
    definitions: map<string, Definition>,
    parameters: map<string, Value>,
    imports: seq<string>)

  /** Loading one configuration file: it is recorded and its declarations replace any under the same ids. */
  function Imported(s: State, files: Files, file: string): (r: State)
    ensures r.parameters == s.parameters && r.imports == s.imports + [file]
    ensures r.definitions.Keys == s.definitions.Keys + Declared(files, file).Keys
    ensures forall id :: id in s.definitions && id !in Declared(files, file) ==> r.definitions[id] == s.definitions[id]
  {
    s.(definitions := s.definitions + Declared(files, file), imports := s.imports + [file])
  }

  class ContainerBuilder {
    var definitions: map<string, Definition>
    var parameters: map<string, Value>
    var imports: seq<string>

    function Snapshot(): State
      reads this
    {
      State(definitions, parameters, imports)
    }

    constructor ()
      ensures definitions == map[] && parameters == map[] && imports == []
    {
      definitions, parameters, imports := map[], map[], [];
    }

    /** `setDefinition`: the new definition replaces any under the same id. */
    method SetDefinition(id: string, d: Definition)
      modifies this
      ensures definitions == old(definitions)[id := d]
      ensures parameters == old(parameters) && imports == old(imports)
    {
      definitions := definitions[id := d];
    }

    /** `getDefinition`: fails on an id the container does not hold. */
    method GetDefinition(id: string) returns (r: Result<Definition, Error>)
      ensures r.Ok? <==> id in definitions
      ensures r.Ok? ==> r.value == definitions[id]
      ensures r.Err? ==> r.error == ServiceNotFound(id)
    {
      if id in definitions {
        r := Ok(definitions[id]);
      } else {
        r := Err(ServiceNotFound(id));
      }
    }

    method SetParameter(name: string, v: Value)
      modifies this
      ensures parameters == old(parameters)[name := v]
      ensures definitions == old(definitions) && imports == old(imports)
    {
      parameters := parameters[name := v];
    }

    /** `$loader->load(file)` on the YAML loader that writes into this container. */
    method Import(file: string, files: Files)
      modifies this
      ensures Snapshot() == Imported(old(Snapshot()), files, file)
    {
      imports := imports + [file];
      definitions := definitions + Declared(files, file);
    }

    method SetPublic(id: string, public: bool)
      requires id in definitions
      modifies this
      ensures definitions == old(definitions)[id := old(definitions)[id].(visibility := Some(public))]
      ensures parameters == old(parameters) && imports == old(imports)
    {
      definitions := definitions[id := definitions[id].(visibility := Some(public))];
    }

    method AddTag(id: string, tag: string)
      requires id in definitions
      modifies this
      ensures definitions == old(definitions)[id := old(definitions)[id].(tags := old(definitions)[id].tags + [tag])]
      ensures parameters == old(parameters) && imports == old(imports)
    {
      definitions := definitions[id := definitions[id].(tags := definitions[id].tags + [tag])];
    }

    method SetArguments(id: string, args: seq<Value>)
      requires id in definitions
      modifies this
      ensures definitions == old(definitions)[id := old(definitions)[id].(arguments := args)]
      ensures parameters == old(parameters) && imports == old(imports)
    {
      definitions := definitions[id := definitions[id].(arguments := args)];
    }

    method ReplaceArgument(id: string, i: nat, v: Value) returns (r: Outcome<Error>)
      requires id in definitions
      modifies this
      ensures match Services.ReplaceArgument(old(definitions)[id], i, v)
        case Ok(d) => r.Pass? && definitions == old(definitions)[id := d]
        case Err(e) => r == Fail(e) && definitions == old(definitions)
      ensures parameters == old(parameters) && imports == old(imports)
    {
      var d := Services.ReplaceArgument(definitions[id], i, v);
      if d.Ok? {
        definitions := definitions[id := d.value];
        r := Pass;
      } else {
        r := Fail(d.error);
      }
    }

    /** The newer factory API: `setFactory([new Reference(service), factoryName])`. */
    method SetFactory(id: string, service: string, factoryName: string)
      requires id in definitions
      modifies this
      ensures definitions == old(definitions)[id := old(definitions)[id].(factoryService := Some(service), factoryMethod := Some(factoryName))]
      ensures parameters == old(parameters) && imports == old(imports)
    {
      definitions := definitions[id := definitions[id].(factoryService := Some(service), factoryMethod := Some(factoryName))];
    }

    /** The older factory API, first half: `setFactoryService(service)`. */
    method SetFactoryService(id: string, service: string)
      requires id in definitions
      modifies this
      ensures definitions == old(definitions)[id := old(definitions)[id].(factoryService := Some(service))]
      ensures parameters == old(parameters) && imports == old(imports)
    {
      definitions := definitions[id := definitions[id].(factoryService := Some(service))];
    }

    /** The older factory API, second half: `setFactoryMethod(factoryName)`. */
    method SetFactoryMethod(id: string, factoryName: string)
      requires id in definitions
      modifies this
      ensures definitions == old(definitions)[id := old(definitions)[id].(factoryMethod := Some(factoryName))]
      ensures parameters == old(parameters) && imports == old(imports)
    {
      definitions := definitions[id := definitions[id].(factoryMethod := Some(factoryName))];
    }
  }
}
