/**
  Model assembly: every definition becomes a type, in declaration order; then
  every path contributes one method per operation under GET, POST, PUT and
  DELETE, in that order. Each method registers its parameter and response
  holder types (when non-empty) just before the method itself.
 */
module Builder {
  import opened Wrappers
  import opened OpenApiV2
  import opened Surface
  import opened Collaborators
  import opened Definitions
  import opened Parameters
  import opened Responses
  import opened Seqs

  /** The verbs the translation visits, in visiting order. */
  const HandledVerbs: seq<string> := ["GET", "POST", "PUT", "DELETE"]

  /** The definitions, in declaration order; an absent section has none. */
  function DefinitionsOf(doc: Document): seq<NamedSchema>
  {
    if doc.definitions.Some? then doc.definitions.value else []
  }

  ghost predicate DefinitionsTranslatable(defs: seq<NamedSchema>)
  {
    forall i :: 0 <= i < |defs| ==> Translatable(defs[i].value)
  }

  /** One type per definition, in declaration order. */
  function DefinitionTypes(e: Env, defs: seq<NamedSchema>): (ts: seq<Type>)
    requires DefinitionsTranslatable(defs)
    ensures |ts| == |defs|
    ensures forall i :: 0 <= i < |defs| ==> ts[i] == BuildTypeFromDefinition(e, defs[i].name, defs[i].value)
  {
    if defs == [] then []
    else
      var last := defs[|defs| - 1];
      DefinitionTypes(e, defs[..|defs| - 1]) + [BuildTypeFromDefinition(e, last.name, last.value)]
  }

  /** The sanitised operation id, or a name synthesised from verb and path when that is empty. */
  function OperationName(e: Env, op: Operation, verb: string, path: string): (n: string)
    ensures e.sanitizeOperationName(op.operationId) != "" ==> n == e.sanitizeOperationName(op.operationId)
    ensures e.sanitizeOperationName(op.operationId) == "" ==> n == e.generateOperationName(verb, path)
  {
    var n := e.sanitizeOperationName(op.operationId);
    if n == "" then e.generateOperationName(verb, path) else n
  }

  /** The holder types of an operation named `name`, parameters first: a
      holder is present exactly when it would have fields. */
  function HolderTypes(e: Env, op: Operation, name: string): seq<Type>
  {
    (if ParameterFields(e, op.parameters) == [] then []
     else [Type(name + "Parameters", name + "Parameters" + " holds parameters to " + name, Struct,
                ParameterFields(e, op.parameters), "")])
    + (if ResponseFields(e, op.responses) == [] then []
       else [Type(name + "Responses", name + "Responses" + " holds responses of " + name, Struct,
                  ResponseFields(e, op.responses), "")])
  }

  /** The method record of an operation: its holder names refer to the holders
      `HolderTypes` registers, and are "" for an absent holder. */
  function OperationMethod(e: Env, op: Operation, verb: string, path: string): Method
  {
    var name := OperationName(e, op, verb, path);
    Method(name, op.operationId, path, verb, op.description,
           if ParameterFields(e, op.parameters) == [] then "" else name + "Parameters",
           if ResponseFields(e, op.responses) == [] then "" else name + "Responses")
  }

  /** Appends the parameter holder (if any), the response holder (if any) and
      the method, whose name prefixes both holder names. */
  function BuildMethodFromOperation(e: Env, m: Model, op: Operation, verb: string, path: string)
    : (r: Model)
    ensures r.name == m.name
    ensures r.types == m.types + HolderTypes(e, op, OperationName(e, op, verb, path))
    ensures r.methods == m.methods + [OperationMethod(e, op, verb, path)]
    ensures var mt := r.methods[|m.methods|];
            && mt.name == OperationName(e, op, verb, path)
            && mt.operation == op.operationId
            && mt.path == path
            && mt.httpMethod == verb
            && mt.description == op.description
            && mt.parametersTypeName == (if ParameterFields(e, op.parameters) == [] then "" else mt.name + "Parameters")
            && mt.responsesTypeName == (if ResponseFields(e, op.responses) == [] then "" else mt.name + "Responses")
  {
    var name := OperationName(e, op, verb, path);
    var (parametersTypeName, m1) := BuildTypeFromParameters(e, m, name, op.parameters);
    var (responsesTypeName, m2) := BuildTypeFromResponses(e, m1, name, op.responses);
    HolderTypesRegistered(e, op, name, m, m1, m2, parametersTypeName, responsesTypeName);
    AddMethod(m2, Method(name, op.operationId, path, verb, op.description,
                         parametersTypeName, responsesTypeName))
  }

  /** Registering the two holders in turn appends exactly `HolderTypes`. */
  lemma HolderTypesRegistered(e: Env, op: Operation, name: string, m: Model, m1: Model, m2: Model, pn: string, rn: string)
    requires (pn, m1) == BuildTypeFromParameters(e, m, name, op.parameters)
    requires (rn, m2) == BuildTypeFromResponses(e, m1, name, op.responses)
    ensures m2.types == m.types + HolderTypes(e, op, name)
  {
    var ph := if ParameterFields(e, op.parameters) == [] then [] else [m1.types[|m.types|]];
    var rh := if ResponseFields(e, op.responses) == [] then [] else [m2.types[|m1.types|]];
    assert m1.types == m.types + ph;
    assert m2.types == m1.types + rh;
    AppendAssoc(m.types, ph, rh);
  }

  /** The method for `op` under `verb`, when the path item has that operation. */
  function AddIfPresent(e: Env, m: Model, op: Option<Operation>, verb: string, path: string): Model
  {
    if op.Some? then BuildMethodFromOperation(e, m, op.value, verb, path) else m
  }

  /** The methods a path contributes, in GET, POST, PUT, DELETE order. */
  function AddPathItem(e: Env, m: Model, p: NamedPathItem): Model
  {
    var m1 := AddIfPresent(e, m, p.value.get, "GET", p.name);
    var m2 := AddIfPresent(e, m1, p.value.post, "POST", p.name);
    var m3 := AddIfPresent(e, m2, p.value.put, "PUT", p.name);
    AddIfPresent(e, m3, p.value.delete, "DELETE", p.name)
  }

  /** The methods of all paths, in path order. */
  function AddPaths(e: Env, m: Model, paths: seq<NamedPathItem>): Model
  {
    if paths == [] then m
    else AddPathItem(e, AddPaths(e, m, paths[..|paths| - 1]), paths[|paths| - 1])
  }

  /**
    The whole translation: the model is named after the document title; its
    types are one type per definition in declaration order followed by the
    holder types of every handled operation; its methods are the handled
    operations' records, path by path. Hence the methods' (path, verb) pairs
    are exactly the handled pairs, every later type is a non-empty struct, and
    every holder name a method refers to is declared.
   */
  function Build(e: Env, doc: Document): (r: Model)
    requires DefinitionsTranslatable(DefinitionsOf(doc))
    ensures r.name == doc.title
    ensures |DefinitionsOf(doc)| <= |r.types| && r.types[..|DefinitionsOf(doc)|] == DefinitionTypes(e, DefinitionsOf(doc))
    ensures NonEmptyStructsFrom(r.types, |DefinitionsOf(doc)|)
    ensures Endpoints(r.methods) == AllEndpoints(doc.paths)
    ensures forall i :: 0 <= i < |r.methods| ==> r.methods[i].httpMethod in HandledVerbs
    ensures Linked(r)
    ensures r.types == DefinitionTypes(e, DefinitionsOf(doc)) + AllHolderTypes(e, doc.paths)
    ensures r.methods == AllMethods(e, doc.paths)
  {
    var withTypes := Model(doc.title, DefinitionTypes(e, DefinitionsOf(doc)), []);
    var r := AddPaths(e, withTypes, doc.paths);
    AddPathsContribution(e, withTypes, doc.paths);
    assert [] + AllMethods(e, doc.paths) == AllMethods(e, doc.paths);
    AddPathsExtends(e, withTypes, doc.paths);
    AddPathsEndpoints(e, withTypes, doc.paths);
    HandledEndpoints(r.methods, doc.paths);
    r
  }

  /** The translation with the builder's loops: definitions first, then each
      path's GET, POST, PUT and DELETE operations, appending as it goes. */
  method BuildModel(e: Env, doc: Document) returns (r: Model)
    requires DefinitionsTranslatable(DefinitionsOf(doc))
    ensures r == Build(e, doc)
    ensures r.name == doc.title
  {
    var types := CollectDefinitions(e, DefinitionsOf(doc));
    r := Model(doc.title, types, []);
    var withTypes := r;
    for i := 0 to |doc.paths|
      invariant r == AddPaths(e, withTypes, doc.paths[..i])
    {
      AddPathsSnoc(e, withTypes, doc.paths, i);
      r := VisitPathItem(e, r, doc.paths[i]);
    }
    assert doc.paths[..|doc.paths|] == doc.paths;
    BuildUnfold(e, doc);
  }

  lemma AddPathsSnoc(e: Env, m: Model, paths: seq<NamedPathItem>, i: nat)
    requires i < |paths|
    ensures AddPaths(e, m, paths[..i + 1]) == AddPathItem(e, AddPaths(e, m, paths[..i]), paths[i])
  {
    assert paths[..i + 1][..i] == paths[..i];
  }

  lemma BuildUnfold(e: Env, doc: Document)
    requires DefinitionsTranslatable(DefinitionsOf(doc))
    ensures Build(e, doc) == AddPaths(e, Model(doc.title, DefinitionTypes(e, DefinitionsOf(doc)), []), doc.paths)
  {
  }

  /** The builder's definitions loop: one type per definition, appended in order. */
  method CollectDefinitions(e: Env, defs: seq<NamedSchema>) returns (types: seq<Type>)
    requires DefinitionsTranslatable(defs)
    ensures types == DefinitionTypes(e, defs)
  {
    types := [];
    for i := 0 to |defs|
      invariant types == DefinitionTypes(e, defs[..i])
    {
      assert defs[..i + 1][..i] == defs[..i];
      types := types + [BuildTypeFromDefinition(e, defs[i].name, defs[i].value)];
    }
    assert defs[..|defs|] == defs;
  }

  /** The body of the builder's path loop: one method per handled verb present. */
  method VisitPathItem(e: Env, m: Model, pair: NamedPathItem) returns (r: Model)
    ensures r == AddPathItem(e, m, pair)
    ensures |r.methods| == |m.methods| + |PathEndpoints(pair)|
  {
    var v := pair.value;
    r := m;
    if v.get.Some? {
      r := BuildMethodFromOperation(e, r, v.get.value, "GET", pair.name);
    }
    if v.post.Some? {
      r := BuildMethodFromOperation(e, r, v.post.value, "POST", pair.name);
    }
    if v.put.Some? {
      r := BuildMethodFromOperation(e, r, v.put.value, "PUT", pair.name);
    }
    if v.delete.Some? {
      r := BuildMethodFromOperation(e, r, v.delete.value, "DELETE", pair.name);
    }
    AddPathItemEndpoints(e, m, pair);
  }

  // ---------------------------------------------------------------------------
  // Endpoints: the (path, verb) pair of every method, in order.

  /** The (path, verb) pair of every method, in order. */
  function Endpoints(ms: seq<Method>): (es: seq<(string, string)>)
    ensures |es| == |ms|
    ensures forall i :: 0 <= i < |ms| ==> es[i] == (ms[i].path, ms[i].httpMethod)
  {
    if ms == [] then [] else Endpoints(ms[..|ms| - 1]) + [(ms[|ms| - 1].path, ms[|ms| - 1].httpMethod)]
  }

  /** The handled verbs present on a path item, paired with its path, in visiting order. */
  function PathEndpoints(p: NamedPathItem): (es: seq<(string, string)>)
    ensures forall k :: 0 <= k < |es| ==> es[k].0 == p.name && es[k].1 in HandledVerbs
  {
    (if p.value.get.Some? then [(p.name, "GET")] else [])
    + (if p.value.post.Some? then [(p.name, "POST")] else [])
    + (if p.value.put.Some? then [(p.name, "PUT")] else [])
    + (if p.value.delete.Some? then [(p.name, "DELETE")] else [])
  }

  /** The handled (path, verb) pairs of all paths, path by path. */
  function AllEndpoints(paths: seq<NamedPathItem>): (es: seq<(string, string)>)
    ensures forall k :: 0 <= k < |es| ==> es[k].1 in HandledVerbs
  {
    if paths == [] then [] else AllEndpoints(paths[..|paths| - 1]) + PathEndpoints(paths[|paths| - 1])
  }

  lemma EndpointsSnoc(ms: seq<Method>, mt: Method)
    ensures Endpoints(ms + [mt]) == Endpoints(ms) + [(mt.path, mt.httpMethod)]
  {
    assert (ms + [mt])[..|ms|] == ms;
  }

  lemma AddIfPresentEndpoints(e: Env, m: Model, op: Option<Operation>, verb: string, path: string)
    ensures Endpoints(AddIfPresent(e, m, op, verb, path).methods)
            == Endpoints(m.methods) + (if op.Some? then [(path, verb)] else [])
  {
    if op.Some? {
      var r := BuildMethodFromOperation(e, m, op.value, verb, path);
      EndpointsSnoc(m.methods, r.methods[|m.methods|]);
    } else {
      assert Endpoints(m.methods) + [] == Endpoints(m.methods);
    }
  }

  /** A path appends exactly its own handled (path, verb) pairs. */
  lemma AddPathItemEndpoints(e: Env, m: Model, p: NamedPathItem)
    ensures Endpoints(AddPathItem(e, m, p).methods) == Endpoints(m.methods) + PathEndpoints(p)
  {
    var m1 := AddIfPresent(e, m, p.value.get, "GET", p.name);
    var m2 := AddIfPresent(e, m1, p.value.post, "POST", p.name);
    var m3 := AddIfPresent(e, m2, p.value.put, "PUT", p.name);
    AddIfPresentEndpoints(e, m, p.value.get, "GET", p.name);
    AddIfPresentEndpoints(e, m1, p.value.post, "POST", p.name);
    AddIfPresentEndpoints(e, m2, p.value.put, "PUT", p.name);
    AddIfPresentEndpoints(e, m3, p.value.delete, "DELETE", p.name);
    AppendFour(Endpoints(m.methods),
               if p.value.get.Some? then [(p.name, "GET")] else [],
               if p.value.post.Some? then [(p.name, "POST")] else [],
               if p.value.put.Some? then [(p.name, "PUT")] else [],
               if p.value.delete.Some? then [(p.name, "DELETE")] else []);
  }

  /** The methods of a document are exactly its handled (path, verb) pairs, in order. */
  lemma {:induction false} AddPathsEndpoints(e: Env, m: Model, paths: seq<NamedPathItem>)
    ensures Endpoints(AddPaths(e, m, paths).methods) == Endpoints(m.methods) + AllEndpoints(paths)
  {
    if paths == [] {
      assert Endpoints(m.methods) + [] == Endpoints(m.methods);
    } else {
      var init := paths[..|paths| - 1];
      AddPathsEndpoints(e, m, init);
      AddPathItemEndpoints(e, AddPaths(e, m, init), paths[|paths| - 1]);
      assert AllEndpoints(paths) == AllEndpoints(init) + PathEndpoints(paths[|paths| - 1]);
      AppendAssoc(Endpoints(m.methods), AllEndpoints(init), PathEndpoints(paths[|paths| - 1]));
    }
  }

  /** Every method the paths contribute carries a handled verb. */
  lemma HandledEndpoints(ms: seq<Method>, paths: seq<NamedPathItem>)
    requires Endpoints(ms) == AllEndpoints(paths)
    ensures forall i :: 0 <= i < |ms| ==> ms[i].httpMethod in HandledVerbs
  {
    forall i | 0 <= i < |ms|
      ensures ms[i].httpMethod in HandledVerbs
    {
      assert Endpoints(ms)[i] == (ms[i].path, ms[i].httpMethod);
      assert AllEndpoints(paths)[i].1 in HandledVerbs;
    }
  }

  // ---------------------------------------------------------------------------
  // Contributions: the holder types and methods each operation, path and
  // document adds, defined independently of the model being threaded through.

  /** The holder types a possibly absent operation registers. */
  function PresentTypes(e: Env, op: Option<Operation>, verb: string, path: string): seq<Type>
  {
    if op.Some? then HolderTypes(e, op.value, OperationName(e, op.value, verb, path)) else []
  }

  /** The method a possibly absent operation becomes. */
  function PresentMethods(e: Env, op: Option<Operation>, verb: string, path: string): seq<Method>
  {
    if op.Some? then [OperationMethod(e, op.value, verb, path)] else []
  }

  /** The holder types of a path's handled operations, in GET, POST, PUT, DELETE order. */
  function PathTypes(e: Env, p: NamedPathItem): seq<Type>
  {
    PresentTypes(e, p.value.get, "GET", p.name) + PresentTypes(e, p.value.post, "POST", p.name)
    + PresentTypes(e, p.value.put, "PUT", p.name) + PresentTypes(e, p.value.delete, "DELETE", p.name)
  }

  /** The methods of a path's handled operations, in GET, POST, PUT, DELETE order. */
  function PathMethods(e: Env, p: NamedPathItem): seq<Method>
  {
    PresentMethods(e, p.value.get, "GET", p.name) + PresentMethods(e, p.value.post, "POST", p.name)
    + PresentMethods(e, p.value.put, "PUT", p.name) + PresentMethods(e, p.value.delete, "DELETE", p.name)
  }

  /** The holder types of all paths, path by path. */
  function AllHolderTypes(e: Env, paths: seq<NamedPathItem>): seq<Type>
  {
    if paths == [] then [] else AllHolderTypes(e, paths[..|paths| - 1]) + PathTypes(e, paths[|paths| - 1])
  }

  /** The methods of all paths, path by path. */
  function AllMethods(e: Env, paths: seq<NamedPathItem>): seq<Method>
  {
    if paths == [] then [] else AllMethods(e, paths[..|paths| - 1]) + PathMethods(e, paths[|paths| - 1])
  }

  lemma AddIfPresentContribution(e: Env, m: Model, op: Option<Operation>, verb: string, path: string)
    ensures AddIfPresent(e, m, op, verb, path)
            == Model(m.name, m.types + PresentTypes(e, op, verb, path), m.methods + PresentMethods(e, op, verb, path))
  {
    if op.None? {
      assert m.types + [] == m.types;
      assert m.methods + [] == m.methods;
    }
  }

  /** A path appends exactly its operations' holder types and methods. */
  lemma AddPathItemContribution(e: Env, m: Model, p: NamedPathItem)
    ensures AddPathItem(e, m, p) == Model(m.name, m.types + PathTypes(e, p), m.methods + PathMethods(e, p))
  {
    var m1 := AddIfPresent(e, m, p.value.get, "GET", p.name);
    var m2 := AddIfPresent(e, m1, p.value.post, "POST", p.name);
    var m3 := AddIfPresent(e, m2, p.value.put, "PUT", p.name);
    AddIfPresentContribution(e, m, p.value.get, "GET", p.name);
    AddIfPresentContribution(e, m1, p.value.post, "POST", p.name);
    AddIfPresentContribution(e, m2, p.value.put, "PUT", p.name);
    AddIfPresentContribution(e, m3, p.value.delete, "DELETE", p.name);
    AppendFour(m.types, PresentTypes(e, p.value.get, "GET", p.name), PresentTypes(e, p.value.post, "POST", p.name),
               PresentTypes(e, p.value.put, "PUT", p.name), PresentTypes(e, p.value.delete, "DELETE", p.name));
    AppendFour(m.methods, PresentMethods(e, p.value.get, "GET", p.name), PresentMethods(e, p.value.post, "POST", p.name),
               PresentMethods(e, p.value.put, "PUT", p.name), PresentMethods(e, p.value.delete, "DELETE", p.name));
  }

  /** Walking the paths appends exactly the document's holder types and methods, path by path. */
  lemma {:induction false} AddPathsContribution(e: Env, m: Model, paths: seq<NamedPathItem>)
    ensures AddPaths(e, m, paths) == Model(m.name, m.types + AllHolderTypes(e, paths), m.methods + AllMethods(e, paths))
  {
    if paths == [] {
      assert m.types + [] == m.types;
      assert m.methods + [] == m.methods;
    } else {
      var init, last := paths[..|paths| - 1], paths[|paths| - 1];
      AddPathsContribution(e, m, init);
      AddPathItemContribution(e, AddPaths(e, m, init), last);
      AppendAssoc(m.types, AllHolderTypes(e, init), PathTypes(e, last));
      AppendAssoc(m.methods, AllMethods(e, init), PathMethods(e, last));
    }
  }

  // ---------------------------------------------------------------------------
  // Extension: appending keeps earlier entries, adds only non-empty
  // structs and keeps every method's holder names resolved.

  /** `b` is `a` with types and methods appended: the name and all earlier
      entries are kept, every appended type is a non-empty struct, and the
      method-to-type links stay resolved. */
  ghost predicate Extends(a: Model, b: Model)
  {
    && b.name == a.name
    && |a.types| <= |b.types| && b.types[..|a.types|] == a.types
    && |a.methods| <= |b.methods| && b.methods[..|a.methods|] == a.methods
    && NonEmptyStructsFrom(b.types, |a.types|)
    && (Linked(a) ==> Linked(b))
  }

  lemma ExtendsReflexive(a: Model)
    ensures Extends(a, a)
  {
    assert a.types[..|a.types|] == a.types;
    assert a.methods[..|a.methods|] == a.methods;
  }

  lemma ExtendsTransitive(a: Model, b: Model, c: Model)
    requires Extends(a, b) && Extends(b, c)
    ensures Extends(a, c)
  {
    assert c.types[..|a.types|] == c.types[..|b.types|][..|a.types|];
    assert c.methods[..|a.methods|] == c.methods[..|b.methods|][..|a.methods|];
    forall j | |a.types| <= j < |c.types|
      ensures c.types[j].kind == Struct && |c.types[j].fields| > 0
    {
      if j < |b.types| {
        assert c.types[..|b.types|][j] == c.types[j];
      }
    }
  }

  /** A type declared before an extension is declared after it. */
  lemma DeclaresExtends(a: Model, b: Model, n: string)
    requires |a.types| <= |b.types| && b.types[..|a.types|] == a.types
    requires Declares(a.types, n)
    ensures Declares(b.types, n)
  {
    var j :| 0 <= j < |a.types| && a.types[j].name == n;
    assert b.types[..|a.types|][j] == b.types[j];
  }

  /** `m1` is `m` unchanged (when `tn` is empty) or with one non-empty struct
      named `tn` appended: what a holder registration does. */
  ghost predicate HolderAdded(m: Model, tn: string, m1: Model)
  {
    if tn == "" then m1 == m
    else
      && m1.name == m.name && m1.methods == m.methods
      && |m1.types| == |m.types| + 1 && m1.types[..|m.types|] == m.types
      && m1.types[|m.types|].name == tn
      && m1.types[|m.types|].kind == Struct && |m1.types[|m.types|].fields| > 0
  }

  lemma ParametersHolderAdded(e: Env, m: Model, name: string, items: seq<ParametersItem>)
    ensures HolderAdded(m, BuildTypeFromParameters(e, m, name, items).0, BuildTypeFromParameters(e, m, name, items).1)
  {
    var r := BuildTypeFromParameters(e, m, name, items);
    if r.0 != "" {
      assert r.1.types[..|m.types|] == m.types;
    }
  }

  lemma ResponsesHolderAdded(e: Env, m: Model, name: string, codes: seq<NamedResponseValue>)
    ensures HolderAdded(m, BuildTypeFromResponses(e, m, name, codes).0, BuildTypeFromResponses(e, m, name, codes).1)
  {
    var r := BuildTypeFromResponses(e, m, name, codes);
    if r.0 != "" {
      assert r.1.types[..|m.types|] == m.types;
    }
  }

  lemma HolderAddedExtends(m: Model, tn: string, m1: Model)
    requires HolderAdded(m, tn, m1)
    ensures Extends(m, m1) && m1.methods == m.methods
    ensures tn != "" ==> Declares(m1.types, tn)
  {
    if tn == "" {
      ExtendsReflexive(m);
    } else {
      assert m1.types[|m.types|].name == tn;
      if Linked(m) {
        forall n | Declares(m.types, n)
          ensures Declares(m1.types, n)
        {
          DeclaresExtends(m, m1, n);
        }
      }
    }
  }

  /** Appending a method whose holder names are declared keeps the links. */
  lemma MethodStepExtends(m: Model, m2: Model, mt: Method)
    requires Extends(m, m2) && m2.methods == m.methods
    requires mt.parametersTypeName != "" ==> Declares(m2.types, mt.parametersTypeName)
    requires mt.responsesTypeName != "" ==> Declares(m2.types, mt.responsesTypeName)
    ensures Extends(m, AddMethod(m2, mt))
  {
    var r := AddMethod(m2, mt);
    assert r.methods[..|m.methods|] == m.methods;
    if Linked(m) {
      assert Linked(m2);
      forall i | 0 <= i < |r.methods|
        ensures r.methods[i].parametersTypeName != "" ==> Declares(r.types, r.methods[i].parametersTypeName)
        ensures r.methods[i].responsesTypeName != "" ==> Declares(r.types, r.methods[i].responsesTypeName)
      {
        if i == |m.methods| {
          assert r.methods[i] == mt;
        } else {
          assert r.methods[i] == m2.methods[i];
        }
      }
    }
  }

  /** A method registers only non-empty structs, and its holder names resolve. */
  lemma BuildMethodExtends(e: Env, m: Model, op: Operation, verb: string, path: string)
    ensures Extends(m, BuildMethodFromOperation(e, m, op, verb, path))
  {
    var name := OperationName(e, op, verb, path);
    var (pn, m1) := BuildTypeFromParameters(e, m, name, op.parameters);
    var (rn, m2) := BuildTypeFromResponses(e, m1, name, op.responses);
    ParametersHolderAdded(e, m, name, op.parameters);
    ResponsesHolderAdded(e, m1, name, op.responses);
    HolderAddedExtends(m, pn, m1);
    HolderAddedExtends(m1, rn, m2);
    ExtendsTransitive(m, m1, m2);
    if pn != "" {
      DeclaresExtends(m1, m2, pn);
    }
    MethodStepExtends(m, m2, Method(name, op.operationId, path, verb, op.description, pn, rn));
  }

  lemma AddIfPresentExtends(e: Env, m: Model, op: Option<Operation>, verb: string, path: string)
    ensures Extends(m, AddIfPresent(e, m, op, verb, path))
  {
    if op.Some? {
      BuildMethodExtends(e, m, op.value, verb, path);
    } else {
      ExtendsReflexive(m);
    }
  }

  lemma AddPathItemExtends(e: Env, m: Model, p: NamedPathItem)
    ensures Extends(m, AddPathItem(e, m, p))
  {
    var m1 := AddIfPresent(e, m, p.value.get, "GET", p.name);
    var m2 := AddIfPresent(e, m1, p.value.post, "POST", p.name);
    var m3 := AddIfPresent(e, m2, p.value.put, "PUT", p.name);
    var m4 := AddIfPresent(e, m3, p.value.delete, "DELETE", p.name);
    AddIfPresentExtends(e, m, p.value.get, "GET", p.name);
    AddIfPresentExtends(e, m1, p.value.post, "POST", p.name);
    AddIfPresentExtends(e, m2, p.value.put, "PUT", p.name);
    AddIfPresentExtends(e, m3, p.value.delete, "DELETE", p.name);
    ExtendsTransitive(m, m1, m2);
    ExtendsTransitive(m, m2, m3);
    ExtendsTransitive(m, m3, m4);
  }

  /** Walking the paths only appends: earlier types and methods are kept, every
      added type is a non-empty struct, and links stay resolved. */
  lemma {:induction false} AddPathsExtends(e: Env, m: Model, paths: seq<NamedPathItem>)
    ensures Extends(m, AddPaths(e, m, paths))
  {
    if paths == [] {
      ExtendsReflexive(m);
    } else {
      var init := paths[..|paths| - 1];
      AddPathsExtends(e, m, init);
      AddPathItemExtends(e, AddPaths(e, m, init), paths[|paths| - 1]);
      ExtendsTransitive(m, AddPaths(e, m, init), AddPaths(e, m, paths));
    }
  }

  // ---------------------------------------------------------------------------
  // Verb filtering.

  /** OPTIONS, HEAD and PATCH operations never reach the model. */
  lemma OtherVerbsIgnored(e: Env, m: Model, p: NamedPathItem,
                          options: Option<Operation>, head: Option<Operation>, patch: Option<Operation>)
    ensures AddPathItem(e, m, NamedPathItem(p.name, p.value.(options := options, head := head, patch := patch)))
            == AddPathItem(e, m, p)
  {
  }

  /** A path whose item has none of GET, POST, PUT and DELETE adds nothing. */
  lemma UnhandledPathAddsNothing(e: Env, doc: Document, p: NamedPathItem)
    requires DefinitionsTranslatable(DefinitionsOf(doc))
    requires p.value.get.None? && p.value.post.None? && p.value.put.None? && p.value.delete.None?
    ensures Build(e, doc.(paths := doc.paths + [p])) == Build(e, doc)
  {
    var withTypes := Model(doc.title, DefinitionTypes(e, DefinitionsOf(doc)), []);
    assert (doc.paths + [p])[..|doc.paths|] == doc.paths;
    assert AddPaths(e, withTypes, doc.paths + [p]) == AddPathItem(e, AddPaths(e, withTypes, doc.paths), p);
  }
}
