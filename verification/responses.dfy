/** Response translation: an operation's responses become a holder STRUCT named `<name>Responses`. */
module Responses {
  import opened Wrappers
  import opened OpenApiV2
  import opened Surface
  import opened Collaborators
  import opened TypeInference
  import opened Seqs

  /** The entry resolves to a response object whose `schema` is a Schema Object. */
  predicate HasSchema(c: NamedResponseValue)
  {
    c.value.ResponseVal? && c.value.response.schema.Some? && c.value.response.schema.value.PlainSchema?
  }

  /** The entries that carry a schema, in order. */
  function SchemaCarrying(codes: seq<NamedResponseValue>): (cs: seq<NamedResponseValue>)
    ensures |cs| <= |codes|
    ensures forall i :: 0 <= i < |cs| ==> HasSchema(cs[i])
    ensures forall c :: c in cs ==> c in codes
    ensures forall i :: 0 <= i < |codes| && HasSchema(codes[i]) ==> codes[i] in cs
  {
    if codes == [] then []
    else (if HasSchema(codes[0]) then [codes[0]] else []) + SchemaCarrying(codes[1..])
  }

  /** The selection is a filter: a single entry is kept exactly when it carries
      a schema, and a concatenated list selects the concatenated selections,
      so order and multiplicity are preserved. */
  lemma {:induction false} SchemaCarryingFilter(a: seq<NamedResponseValue>, b: seq<NamedResponseValue>)
    ensures |a| == 1 ==> SchemaCarrying(a) == (if HasSchema(a[0]) then a else [])
    ensures SchemaCarrying(a + b) == SchemaCarrying(a) + SchemaCarrying(b)
  {
    if a == [] {
      assert a + b == b;
    } else {
      var h, t := (if HasSchema(a[0]) then [a[0]] else []), a[1..];
      assert SchemaCarrying(a) == h + SchemaCarrying(t);
      assert SchemaCarrying(a + b) == h + SchemaCarrying(t + b) by {
        assert (a + b)[0] == a[0];
        assert (a + b)[1..] == t + b;
      }
      SchemaCarryingFilter(t, b);
      AppendAssoc(h, SchemaCarrying(t), SchemaCarrying(b));
      if |a| == 1 {
        assert t == [];
      }
    }
  }

  /** The field a schema-carrying response becomes: named after its status
      code, typed as a pointer to the inferred type, never serialised. */
  function ResponseField(e: Env, c: NamedResponseValue): (f: Field)
    requires HasSchema(c)
    ensures f.name == c.name
    ensures f.valueType == TypeForSchema(e, c.value.response.schema.value.schema)
    ensures f.typeName == "*" + f.valueType
    ensures !f.serialize && f.position == Unpositioned && f.format == ""
  {
    var valueType := TypeForSchema(e, c.value.response.schema.value.schema);
    Field(c.name, "*" + valueType, valueType, "", Unpositioned, false)
  }

  /** The holder's fields: exactly one per schema-carrying entry, in order. */
  function ResponseFields(e: Env, codes: seq<NamedResponseValue>): (fs: seq<Field>)
    ensures |fs| == |SchemaCarrying(codes)|
    ensures forall i :: 0 <= i < |fs| ==> fs[i] == ResponseField(e, SchemaCarrying(codes)[i])
    ensures fs == [] <==> forall i :: 0 <= i < |codes| ==> !HasSchema(codes[i])
  {
    if codes == [] then []
    else
      (if HasSchema(codes[0]) then [ResponseField(e, codes[0])] else [])
      + ResponseFields(e, codes[1..])
  }

  /** Registers the holder type and returns its name, or registers nothing and
      returns "" when no entry carries a schema. */
  function BuildTypeFromResponses(e: Env, m: Model, name: string, codes: seq<NamedResponseValue>)
    : (r: (string, Model))
    ensures r.1.name == m.name && r.1.methods == m.methods
    ensures r.0 == "" <==> forall i :: 0 <= i < |codes| ==> !HasSchema(codes[i])
    ensures r.0 == "" ==> r.1 == m
    ensures r.0 != "" ==>
              && r.0 == name + "Responses"
              && r.1.types == m.types + [Type(r.0, r.0 + " holds responses of " + name, Struct,
                                              ResponseFields(e, codes), "")]
              && |ResponseFields(e, codes)| > 0
  {
    var t := Type(name + "Responses", name + "Responses" + " holds responses of " + name, Struct,
                  ResponseFields(e, codes), "");
    if |t.fields| > 0 then (t.name, AddType(m, t)) else ("", m)
  }
}
