/** Definition translation: a named schema of `definitions` becomes a STRUCT, a MAP, or a kind-less type. */
module Definitions {
  import opened Wrappers
  import opened OpenApiV2
  import opened Surface
  import opened Collaborators
  import opened TypeInference

  /** The declared properties, in order; an absent `properties` has none. */
  function PropertiesOf(s: Schema): seq<NamedSchema>
  {
    if s.properties.Some? then s.properties.value else []
  }

  /** The translation does not dereference a missing schema: a property-less
      definition must not carry the boolean form of `additionalProperties`. */
  predicate Translatable(s: Schema)
  {
    |PropertiesOf(s)| > 0 || s.additionalProperties.None? || s.additionalProperties.value.SchemaForm?
  }

  /** The serialisable field a property becomes. */
  function PropertyField(e: Env, p: NamedSchema): Field
  {
    Field(p.name, TypeForSchema(e, p.value), "", "", Unpositioned, true)
  }

  /** One field per property, in property order. */
  function PropertyFields(e: Env, props: seq<NamedSchema>): (fs: seq<Field>)
    ensures |fs| == |props|
    ensures forall i :: 0 <= i < |fs| ==>
              && fs[i].name == props[i].name
              && fs[i].typeName == TypeForSchema(e, props[i].value)
              && fs[i].serialize
              && fs[i].position == Unpositioned
              && fs[i].valueType == "" && fs[i].format == ""
  {
    if props == [] then [] else [PropertyField(e, props[0])] + PropertyFields(e, props[1..])
  }

  function BuildTypeFromDefinition(e: Env, name: string, s: Schema): (t: Type)
    requires Translatable(s)
    ensures t.name == name
    ensures t.description == "implements the service definition of " + name
    ensures t.fields == PropertyFields(e, PropertiesOf(s))
    ensures |t.fields| == |PropertiesOf(s)|
    ensures forall i :: 0 <= i < |t.fields| ==>
              && t.fields[i].name == PropertiesOf(s)[i].name
              && t.fields[i].typeName == TypeForSchema(e, PropertiesOf(s)[i].value)
              && t.fields[i].serialize
    ensures t.kind == Struct <==> |PropertiesOf(s)| > 0
    ensures t.kind == Map <==> |PropertiesOf(s)| == 0 && s.additionalProperties.Some?
    ensures t.kind == Unspecified <==> |PropertiesOf(s)| == 0 && s.additionalProperties.None?
    ensures t.kind == Map ==> t.mapType == e.typeForRef(s.additionalProperties.value.schema.xref)
    ensures t.kind != Map ==> t.mapType == ""
  {
    var fields := PropertyFields(e, PropertiesOf(s));
    var kind := if s.properties.Some? && |s.properties.value| > 0 then Struct else Unspecified;
    var t := Type(name, "implements the service definition of " + name, kind, fields, "");
    if |t.fields| == 0 && s.additionalProperties.Some? then
      t.(kind := Map, mapType := e.typeForRef(s.additionalProperties.value.schema.xref))
    else
      t
  }
}
