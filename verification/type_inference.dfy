/**
  Type inference: a schema node maps to a type-reference string. The rules
  are tried in a fixed order and the first that applies wins; a node no rule
  recognises maps to its textual dump, so the mapping never fails.
 */
module TypeInference {
  import opened Wrappers
  import opened OpenApiV2
  import opened Collaborators

  predicate HasRef(s: Schema)
  {
    s.xref != ""
  }

  /** `type` is present and lists exactly the one entry `t`. */
  predicate SingleType(s: Schema, t: string)
  {
    s.types.Some? && |s.types.value| == 1 && s.types.value[0] == t
  }

  predicate Primitive(s: Schema)
  {
    SingleType(s, "string") || SingleType(s, "integer") || SingleType(s, "number")
  }

  /** An array whose `items` is exactly one schema, and that schema is a reference. */
  predicate ArrayOfRef(s: Schema)
  {
    SingleType(s, "array") && s.items.Some? && |s.items.value| == 1 && s.items.value[0].xref != ""
  }

  /** An object with no `additionalProperties` clause at all. */
  predicate OpenObject(s: Schema)
  {
    SingleType(s, "object") && s.additionalProperties.None?
  }

  /** `additionalProperties` is a schema, and that schema is a reference. */
  predicate MapOfRef(s: Schema)
  {
    s.additionalProperties.Some? && s.additionalProperties.value.SchemaForm?
    && s.additionalProperties.value.schema.xref != ""
  }

  /** Some rule other than the textual fallback applies. */
  predicate Recognized(s: Schema)
  {
    HasRef(s) || Primitive(s) || ArrayOfRef(s) || OpenObject(s) || MapOfRef(s)
  }

  /** The rules guarded by the presence of `type`; None when none of them fires. */
  function DeclaredTypeRule(e: Env, s: Schema): Option<string>
  {
    if s.types.None? then None
    else
      var types := s.types.value;
      if |types| == 1 && types[0] == "string" then Some("string")
      else if |types| == 1 && types[0] == "integer" && s.format == "int32" then Some("int32")
      else if |types| == 1 && types[0] == "integer" then Some("int")
      else if |types| == 1 && types[0] == "number" then Some("int")
      else if |types| == 1 && types[0] == "array" && s.items.Some?
              && |s.items.value| == 1 && s.items.value[0].xref != ""
      then Some("[]" + e.typeForRef(s.items.value[0].xref))
      else if |types| == 1 && types[0] == "object" && s.additionalProperties.None?
      then Some("map[string]interface{}")
      else None
  }

  /**
    The type reference for a schema node. Each ensures clause is one row of
    the decision table, guarded by the failure of every row above it that
    could also apply; the primitive, array and object rows exclude each other
    because a single-entry `type` has one value.
   */
  function TypeForSchema(e: Env, s: Schema): (r: string)
    ensures HasRef(s) ==> r == e.typeForRef(s.xref)
    ensures !HasRef(s) && SingleType(s, "string") ==> r == "string"
    ensures !HasRef(s) && SingleType(s, "integer") ==> r == (if s.format == "int32" then "int32" else "int")
    ensures !HasRef(s) && SingleType(s, "number") ==> r == "int"
    ensures !HasRef(s) && ArrayOfRef(s) ==> r == "[]" + e.typeForRef(s.items.value[0].xref)
    ensures !HasRef(s) && OpenObject(s) ==> r == "map[string]interface{}"
    ensures !HasRef(s) && !Primitive(s) && !ArrayOfRef(s) && MapOfRef(s) ==>
              r == "map[string]" + e.typeForRef(s.additionalProperties.value.schema.xref)
    ensures !Recognized(s) ==> r == e.dumpSchema(s)
  {
    if s.xref != "" then e.typeForRef(s.xref)
    else
      match DeclaredTypeRule(e, s)
      case Some(t) => t
      case None =>
        if s.additionalProperties.Some? && s.additionalProperties.value.SchemaForm?
           && s.additionalProperties.value.schema.xref != ""
        then "map[string]" + e.typeForRef(s.additionalProperties.value.schema.xref)
        else e.dumpSchema(s)
  }

  /** A reference decides the result alone: `type`, `items`, `format` and
      `additionalProperties` of a referencing node are never consulted. */
  lemma RefTakesPrecedence(e: Env, s: Schema, t: Schema)
    requires HasRef(s) && t.xref == s.xref
    ensures TypeForSchema(e, s) == TypeForSchema(e, t) == e.typeForRef(s.xref)
  {
  }

  /** `format` refines only `integer`: on every other recognised node, changing
      it leaves the inferred type unchanged. */
  lemma FormatOnlyRefinesInteger(e: Env, s: Schema, f: string)
    requires Recognized(s) && !(SingleType(s, "integer") && !HasRef(s))
    ensures TypeForSchema(e, s.(format := f)) == TypeForSchema(e, s)
  {
  }

  /** `number` is inferred exactly like a non-`int32` `integer`. */
  lemma NumberInferredAsInteger(e: Env, s: Schema)
    requires !HasRef(s) && SingleType(s, "number")
    ensures TypeForSchema(e, s) == TypeForSchema(e, s.(types := Some(["integer"]), format := ""))
  {
  }

  /** A node listing several primitive types, with no reference and no
      referenced `additionalProperties`, falls back to its textual dump. */
  lemma MultiTypeFallsBack(e: Env, s: Schema)
    requires !HasRef(s) && s.types.Some? && |s.types.value| > 1 && !MapOfRef(s)
    ensures TypeForSchema(e, s) == e.dumpSchema(s)
  {
  }
}
