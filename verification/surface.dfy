/**
  The code-generation IR ("surface" model). `Unspecified` and `Unpositioned`
  stand for an enum member this translation never assigns.
 */
module Surface {

  datatype Kind = Unspecified | Struct | Map

  datatype Position = Unpositioned | Body | Header | FormData | Query | Path

  datatype Field = Field(
    name: string,
    typeName: string,
    valueType: string,
    format: string,
    position: Position,
    serialize: bool)

  datatype Type = Type(
    name: string,
    description: string,
    kind: Kind,
    fields: seq<Field>,
    mapType: string)

  datatype Method = Method(
    name: string,
    operation: string,
    path: string,
    httpMethod: string,
    description: string,
    parametersTypeName: string,
    responsesTypeName: string)

  datatype Model = Model(name: string, types: seq<Type>, methods: seq<Method>)

  function AddType(m: Model, t: Type): Model
  {
    m.(types := m.types + [t])
  }

  function AddMethod(m: Model, mt: Method): Model
  {
    m.(methods := m.methods + [mt])
  }

  /** Some type of `types` is named `n`. */
  ghost predicate Declares(types: seq<Type>, n: string)
  {
    exists j :: 0 <= j < |types| && types[j].name == n
  }

  /** Every non-empty type name a method refers to is declared in the model. */
  ghost predicate Linked(m: Model)
  {
    forall i :: 0 <= i < |m.methods| ==>
      && (m.methods[i].parametersTypeName != "" ==> Declares(m.types, m.methods[i].parametersTypeName))
      && (m.methods[i].responsesTypeName != "" ==> Declares(m.types, m.methods[i].responsesTypeName))
  }

  /** Every type from index `from` on is a struct with at least one field. */
  ghost predicate NonEmptyStructsFrom(types: seq<Type>, from: nat)
  {
    forall j :: from <= j < |types| ==> types[j].kind == Struct && |types[j].fields| > 0
  }
}
