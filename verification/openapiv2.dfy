/**
  The already-parsed OpenAPI 2.0 (Swagger) document, reduced to the members the
  translation reads. Protobuf `oneof` alternatives become sum types; nil-able
  sub-messages become `Option`; an absent string is the empty string, as in Go.
 */
module OpenApiV2 {
  import opened Wrappers

  /** A Schema Object. `types` is the `type` member (None when absent, which is
      distinct from an empty list); `items` is the `items` member's schema list. */
  datatype Schema = Schema(
    xref: string,
    format: string,
    types: Option<seq<string>>,
    items: Option<seq<Schema>>,
    properties: Option<seq<NamedSchema>>,
    additionalProperties: Option<AdditionalProperties>)

  /** One entry of an ordered name-to-schema mapping (`properties`, `definitions`). */
  datatype NamedSchema = NamedSchema(name: string, value: Schema)

  /** `additionalProperties` is either a schema or a boolean. */
  datatype AdditionalProperties = SchemaForm(schema: Schema) | BooleanForm(allowed: bool)

  /** An entry of an operation's `parameters`: a parameter or a JSON reference to one. */
  datatype ParametersItem = ParameterItem(parameter: Parameter) | ReferenceItem(ref: string)

  /** A Parameter Object: `in: body`, or one of the four non-body locations. */
  datatype Parameter = BodyParam(body: BodyParameter) | NonBodyParam(nonBody: NonBodyParameter)

  datatype BodyParameter = BodyParameter(name: string, schema: Option<Schema>)

  /** The non-body parameter, by its `in` value: header, formData, query or path. */
  datatype NonBodyParameter =
    | HeaderParam(sub: SubSchema)
    | FormDataParam(sub: SubSchema)
    | QueryParam(sub: SubSchema)
    | PathParam(sub: SubSchema)

  /** The primitive description every non-body parameter declares directly. */
  datatype SubSchema = SubSchema(name: string, typeName: string, format: string)

  /** One entry of a Responses Object, keyed by status code or `default`. */
  datatype NamedResponseValue = NamedResponseValue(name: string, value: ResponseValue)

  datatype ResponseValue = ResponseVal(response: Response) | ResponseRef(ref: string)

  datatype Response = Response(description: string, schema: Option<SchemaItem>)

  /** A response `schema` is a Schema Object or a file schema. */
  datatype SchemaItem = PlainSchema(schema: Schema) | FileSchema(description: string)

  datatype Operation = Operation(
    operationId: string,
    description: string,
    parameters: seq<ParametersItem>,
    responses: seq<NamedResponseValue>)

  /** A Path Item Object: at most one operation per HTTP verb. */
  datatype PathItem = PathItem(
    get: Option<Operation>,
    put: Option<Operation>,
    post: Option<Operation>,
    delete: Option<Operation>,
    options: Option<Operation>,
    head: Option<Operation>,
    patch: Option<Operation>)

  datatype NamedPathItem = NamedPathItem(name: string, value: PathItem)

  /** The document: `info.title`, the optional `definitions`, and `paths`, in declaration order. */
  datatype Document = Document(
    title: string,
    definitions: Option<seq<NamedSchema>>,
    paths: seq<NamedPathItem>)
}
