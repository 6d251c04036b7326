# OpenAPI 2.0 to surface model, in Dafny

This project models the translation that the gnostic Go generator plugin
performs on an already-parsed OpenAPI 2.0 (Swagger) document. The translation
produces the "surface" model used for code generation. That model is a title,
an ordered list of types and an ordered list of methods.

- **Type inference** (`TypeInference.TypeForSchema`) maps a Schema Object to a
  type-reference string. The rules are tried in order and the first that
  applies wins. A `$ref` comes first. Then come the single-entry `type`
  primitives, then an array of a reference, then an object with no
  `additionalProperties`, then a map of a reference. Anything else becomes the
  schema's textual dump, so the mapping never fails.
- **Definition translation** (`Definitions.BuildTypeFromDefinition`) turns a
  definition into a STRUCT with one field per property. A property-less
  definition with `additionalProperties` becomes a MAP. Any other definition
  gets a type whose kind is left unset.
- **Parameter and response translation** (`Parameters`, `Responses`) build
  the holder structs `<name>Parameters` and `<name>Responses`. A holder that
  would have no fields is not registered, and its name comes back as "".
- **Assembly** (`Builder`) appends the definition types first. Then, for each
  path, it appends one method per operation under GET, POST, PUT and DELETE,
  in that order. Each method's holder types come just before the method.
  `Builder.Build` is the functional definition of the whole translation.
  `Builder.BuildModel` is the same translation written with the builder's
  loops, and is proved equal to it.

The input document is a set of immutable datatypes (`OpenApiV2`). Protobuf
`oneof` alternatives become sum types and nil-able members become `Option`.
The IR is in `Surface`. The helpers this file calls but does not define are
function-valued fields of `Collaborators.Env`: `typeForRef`,
`sanitizeOperationName`, `generateOperationName` and the two `fmt` dumps. Each
translator takes that `Env` as a parameter. The builder's mutable model becomes
a `Model` value threaded through sequence appends.

Two facts about the source shape the model:

- For a MAP definition, line 101 of model_openapiv2.go applies `typeForRef`
  directly to the `$ref` of the `additionalProperties` schema. Type inference
  is not involved, and `typeForRef` is applied even when that `$ref` is empty.
- Every `err` in the file is nil, so there is no top-level failure and
  `Build` is a total function of the document.

## Model

| member | source | states |
|---|---|---|
| `TypeInference.TypeForSchema` | plugins/gnostic-go-generator/surface/model_openapiv2.go:211-252 | The decision table. A reference wins. A single `string` gives "string". A single `integer` gives "int32" with format int32 and "int" otherwise. A single `number` gives "int". An array of exactly one referenced item gives "[]" plus the name. An object without `additionalProperties` gives "map[string]interface{}". Otherwise a referenced `additionalProperties` schema gives "map[string]" plus the name. Any node no rule recognises gives its dump. |
| `TypeInference.RefTakesPrecedence` | plugins/gnostic-go-generator/surface/model_openapiv2.go:212-215 | Two nodes with the same non-empty `$ref` infer the same type, whatever else they declare. |
| `TypeInference.FormatOnlyRefinesInteger` | plugins/gnostic-go-generator/surface/model_openapiv2.go:218-230 | On any recognised node other than an unreferenced single `integer`, changing `format` does not change the inferred type. |
| `TypeInference.NumberInferredAsInteger` | plugins/gnostic-go-generator/surface/model_openapiv2.go:225-230 | A `number` is inferred exactly as a non-int32 `integer`. |
| `TypeInference.MultiTypeFallsBack` | plugins/gnostic-go-generator/surface/model_openapiv2.go:216-251 | A node that lists several types, has no reference and has no referenced `additionalProperties` yields its textual dump. |
| `Definitions.PropertyFields` | plugins/gnostic-go-generator/surface/model_openapiv2.go:89-95 | One field per property, in property order. Each field has the property's name and its inferred type, is serialised, and has no value type, format or position. |
| `Definitions.BuildTypeFromDefinition` | plugins/gnostic-go-generator/surface/model_openapiv2.go:79-107 | The type is named after the definition and gets the fixed description. Its fields are the property fields. The kind is STRUCT exactly when there is a property. It is MAP exactly when there is no property and `additionalProperties` is present, with the referenced name as map type. Otherwise it is unset, with no map type. |
| `Parameters.CarriedParameters` | plugins/gnostic-go-generator/surface/model_openapiv2.go:133-137 | Selects the items that carry a parameter rather than a reference. Every selected item carries a parameter and occurs in the list, and every parameter-carrying item is selected. |
| `Parameters.CarriedParametersFilter` | plugins/gnostic-go-generator/surface/model_openapiv2.go:133-137 | The selection is an order-preserving filter. A single item is kept exactly when it carries a parameter, and the selection of a concatenation is the concatenation of the selections. Item order and repeated items are therefore kept. |
| `Parameters.ParameterField` | plugins/gnostic-go-generator/surface/model_openapiv2.go:134-175 | A body parameter gives a BODY field typed by inference on its schema, or by the item's dump when it has no schema. A header, formData, query or path parameter gives a HEADER, FORMDATA, QUERY or PATH field, each iff, typed by its declared type. Only a path parameter copies `format`. Every field is serialised. |
| `Parameters.ParameterFields` | plugins/gnostic-go-generator/surface/model_openapiv2.go:133-177 | Exactly one field per parameter-carrying item, in item order. There are no fields iff every item is a reference. |
| `Parameters.ParameterFieldsAppend` | plugins/gnostic-go-generator/surface/model_openapiv2.go:133-177 | The fields of a concatenated list are the concatenated fields, so each item contributes independently and in order. |
| `Parameters.BuildTypeFromParameters` | plugins/gnostic-go-generator/surface/model_openapiv2.go:127-183 | Returns "" and leaves the model unchanged iff every item is a reference. Otherwise it returns `<name>Parameters` and appends exactly one non-empty STRUCT of that name, holding the parameter fields. Methods and title are untouched. |
| `Responses.SchemaCarrying` | plugins/gnostic-go-generator/surface/model_openapiv2.go:192-197 | Selects the response entries that resolve to a response whose schema is a Schema Object. Every selected entry has such a schema and occurs in the list, and every such entry is selected. |
| `Responses.SchemaCarryingFilter` | plugins/gnostic-go-generator/surface/model_openapiv2.go:192-197 | The selection is an order-preserving filter. A single entry is kept exactly when it carries a schema, and the selection of a concatenation is the concatenation of the selections. Entry order and repeated entries are therefore kept. |
| `Responses.ResponseField` | plugins/gnostic-go-generator/surface/model_openapiv2.go:193-200 | The field is named after the status code. Its value type is the inferred schema type and its type is "*" plus that value type. It is not serialised. |
| `Responses.ResponseFields` | plugins/gnostic-go-generator/surface/model_openapiv2.go:192-202 | Exactly one field per schema-carrying entry, in order. There are no fields iff no entry carries a schema. |
| `Responses.BuildTypeFromResponses` | plugins/gnostic-go-generator/surface/model_openapiv2.go:185-209 | Returns "" and leaves the model unchanged iff no entry carries a schema. Otherwise it returns `<name>Responses` and appends exactly one non-empty STRUCT of that name. |
| `Builder.OperationName` | plugins/gnostic-go-generator/surface/model_openapiv2.go:116-119 | The sanitised operation id when that is non-empty. Otherwise the name synthesised from verb and path. |
| `Builder.BuildMethodFromOperation` | plugins/gnostic-go-generator/surface/model_openapiv2.go:109-125 | Appends exactly one method. It copies operation id, path, verb and description, and is named by `OperationName`. Its holder names are "" or that name plus "Parameters" / "Responses", each according to whether the holder has fields. Just before it, the types gain exactly the `<name>Parameters` STRUCT holding the parameter fields when there are any, then the `<name>Responses` STRUCT holding the response fields when there are any. Nothing else changes. |
| `Builder.HolderTypesRegistered` | plugins/gnostic-go-generator/surface/model_openapiv2.go:121-122 | Registering the parameter holder and then the response holder appends exactly the operation's holder types, parameters first, each present exactly when it has fields. |
| `Builder.BuildMethodExtends` | plugins/gnostic-go-generator/surface/model_openapiv2.go:121-123 | A method keeps all earlier types and methods, appends only non-empty STRUCTs, and keeps every method's holder names declared. |
| `Builder.DefinitionTypes` | plugins/gnostic-go-generator/surface/model_openapiv2.go:51-59 | One translated type per definition, in declaration order. |
| `Builder.CollectDefinitions` | plugins/gnostic-go-generator/surface/model_openapiv2.go:51-59 | The definitions loop yields exactly the definition types. |
| `Builder.VisitPathItem` | plugins/gnostic-go-generator/surface/model_openapiv2.go:61-75 | The body of the paths loop adds one method per handled verb present on the path, and equals the functional path step. |
| `Builder.AddPathItemEndpoints` | plugins/gnostic-go-generator/surface/model_openapiv2.go:62-74 | A path appends exactly its (path, verb) pairs for the GET, POST, PUT and DELETE operations present, in that order. |
| `Builder.AddPathsEndpoints` | plugins/gnostic-go-generator/surface/model_openapiv2.go:61-75 | Walking the paths appends exactly the document's handled (path, verb) pairs, path by path. |
| `Builder.AddPathItemContribution` | plugins/gnostic-go-generator/surface/model_openapiv2.go:62-74 | A path appends exactly the holder types and the methods of its GET, POST, PUT and DELETE operations that are present, in that order. Each method is the operation's own record, with its name, copied fields and holder names. |
| `Builder.AddPathsContribution` | plugins/gnostic-go-generator/surface/model_openapiv2.go:61-75 | Walking the paths appends exactly the document's holder types and methods, path by path, and keeps the model name. |
| `Builder.AddPathsExtends` | plugins/gnostic-go-generator/surface/model_openapiv2.go:61-75 | Walking the paths only appends. Every added type is a non-empty STRUCT, and every holder name a method refers to stays declared. |
| `Builder.HandledEndpoints` | plugins/gnostic-go-generator/surface/model_openapiv2.go:63-74 | Every method produced from the paths has verb GET, POST, PUT or DELETE. |
| `Builder.Build` | plugins/gnostic-go-generator/surface/model_openapiv2.go:36-77 | The model is named after the title. Its types are the definition types in order, followed by the holder types of every handled operation, path by path. Its methods are exactly the handled operations' records, path by path and in GET, POST, PUT, DELETE order. Each record carries the operation's name, id, path, verb, description and holder names. Consequently the methods' (path, verb) pairs are exactly the handled pairs, every later type is a non-empty STRUCT, and every non-empty holder name a method refers to is declared. |
| `Builder.BuildModel` | plugins/gnostic-go-generator/surface/model_openapiv2.go:36-46 | The loop-based builder returns the same model as `Build`, named after the title. |
| `Builder.OtherVerbsIgnored` | plugins/gnostic-go-generator/surface/model_openapiv2.go:62-74 | Adding, removing or changing OPTIONS, HEAD or PATCH operations never changes what a path contributes. |
| `Builder.UnhandledPathAddsNothing` | plugins/gnostic-go-generator/surface/model_openapiv2.go:61-75 | Appending a path with none of GET, POST, PUT and DELETE (for example PATCH only) leaves the model unchanged. |
| `Scenarios.PetsTranslation` | plugins/gnostic-go-generator/surface/model_openapiv2.go:49-77 | The one-definition, one-GET "Pets" document yields the type Pet, the holders getPetParameters (a PATH field) and getPetResponses ("*Pet", not serialised), and one linked GET method getPet. This assumes the reference normalises to "Pet" and the operation id sanitises to itself. |

## Left out

- `typeForRef`, `sanitizeOperationName` and `generateOperationName` are not part of this model. They are uninterpreted fields of `Env`. Their determinism, including repeatable name synthesis for the same (verb, path), holds because they are functions.
- The output of `fmt.Sprintf("%v")` and `fmt.Sprintf("%+v")` (lines 135, 251) is Go reflection formatting. It is the uninterpreted `Env.dumpSchema` / `Env.dumpParametersItem`.
- `addType`, `addField`, `addMethod` and the IR structs live in generated protobuf code that is not part of this model. Appends are sequence appends.
- `Kind` and `Position` values never assigned by this file are the `Unspecified` and `Unpositioned` variants. Which protobuf enum value is the zero default is not modelled.
- `Definitions.BuildTypeFromDefinition`: requires `Translatable`. A property-less definition whose `additionalProperties` is the boolean form makes line 101 dereference a nil schema, which panics in Go. That input is excluded instead of modelled.
- A nil `Info`, `Paths` or `Responses` pointer would also panic. The document title, its paths and each operation's responses are always present in the model.
- A protobuf `oneof` with no alternative set is not modelled, because the parser always sets one. This covers a parameters item, a parameter, a non-body parameter and a response value.
- Members of the OpenAPI objects that the translation never reads are not modelled (summary, tags, schemes and the like).
- Error results are not modelled. Every `err` in the file is nil: the errors at lines 121-122 are overwritten and those at lines 64-73 are discarded.
- Plugin invocation and code emission happen outside this file.
