/**
  The helpers the translation calls but does not define: reference-to-name
  normalisation, operation-name sanitising and synthesis, and Go's `%v` / `%+v`
  textual dumps. They are deterministic, so each is a plain function value.
 */
module Collaborators {
  import opened OpenApiV2

  datatype Env = Env(
    typeForRef: string -> string,
    sanitizeOperationName: string -> string,
    generateOperationName: (string, string) -> string,
    dumpSchema: Schema -> string,
    dumpParametersItem: ParametersItem -> string)
}
