/** Shared wrappers: optional values, results, and the error kinds the
    converter reports (Go `error` values and Go runtime panics). */
module Base {

  datatype Option<T> = None | Some(value: T)

  /** Every way the conversion can stop. The last two are not `error`
      values in the program but Go runtime panics; the model makes them
      explicit outcomes so that the partial operations stay total. */
  datatype Error =
    // payload synthesis
    | SchemaBuildFailed(reason: string)
    | TryRebuild
    | UnknownSchemaType(tag: string)
    | UnsynthesizableArray(title: string)
    | NotAnObject
    | UnsupportedMediaType(mediaType: string)
    // operation resolution
    | PathsNotConfigured
    | UnconfiguredPath(path: string)
    | UnconfiguredMethod(verb: string, path: string)
    | MissingParameterConfig(name: string, verb: string, path: string)
    | MissingPayloadConfig(mediaType: string, verb: string, path: string)
    | MissingServerVariable(name: string)
    | AmbiguousServer
    // security schemes
    | AuthNotConfigured
    | UnknownSecurityScheme(name: string)
    | UnconfiguredApiKey(name: string)
    | UnconfiguredCredentials(name: string)
    | MalformedCredentials(name: string)
    | UnsupportedHttpScheme(scheme: string, name: string)
    | UnconfiguredMutualTLS(name: string)
    | UnsupportedSecurityScheme(kind: string, name: string)
    | UnrecognizedSecurityScheme(kind: string, name: string)
    // Go runtime panics
    | IndexOutOfRange(index: nat, length: nat)
    | NilDereference(what: string)

  datatype Result<T> = Ok(value: T) | Err(error: Error) {
    predicate IsFailure() {
      Err?
    }

    function PropagateFailure<U>(): Result<U>
      requires Err?
    {
      Err(error)
    }

    function Extract(): T
      requires Ok?
    {
      value
    }
  }
}
