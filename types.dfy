/** Small value types shared by every module of the model: optional values,
    the outcome of a call to an outside service, and JavaScript truthiness of
    an optional string (absent or empty is falsy). */
module Types {

  datatype Option<+T> = None | Some(value: T)

  /** An error raised by an outside call: `message` is the exception's own
      message, `dataMessage` the `message` field of the upstream response
      body when the service returned one. */
  datatype ExternalError = ExternalError(message: string, dataMessage: Option<string>)

  /** The outcome of one call to an outside service. */
  datatype Outcome<+T> = Ok(value: T) | Err(error: ExternalError)

  /** `!!x` for a string-valued field that may be undefined. */
  predicate Truthy(x: Option<string>)
  {
    x.Some? && x.value != ""
  }

  /** `a || b` where `a` is an optional string: `a` when truthy, otherwise `b`. */
  function OrElse(a: Option<string>, b: Option<string>): Option<string>
  {
    if Truthy(a) then a else b
  }
}
