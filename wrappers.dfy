/** Option, Result and Outcome: the model's stand-ins for JavaScript's `undefined`/`null`
    and for thrown errors (an `Err`/`Fail` carries the error message). */
module Wrappers {

  datatype Option<+T> = None | Some(value: T) {
    /** `x || default` for an optional value */
    function GetOr(default: T): T {
      match this
      case Some(v) => v
      case None => default
    }
  }

  /** A value or an error (the source's thrown `Error`, by its message). */
  datatype Result<+T> = Ok(value: T) | Err(error: string)

  /** Success without a value, or an error. */
  datatype Outcome = Pass | Fail(error: string)

  /** JavaScript truthiness of an optional string: present and not empty. */
  predicate Truthy(s: Option<string>) {
    s.Some? && s.value != ""
  }
}
