/**
 * Result shapes shared by the whole model. Every failure in the system is an
 * `Error` whose message is forwarded verbatim, so failures carry a string.
 */
module Wrappers {

  datatype Option<+T> = None | Some(value: T)

  /** The value of an operation that either returns or throws `Error(msg)`. */
  datatype Result<+T> = Ok(value: T) | Err(msg: string)

  /** A `void` operation that either completes or throws `Error(msg)`. */
  datatype Outcome = Pass | Fail(msg: string)

  /** JavaScript truthiness of an optional string: `undefined` and `""` are falsy. */
  predicate Truthy(s: Option<string>)
  {
    s.Some? && s.value != ""
  }
}
