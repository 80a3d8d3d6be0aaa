/** `Option` stands for a JavaScript value that may be `undefined`/`null`; `Result` for a step
    that either hands a value on to the next middleware or ends the request. */
module Wrappers {

  datatype Option<+T> = None | Some(value: T)

  datatype Result<+T, +E> = Success(value: T) | Failure(error: E)

  /** JavaScript truthiness of a value that is a string or absent: present and not empty. */
  predicate Truthy(v: Option<string>)
  {
    v.Some? && v.value != ""
  }
}
