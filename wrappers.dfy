/** Failure-carrying datatypes shared by the other modules. */
module Wrappers {

  datatype Option<+T> = None | Some(value: T)

  /** Either a value or the error a JavaScript function would have thrown. */
  datatype Result<+T, +E> = Ok(value: T) | Err(error: E)

  /** JavaScript truthiness of an optional string: unset and "" are both falsy. */
  predicate Present(s: Option<string>)
  {
    s.Some? && s.value != ""
  }
}
