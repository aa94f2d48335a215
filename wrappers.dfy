/** Optional values and success/failure results shared by the modules of this model. */
module Wrappers {

  /** A value that may be absent: JavaScript's `null`/`undefined`, Python's `None`. */
  datatype Option<+T> = None | Some(value: T)

  /** The outcome of an operation that either yields a value or fails with an error. */
  datatype Result<+T, +E> = Success(value: T) | Failure(error: E)

  /** JavaScript truthiness of an optional string: `null` and "" are falsy, any other text is truthy. */
  predicate Truthy(text: Option<string>)
  {
    text.Some? && text.value != ""
  }
}
