/** Option and Result values shared by the whole model. `None` also stands
    for JavaScript's `null` and `undefined` wherever the source allows them. */
module Wrappers {

  datatype Option<+T> = None | Some(value: T)

  datatype Result<+T, +E> = Success(value: T) | Failure(error: E)

  /** A thrown JavaScript value: an `Error` carrying its message, or anything else. */
  datatype Thrown = ErrorThrown(message: string) | OtherThrown

  /** JavaScript truthiness of a nullable string: null and "" are falsy. */
  predicate Truthy(s: Option<string>)
  {
    s.Some? && s.value != ""
  }
}
