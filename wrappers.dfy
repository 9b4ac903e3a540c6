/** Failure-carrying wrappers shared by every module of the model. */
module Wrappers {

  /** A value that may be absent: JavaScript's `undefined`/`null` next to a present value. */
  datatype Option<+T> = None | Some(value: T)

  /** The outcome of a step that either returns a value or throws. */
  datatype Result<+T, +E> = Success(value: T) | Failure(error: E)

  /** JavaScript truthiness of an optional string: present and not empty. */
  predicate Truthy(s: Option<string>) {
    s.Some? && s.value != ""
  }
}
