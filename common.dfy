/** Option and Result: the shapes the model uses for optional fields
    (`undefined` in the source) and for operations that throw. */
module Common {

  /** A document identifier (a Mongo ObjectId). */
  type Id = nat

  datatype Option<+T> = None | Some(value: T)

  datatype Result<+T, +E> = Success(value: T) | Failure(error: E)

  /** JavaScript truthiness of an optional string: `undefined` and "" are falsy. */
  predicate Truthy(s: Option<string>)
  {
    s.Some? && s.value != ""
  }
}
