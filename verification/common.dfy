/** Small shared vocabulary: optional values, document ids and JavaScript truthiness. */
module Common {

  /** A value that may be missing (`undefined` or `null` in the JavaScript code). */
  datatype Option<+T> = None | Some(value: T)

  /** The outcome of a validation that either builds a value or names what is wrong. */
  datatype Result<+T, +E> = Ok(value: T) | Err(error: E)

  /** Document ids are opaque strings; ObjectId casting is not modelled. */
  type Id = string

  /** JavaScript truthiness of an optional string: `undefined` and `""` are falsy. */
  predicate Truthy(s: Option<string>)
  {
    s.Some? && s.value != ""
  }
}
