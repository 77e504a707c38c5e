/** Optional values: a nullable column, a `maybeSingle()` result, a `null` state field. */
module Wrappers {

  datatype Option<+T> = None | Some(value: T)

  /** JavaScript truthiness of a nullable boolean column: `null` and `false` are falsy. */
  predicate Truthy(b: Option<bool>) {
    b == Some(true)
  }
}
