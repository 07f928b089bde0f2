/** Optional values and the JavaScript truthiness of optional strings. */
module Wrappers {

  /** A value that may be missing: `T | null` in the composables. */
  datatype Option<+T> = None | Some(value: T)

  /** JavaScript truthiness of a `string | null`: `null` and `""` are falsy, every other string is truthy. */
  predicate Truthy(o: Option<string>)
  {
    o.Some? && o.value != ""
  }
}
