// Optional values: JavaScript's `undefined`/`null` and missing JSON keys.
module Wrappers {

  datatype Option<+T> = None | Some(value: T)

  /** A JavaScript string is truthy when it is present and not empty. */
  predicate Truthy(s: Option<string>) {
    s.Some? && s.value != ""
  }
}
