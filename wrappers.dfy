/** Optional values, and JavaScript's two kinds of "nothing". */
module Wrappers {

  /** A property that may be absent (`undefined`). */
  datatype Option<+T> = None | Some(value: T)

  /** A property typed `T | null | undefined`, where `null` and `undefined` differ. */
  datatype Nullable<+T> = Undefined | Null | Value(value: T)

  /** JavaScript truthiness of an optional string: present and non-empty. */
  predicate Truthy(s: Option<string>) {
    s.Some? && s.value != ""
  }
}
