/** A value that may be absent, for JavaScript's `undefined` / `null` results. */
module Wrappers {

  datatype Option<T> = None | Some(value: T)
}
