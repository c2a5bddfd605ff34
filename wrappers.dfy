/** The optional value used for `T | null`, `T | undefined` and failed requests. */
module Wrappers {
  datatype Option<+T> = None | Some(value: T)
}
