/** The optional value used wherever the source returns `T | undefined`
    or has an optional (`?`) field. */
module Wrappers {
  datatype Option<+T> = None | Some(value: T)
}
