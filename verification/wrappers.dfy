/** The optional-value datatype used for TypeScript's `T | undefined`. */
module Wrappers {

  datatype Option<+T> = None | Some(value: T)
}
