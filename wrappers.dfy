/** The optional-value datatype used for `undefined`-able fields and lookups. */
module Wrappers {

  datatype Option<+T> = None | Some(value: T)
}
