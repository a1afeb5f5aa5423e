/** The optional-value datatype used for absent snapshots, pending clicks and missing record fields. */
module Wrappers {

  datatype Option<+T> = None | Some(value: T)
}
