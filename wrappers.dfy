/** The optional value used for the source's nullable parameters and results. */
module Wrappers {

  datatype Option<+T> = None | Some(value: T)
}
