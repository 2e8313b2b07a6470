/** The optional value used for an unset preference and for "no channel". */
module Wrappers {

  datatype Option<+T> = None | Some(value: T)
}
