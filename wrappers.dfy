/** The optional value used for nullable columns and for "no row found". */
module Wrappers {

  datatype Option<+T> = None | Some(value: T)
}
