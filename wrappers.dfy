/** The optional value used for nullable columns and for gateway calls that may fail. */
module Wrappers {

  datatype Option<+T> = None | Some(value: T)
}
