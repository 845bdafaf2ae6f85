/** The optional value used for pandas' NaN results and for the abstract number parser. */
module Wrappers {

  datatype Option<+T> = None | Some(value: T)
}
