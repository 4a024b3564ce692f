/** The optional value used for cells that may hold no number (pandas' NaN). */
module Wrappers {

  datatype Option<+T> = None | Some(value: T)

}
