/** A value that may be missing: pandas' NaN for a rolling sum, a mean or a
    standard deviation that is undefined. */
module Wrappers {

  datatype Option<+T> = None | Some(value: T)
}
