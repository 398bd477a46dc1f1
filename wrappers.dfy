/** Option and Result, the failure-carrying values used throughout the model. */
module Wrappers {

  datatype Option<+T> = None | Some(value: T)

  datatype Result<+R, +E> = Ok(value: R) | Err(error: E)

  /** Total order verdict, as Rust's `std::cmp::Ordering`. */
  datatype Ordering = Less | Equal | Greater
}
