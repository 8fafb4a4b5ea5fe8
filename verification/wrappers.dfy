/** The optional value used where the dashboard computes a number that may not exist. */
module Wrappers {

  /** A value that is present (`Some`) or absent (`None`). */
  datatype Option<+T> = None | Some(value: T)
}
