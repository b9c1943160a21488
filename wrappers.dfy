/** Option and pass/fail result types shared by the license modules. */
module Wrappers {

  /** A value that may be absent: an unset Odoo field (`False`) or a missing dict key. */
  datatype Option<+T> = None | Some(value: T)

  /** The outcome of an operation that either passes or raises an error. */
  datatype Outcome<+E> = Pass | Fail(error: E)
}
