/**
 * Shared result types of the three validators.
 *
 * Each validator either returns `True` or raises an assertion error whose
 * message says what was wrong; here that is `Pass` or `Fail(e)`, with one
 * error datatype per validator.
 */
module Outcomes {

  /** A value that may be absent; `None` is a missing (NaN / null) table cell. */
  datatype Option<+T> = None | Some(value: T)

  /** `Pass` stands for returning `True`, `Fail(e)` for the raised assertion error. */
  datatype Outcome<+E> = Pass | Fail(error: E)
}
