/** Option, Result and Outcome: the value-returning form of the source's
    `None` results and raised exceptions. */
module Wrappers {

  datatype Option<+T> = None | Some(value: T) {
    function GetOr(default: T): T {
      match this
      case Some(v) => v
      case None => default
    }
  }

  datatype Result<+R, +E> = Success(value: R) | Failure(error: E)

  /** A check that either passes or fails with an error (a Python validator
      that returns normally or raises). `a.Then(b)` runs `b` only when `a`
      passed, as consecutive validator calls do. */
  datatype Outcome<+E> = Pass | Fail(error: E) {
    function Then(next: Outcome<E>): Outcome<E> {
      if Fail? then this else next
    }
  }
}
