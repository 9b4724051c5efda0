/** Failure-compatible wrappers shared by every module of the model. */
module Base {

  /** An optional value: a nil value in Go, null or undefined in TypeScript. */
  datatype Option<+T> = None | Some(value: T) {
    function GetOr(default: T): T {
      match this
      case Some(v) => v
      case None => default
    }
  }

  /** A value or an error, as Go's (value, error) pairs. */
  datatype Result<+T, +E> = Success(value: T) | Failure(error: E) {
    predicate IsFailure() { Failure? }
  }

  /** A single byte, as Go's `byte`. */
  newtype byte = x: int | 0 <= x < 256

  /** Timestamps are integers (nanoseconds in the backend, milliseconds in the browser). */
  type Time = int
}
