/** Presence-tracked values and success/failure results.

    Every optional field of the configuration is a Go pointer that is either
    nil or points at a value; `Option` keeps "absent" distinct from "zero". */
module Options {

  datatype Option<+T> = None | Some(value: T) {

    /** The value when present, otherwise `fallback`. */
    function Or(fallback: T): T {
      match this
      case Some(v) => v
      case None => fallback
    }
  }

  /** A Go `(value, error)` pair where exactly one side is meaningful. */
  datatype Result<+R, +E> = Success(value: R) | Failure(error: E)
}
