/** Failure-carrying values used across the model: Go's `(T, error)` pairs and
    nil values become `Result` and `Option`. */
module Results {

  /** A possibly-nil reference; `None` stands for Go's `nil`. */
  datatype Option<+T> = None | Some(value: T)

  /** The errors the filter package can produce or pass along. */
  datatype Error =
    | CompileFailed(expr: string)     // regexp.Compile rejected a pattern
    | IndexOutOfRange(index: int)     // deleteUnmatched was given a bad index
    | Upstream(message: string)       // any error produced before the filter is reached

  /** Either a value or the error that stopped its construction; usable with `:-`. */
  datatype Result<+R> = Success(value: R) | Failure(error: Error) {

    predicate IsFailure() {
      Failure?
    }

    function PropagateFailure<U>(): Result<U>
      requires Failure?
    {
      Failure(error)
    }

    function Extract(): R
      requires Success?
    {
      value
    }

    /** The success value as a possibly-nil reference. */
    function ToOption(): Option<R> {
      match this
      case Success(v) => Some(v)
      case Failure(_) => None
    }
  }
}
