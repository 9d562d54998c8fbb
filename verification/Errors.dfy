/** The part of the error taxonomy of src/errors/exceptions.py that drives retries, the circuit breaker
    and what a job row records. */
module Errors {
  datatype Option<+T> = None | Some(value: T)

  /** An instance of AppError: `details` holds the integer entries. */
  datatype AppError = AppError(
    code: string,
    message: string,
    statusCode: int,
    retryable: bool,
    retryAfter: Option<real>,
    details: map<string, int>)

  /** How an awaited operation ended: a value, an AppError, or any other exception. */
  datatype Outcome<+T> = Success(value: T) | Failed(error: AppError) | Crashed {
    /** A failure the taxonomy marks as worth repeating. */
    predicate Retryable() {
      Failed? && error.retryable
    }
  }
}
