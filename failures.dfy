/**
 * Go's `error` values as the core sees them.  An operation that returns `error`
 * returns an `Outcome` here: `Ok` for nil, `Failed(e)` otherwise.
 */
module Failures {

  import opened ServiceError

  datatype Error =
    | Service(message: ErrorMessage)          // serviceerror.New(key), serviceerror.NewServerError()
    | NoRows                                  // database/sql's ErrNoRows sentinel
    | Opaque(code: nat)                       // any error a collaborator returns (broker, database, codec, file system)
    | RetryExhausted(attempts: int)           // fmt.Errorf("failed after %d attempts", attempts)
    | Wrapped(context: string, cause: Error)  // fmt.Errorf("<context>: %w", cause)

  datatype Outcome = Ok | Failed(error: Error)

  datatype Result<+T> = Success(value: T) | Failure(error: Error)

  /** errors.Is: the error itself or any error it wraps equals the target. */
  predicate Is(e: Error, target: Error)
  {
    e == target || (e.Wrapped? && Is(e.cause, target))
  }


  /**
   * How many of the calls answered by answer(start), answer(start + 1), ...,
   * answer(start + limit - 1) succeed before the first one that fails.
   */
  function SucceedingPrefix(answer: nat -> Outcome, start: nat, limit: nat): (n: nat)
    ensures n <= limit
    ensures forall j :: start <= j < start + n ==> answer(j).Ok?
    ensures n < limit ==> answer(start + n).Failed?
    decreases limit
  {
    if limit == 0 || answer(start).Failed? then 0
    else
      1 + SucceedingPrefix(answer, start + 1, limit - 1)
  }

  /**
   * How many of the calls answered by answer(start), ..., answer(start + limit - 1)
   * fail before the first one that succeeds.
   */
  function FailingPrefix(answer: nat -> Outcome, start: nat, limit: nat): (n: nat)
    ensures n <= limit
    ensures forall j :: start <= j < start + n ==> answer(j).Failed?
    ensures n < limit ==> answer(start + n).Ok?
    decreases limit
  {
    if limit == 0 || answer(start).Ok? then 0
    else
      1 + FailingPrefix(answer, start + 1, limit - 1)
  }
}
