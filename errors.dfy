/** The failures the reputation engine reports, as values instead of exceptions. */
module Errors {

  /** ReputeeNotFoundError and RidDuplicateError of the engine, and the
      ZeroDivisionError that the clout weighting can raise. */
  datatype Error = ReputeeNotFound | RidDuplicate | DivisionByZero

  /** Either a value or the error that replaced it; usable with `:-`. */
  datatype Result<+T> = Ok(value: T) | Err(error: Error) {

    predicate IsFailure() {
      Err?
    }

    function PropagateFailure<U>(): Result<U>
      requires Err?
    {
      Err(error)
    }

    function Extract(): T
      requires Ok?
    {
      value
    }
  }

  /** The outcome of an operation that returns nothing when it succeeds. */
  datatype Outcome = Pass | Fail(error: Error)

  /** Forgets the value of a result, keeping only whether (and why) it failed. */
  function OutcomeOf<T>(r: Result<T>): Outcome
  {
    match r
    case Ok(_) => Pass
    case Err(e) => Fail(e)
  }
}
