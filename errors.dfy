/** How a profile run stops early: each case is an exception the Python script raises. */
module Errors {

  datatype Error =
    /** `d[key] += ...` on a position that the dense dict does not hold. */
    | KeyError(key: int)
    /** `totals[position] / reads` with no reads at all (ZeroDivisionError). */
    | ZeroReads
    /** `(f - min(fs)) / (max(fs) - min(fs))` with max == min (ZeroDivisionError). */
    | ZeroRange

  /** A value, or the exception that aborted the run; usable with `:-`. */
  datatype Result<T> = Ok(value: T) | Err(error: Error) {

    predicate IsFailure() {
      Err?
    }

    function PropagateFailure<U>(): Result<U>
      requires Err?
    {
      Err(error)
    }

    function Extract(): T
      requires Ok?
    {
      value
    }
  }
}
