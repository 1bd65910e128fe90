/** The failures the baseline model can raise, and a failure-compatible
    result type that carries them instead of an exception. */
module Errors {

  /** Each constructor stands for one exception the Python code lets escape. */
  datatype Error =
    | EmptyInput                    // `max` over an empty list of token sequences (ValueError)
    | EmptyAxis                     // `np.argmax` along an axis of length zero (ValueError)
    | IndexOutOfRange               // a write outside the prediction matrix (IndexError)
    | SampleCountMismatch           // `fit` given a different number of label rows than of inputs (ValueError)
    | NegativeDimension             // `np.zeros` with a negative number of rows or columns (ValueError)
    | ArtifactMissing(path: string) // opening or loading a file that is not there
    | ArtifactUnreadable(path: string) // the file holds something other than what is expected
    | NotAnInteger                  // `int` applied to the text of `model.config` (ValueError)

  datatype Result<+T> = Ok(value: T) | Err(error: Error) {

    predicate IsFailure() {
      Err?
    }

    function PropagateFailure<U>(): Result<U>
      requires Err?
    {
      Err(error)
    }

    function Extract(): T
      requires Ok?
    {
      value
    }
  }

  /** The outcome of a call that returns nothing on success. */
  datatype Outcome = Pass | Fail(error: Error)
}
