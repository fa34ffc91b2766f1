/**
 * The exceptions the pipeline can raise, as values: a pandas or dictionary
 * lookup of a missing key, a column of the wrong kind, an unseen label, a
 * width mismatch at the scaler and an out-of-range index.
 */
module Errors {

  datatype Option<T> = None | Some(value: T)

  datatype Error =
    | KeyError(key: string)                          // missing column or dictionary key
    | NotATimestamp(column: string)                  // `.dt` accessor on a column that holds no dates
    | NotNumeric(column: string)                     // arithmetic or scaling on a column of text
    | UnseenLabel(column: string, value: string)     // `LabelEncoder.transform` of an unknown value
    | ShapeMismatch(expected: nat, got: nat)         // scaler fitted on a different number of columns
    | IndexError(index: int)                         // list index out of range
    | WrongType(key: string)                         // artifact entry of an unexpected kind

  /** A value or the exception raised instead; `:-` propagates the exception. */
  datatype Result<T> = Ok(value: T) | Err(error: Error) {
    predicate IsFailure() {
      Err?
    }

    function PropagateFailure<U>(): Result<U>
      requires Err?
    {
      Err(error)
    }

    function Extract(): T
      requires Ok?
    {
      value
    }
  }
}
