/** The failures the attribution script raises, and the failure-compatible
    wrappers that carry them. Each `Error` stands for one exception the script
    lets escape; none is caught or retried. */
module Results {

  datatype Error =
      /** IndexError: `[0]` on an empty list, or index 0 on an empty class axis. */
    | IndexOutOfRange
      /** ValueError: the model kind is neither "rf" nor "logreg". */
    | UnsupportedModel(kind: string)
      /** RuntimeError: the attribution matrix and the sample disagree in shape. */
    | ShapeMismatch(svRows: nat, svCols: nat, sampleRows: nat, sampleCols: nat)
      /** ValueError: the dependence feature is not a column of the sample. */
    | UnknownFeature(name: string)

  datatype Option<+T> = None | Some(value: T)

  datatype Result<+R> = Ok(value: R) | Err(error: Error) {

    predicate IsFailure() {
      Err?
    }

    function PropagateFailure<U>(): Result<U>
      requires Err?
    {
      Err(error)
    }

    function Extract(): R
      requires Ok?
    {
      value
    }
  }
}
