/** Failure-carrying values for the exceptions the WELPy code can raise. */
module Results {

  /** A value that may be absent; a parser returns None where Python raises. */
  datatype Option<+T> = None | Some(value: T)

  /** The exceptions of the modelled code, one constructor per cause. */
  datatype Error =
    | MissingColumn(name: string)  // AttributeError: `frame.Name` on a frame without that column
    | MissingKey(name: string)     // KeyError: `frame[name]` or `row[name]` without that key
    | WrongType(name: string)      // TypeError: a value of a kind the operation cannot take
    | BadValue(text: string)       // ValueError: strptime or fromisoformat rejected the text
    | EmptyTable                   // IndexError: `iloc[0]` on a frame with no rows
    | ShortRange(length: nat)      // IndexError: a time range list with fewer than two elements

  /** The outcome of an operation that either returns a value or raises. */
  datatype Result<+T> = Ok(value: T) | Err(error: Error) {

    predicate IsFailure() {
      Err?
    }

    function PropagateFailure<U>(): Result<U>
      requires Err?
    {
      Err(error)
    }

    function Extract(): T
      requires Ok?
    {
      value
    }
  }
}
