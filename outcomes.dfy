/** Option and Result types shared by the model.  An uncaught Python exception
    is modelled as an `Err` carrying the kind of exception the script raises. */
module Outcomes {

  datatype Option<+T> = None | Some(value: T)

  /** The Python exception kinds the modelled scripts can raise. */
  datatype PyError =
    | KeyError
    | IndexError
    | TypeError
    | ValueError
    | AttributeError      // a regular expression that did not match, used with `.group`
    | AssertionError
    | StopIteration       // `next()` on an exhausted file iterator
    | UnboundLocalError   // a variable read before any assignment
    | ServerNameError     // the plain `Exception` raised for an unknown server name
    | ZeroDivisionError   // a division by a zero rate

  datatype Result<+T> = Ok(value: T) | Err(error: PyError) {
    predicate IsFailure() { Err? }

    function PropagateFailure<U>(): Result<U>
      requires Err?
    {
      Err(error)
    }

    function Extract(): T
      requires Ok?
    {
      value
    }
  }
}
