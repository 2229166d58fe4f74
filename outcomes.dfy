/** Failure-carrying results used across the model.  Each `Error` names the
    Python exception (or the NaN result) that the corresponding source code
    raises (or yields) on that path. */
module Outcomes {

  datatype Error =
    | InvalidActivation   // ValueError('Invalid activation function.')
    | NotImplemented      // NotImplementedError (bprop on an output layer, unknown descent type)
    | MissingAttribute    // AttributeError (a cache read before it was written, input_grad on a hidden layer)
    | IndexOutOfRange     // IndexError
    | ShapeMismatch       // ValueError raised by numpy on incompatible shapes
    | EmptyReduction      // ValueError raised by max/argmax over an empty axis
    | ZeroDivision        // ZeroDivisionError
    | TypeMismatch        // TypeError (a None dimension used as a number)
    | NotANumber          // the source silently produces NaN (mean over nothing)

  datatype Option<+T> = None | Some(value: T)

  datatype Result<+T> = Ok(value: T) | Err(error: Error) {
    predicate IsFailure() { Err? }
    function PropagateFailure<U>(): Result<U>
      requires Err?
    {
      Err(error)
    }
    function Extract(): T
      requires Ok?
    {
      value
    }
  }

  /** The outcome of a procedure that returns nothing but may raise. */
  datatype Outcome = Pass | Fail(error: Error)
}
