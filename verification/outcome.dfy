/** Failure-carrying results for the regression engine.

    The engine itself never returns an error value: the tensor library it is
    built on throws.  Every such throw is modelled as an `Err` carrying the
    kind of shape problem that caused it, so that callers see the same
    inputs rejected that the library would reject.
 */
module Outcome {

  /** Why a tensor operation would refuse its input. */
  datatype Error =
    | EmptyInput     // a matrix with no rows (or, where noted, no columns)
    | Ragged         // rows of different lengths: not a rectangular tensor
    | ShapeMismatch  // two matrices whose dimensions do not fit together

  /** An optional value; `None` stands for "no value of the expected form". */
  datatype Option<+T> = None | Some(value: T)

  /** The value of a call that may fail. Usable with `:-`. */
  datatype Result<+T> = Ok(value: T) | Err(error: Error) {

    predicate IsFailure() {
      Err?
    }

    function PropagateFailure<U>(): Result<U>
      requires Err?
    {
      Err(error)
    }

    function Extract(): T
      requires Ok?
    {
      value
    }
  }
}
