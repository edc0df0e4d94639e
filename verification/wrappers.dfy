/** The two wrapper types the model uses in place of JavaScript's special
    values: a parse that can give NaN, and a callback that can throw. */
module Wrappers {

  /** `None` is NaN: the outcome of `Date.parse` or `parseFloat` on text they
      do not accept. */
  datatype Option<+T> = None | Some(value: T)

  /** `Failure` is a thrown error. The three members below let `:-` stop at
      the first throw, as the surrounding callback does. */
  datatype Result<+R, +E> = Success(value: R) | Failure(error: E) {

    predicate IsFailure() {
      Failure?
    }

    function PropagateFailure<U>(): Result<U, E>
      requires Failure?
    {
      Failure(error)
    }

    function Extract(): R
      requires Success?
    {
      value
    }
  }
}
