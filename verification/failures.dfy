/** The exceptions the modelled Python code raises, and the Option/Result
    wrappers every operation of the model returns. A Python method that may
    raise becomes a function returning `Result<T>`: `Ok` carries the value it
    returns, `Raise` names the exception it throws. */
module Failures {

  /** The Python exception classes that the modelled code raises. An `assert`
      statement that fails raises `AssertionError`; calling a method an
      object does not have raises `AttributeError`. */
  datatype Exception =
    | TypeError
    | KeyError
    | IndexError
    | ValueError
    | OverflowError
    | ZeroDivisionError
    | AssertionError
    | AttributeError

  datatype Option<+T> = None | Some(value: T)

  /** Either the value a Python call returns or the exception it raises;
      usable with `:-`. */
  datatype Result<+T> = Ok(value: T) | Raise(error: Exception) {

    predicate IsFailure() {
      Raise?
    }

    function PropagateFailure<U>(): Result<U>
      requires Raise?
    {
      Raise(error)
    }

    function Extract(): T
      requires Ok?
    {
      value
    }
  }

  /** The unit value a Python procedure returns (`None`). */
  datatype Unit = Unit
}
