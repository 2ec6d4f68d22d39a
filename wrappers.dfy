/** Failure-compatible wrappers shared by every module of the model. */
module Wrappers {

  datatype Option<+T> = None | Some(value: T) {
    function GetOr(default: T): T {
      match this
      case Some(v) => v
      case None => default
    }
  }

  datatype Result<+R, +E> = Success(value: R) | Failure(error: E) {
    predicate IsFailure() { Failure? }

    function PropagateFailure<U>(): Result<U, E>
      requires Failure?
    {
      Failure(error)
    }

    function Extract(): R
      requires Success?
    {
      value
    }
  }

  datatype Outcome<+E> = Pass | Fail(error: E)
}

/** The exceptions the modelled Python and JavaScript code can raise. */
module Exceptions {

  datatype Exception =
    | IndexError                // Python: a list index out of range
    | ValueError                // Python: FieldFile without a file
    | IOError                   // Python: a storage read that cannot find its file
    | TransportError            // a remote storage write that raised
    | UnknownImageFormat        // PIL: no encoder for the requested format
    | SuperTypeError            // Python: super(T, obj) with obj not an instance of T
    | AttributeError            // Python: no class after T in the resolution order defines the attribute
    | ValidationError(message: string)
    | JsError(message: string)  // JavaScript: Error, TypeError or ReferenceError
}
