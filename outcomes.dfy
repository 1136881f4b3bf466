/** Success values and the Python exceptions the modelled code can raise. */
module Outcomes {

  datatype Option<+T> = None | Some(value: T)

  /** The exceptions the modelled functions raise, by Python class.
      `Exit(code)` is a call to `exit(code)`; `Unsupported` marks a behaviour
      of the interpreter this model does not describe (for instance `str()` of
      a list, or the iteration order of a non-empty dict). */
  datatype Error =
    | KeyError(key: string)
    | TypeError
    | AttributeError
    | AssertionError(message: string)
    | ValueError(message: string)
    | IndexError
    | Exit(code: int)
    | Unsupported(what: string)

  /** A value, or the exception raised while computing it. */
  datatype Result<+T> = Ok(value: T) | Err(error: Error) {

    predicate IsFailure() {
      Err?
    }

    function PropagateFailure<U>(): Result<U>
      requires Err?
    {
      Err(error)
    }

    function Extract(): T
      requires Ok?
    {
      value
    }
  }

  /** Appending is associative. Stated once, so that proofs about long
      accumulations can use it without re-deriving it element by element. */
  lemma ConcatAssoc<T>(x: seq<T>, y: seq<T>, z: seq<T>)
    ensures (x + y) + z == x + (y + z)
  {
  }
}
