/**
  The outcome of a Python operation that may raise, and the exceptions the
  modelled code raises.
 */
module Errors {
  import opened FeatureKeys

  /** The exceptions the modelled code can raise, as Python names them. */
  datatype Error =
    | KeyError(key: string)       // KeyError on a dict keyed by strings (a decoded JSON object, keyword arguments, a record read by key name)
    | MissingKey(feature: FeatureKey) // KeyError on a record, for the feature key it lacks
    | IndexError
    | TypeError
    | ZeroDivisionError
    | NotImplementedError
    | AssertionError
    | JsonDecodeError
    | StateKeyError               // KeyError on one of a processor's own dicts

  /** The result of a step that either returns a value or raises. */
  datatype Result<+T> = Ok(value: T) | Err(error: Error) {
    predicate IsFailure() { Err? }

    function PropagateFailure<U>(): Result<U>
      requires Err?
    {
      Err(error)
    }

    function Extract(): T
      requires Ok?
    {
      value
    }
  }
}
