/** Optional values, the exceptions the library raises, and results that carry them. */
module Wrappers {

  datatype Option<+T> = None | Some(value: T)

  /** The exceptions raised by the callback registry and by the webhook parser.
      Python raises ValueError for both a bad arity and an unknown event type;
      they are kept apart here so that the order of the checks can be stated. */
  datatype Error =
    | ArityError
      // the event type that was asked for (None when an Event was never parsed)
      // and the registry's keys in their order, as the message lists them
    | UnknownEventType(callerType: Option<string>, available: seq<string>)
      // the TypeError `set_callback` raises itself for a non-callable handler
    | NotCallable
      // the TypeError `getfullargspec` raises for an object without a signature
    | UnsupportedCallable
    | KeyError(key: string)
      // subscripting a JSON value that is not an object with a string key
    | NotSubscriptable
      // next() on an exhausted iterator
    | StopIteration
  {
    /** The Python exception class that is raised. */
    function ExceptionName(): string
    {
      match this
      case ArityError => "ValueError"
      case UnknownEventType(_, _) => "ValueError"
      case NotCallable => "TypeError"
      case UnsupportedCallable => "TypeError"
      case KeyError(_) => "KeyError"
      case NotSubscriptable => "TypeError"
      case StopIteration => "StopIteration"
    }
  }

  /** The value a call returns, or the exception it raises. */
  datatype Result<+T> = Ok(value: T) | Err(error: Error)
  {
    predicate IsFailure() { Err? }

    function PropagateFailure<U>(): Result<U>
      requires Err?
    {
      Err(error)
    }

    function Extract(): T
      requires Ok?
    {
      value
    }
  }

  /** The outcome of a call that returns None. */
  datatype Outcome = Pass | Fail(error: Error)
}
