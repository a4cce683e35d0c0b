/** Optional values, results, and the Python exception kinds the write-back engine raises. */
module Outcomes {

  datatype Option<+T> = None | Some(value: T) {
    function GetOr(default: T): T {
      match this
      case Some(v) => v
      case None => default
    }
  }

  /** The exception classes that can escape from the engine.  Only their kind matters to the
      callers (which ones are swallowed, which ones abort), so most carry no payload. */
  datatype Error =
    | KeyError(key: string)                   // missing dict key, or a config value that is null
    | TypeError                               // subscripting or assigning into a non-object
    | AttributeError                          // `.get` / `.items` on a value that is not a dict
    | IndexError                              // `split('/', 1)[1]` on a path without '/'
    | UnknownBaseDirectory(path: string)      // the ValueError raised by resolve_full_path
    | IntParseError(text: string)             // the ValueError raised by int(text)
    | FileNotFound(path: string)              // FileNotFoundError from open()
    | JsonDecodeError(path: string)           // json.JSONDecodeError, a ValueError subclass
  {
    /** True of the exceptions that are instances of Python's ValueError. */
    predicate IsValueError() {
      UnknownBaseDirectory? || IntParseError? || JsonDecodeError?
    }
  }

  datatype Result<+T> = Ok(value: T) | Err(error: Error) {
    predicate IsFailure() {
      Err?
    }

    function PropagateFailure<U>(): Result<U>
      requires Err?
    {
      Err(error)
    }

    function Extract(): T
      requires Ok?
    {
      value
    }
  }
}
