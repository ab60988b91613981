/** Python runtime notions the handler relies on: optional values, the
    exceptions it can raise, and a result that is either a value or a
    raised exception. */
module Runtime {

  datatype Option<T> = None | Some(value: T)

  /** The exceptions that can escape the modelled functions. */
  datatype Exception =
    | ValueError(msg: string)         // raised by the workflow checks
    | TypeError                       // os.path.isabs applied to a non-string
    | AttributeError                  // .get called on something that is not a dict
    | FileNotFoundError(path: string) // open() of a path that is not a file
    | JsonDecodeError                 // reading a file that is not UTF-8 JSON

  /** The exceptions Python classes as ValueError: the explicit ones, and
      json.JSONDecodeError and UnicodeDecodeError, which subclass it. */
  predicate IsValueError(e: Exception) {
    e.ValueError? || e.JsonDecodeError?
  }

  /** Either the value a Python function returned or the exception it raised. */
  datatype Result<T> = Ok(value: T) | Err(error: Exception)
}
