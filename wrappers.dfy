/** Python's `None`-or-value results, and the exceptions that the modelled code lets escape. */
module Wrappers {

  datatype Option<+T> = None | Some(value: T)

  /** The Python exception classes that can escape from the modelled code. */
  datatype Exc =
    | IOError          // a file that cannot be opened, read or written
    | OSError          // `os.makedirs` where a file is in the way
    | UnpicklingError  // a truncated or malformed pickle
    | AttributeError   // a method looked up on `None`
    | TypeError        // e.g. `dict.update(None)`, `len(False)`
    | IndexError       // a list index out of range
    | ValueError       // `list.remove` of a missing element
    | RaisedException  // an explicit `raise Exception(...)`
    | SystemExit(code: int)  // `sys.exit(code)`

  /** A call that either returns a value or raises. */
  datatype Result<+T> = Ok(value: T) | Raises(exc: Exc)
}
