/** Shared vocabulary for the tutorial snippets: Python's `None`-or-value
    results, the exceptions the snippets raise, and a result that is either
    a value or a raised exception. */
module PyBase {

  /** `None` or a value, as returned by functions annotated `T | None`. */
  datatype Option<+T> = None | Some(value: T)

  /** The exceptions raised by the modelled snippets, with the message or
      code the snippet attaches to them. */
  datatype PyError =
    | ValueError(message: string)
    | PermissionError(message: string)
    | IndexError(message: string)
    | UnboundLocalError(name: string)
    | CustomError(message: string, code: int)

  /** Either the value a call returns or the exception it raises. When an
      operation on an object raises, the object keeps its previous state,
      because every modelled setter raises before it assigns. */
  datatype Result<+T> = Ok(value: T) | Raise(error: PyError)

  /** The length Python's `range(n)` has. */
  function RangeLength(n: int): nat
  {
    if n > 0 then n else 0
  }
}
