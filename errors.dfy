/** Python's `Optional` and the exceptions the core can raise, as values. */
module Errors {

  /** `Optional[T]`: `None` or a present value. */
  datatype Option<+T> = None | Some(value: T)

  /** The exceptions raised (and not caught) by the core. */
  datatype Error =
    | AssertionError        // an `assert isinstance(...)` / `assert hasattr(...)` failed
    | KeyError(key: string) // `del d[key]` on a key the dictionary does not hold
    | IndexError            // `[0]` of an empty list

  /** The outcome of a call that may raise: its value, or the exception it raised. */
  datatype Result<+T> = Ok(value: T) | Err(error: Error)
}
