/** Failure-carrying wrappers shared by every module of the model. */
module Common {

  /** A value that may be absent, as Python's `None`. */
  datatype Option<+T> = None | Some(value: T)

  /** The Python exceptions the modelled code raises or lets escape. */
  datatype PyError =
    | ConnectionError   // raised on purpose by the Dobot clients when not connected
    | AttributeError    // an attribute looked up on `None`, or a method the object lacks
    | AssertionError    // a failed `assert` in the source
    | ValueError        // `int(...)` / `float(...)` on text that is not a number
    | TypeError         // argument binding failed (too many, unknown or missing arguments)
    | Timeout           // the transport produced no reply (its reply oracle is exhausted)
    | ZeroDivisionError // a division by zero

  /** The outcome of an operation that either returns a value or raises. */
  datatype Result<+T> = Ok(value: T) | Err(error: PyError)

  /** The value Python returns from a procedure (`None`), for results that carry nothing. */
  datatype Unit = Unit
}
