/** Optional values. */
module Wrappers {

  datatype Option<+T> = None | Some(value: T)
}

/** The three error kinds both clients raise, and the outcome of a call. */
module Results {
  import opened Json

  /** The exception kinds of both SDKs, without their IOError/ValueError base classes. */
  datatype ErrorKind =
    | AuthError    // AuthErrorException: authentication failed
    | BadRequest   // BadRequestException: the request parameters do not validate
    | Generic      // ETGException / OstrovokException: every other failure

  /** An exception raised by an envelope: its kind and the value it was constructed with. */
  datatype ApiError = ApiError(kind: ErrorKind, message: Json)

  /**
   * What a Python call ends in: it returns a value, it raises one of the SDK's own exceptions,
   * or the Python code itself fails (KeyError, TypeError, AttributeError, IndexError) on a value
   * of an unexpected shape.
   */
  datatype Outcome<+T, +E> = Done(value: T) | Raised(error: E) | Fault
}
