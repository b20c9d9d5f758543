/** The two exceptions the library throws, and a result type that carries them
    instead of unwinding the stack. */
module Failures {

  /** `sig::not_comparable_exception` and `opt::bad_optional_access`. */
  datatype Error = NotComparable | BadOptionalAccess

  /** A value, or the exception that was thrown instead of producing it. */
  datatype Result<T> = Ok(value: T) | Err(error: Error)
}
