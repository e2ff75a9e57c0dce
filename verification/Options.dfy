/** The results that Python spells None, a value or a raised exception. */
module Options {
  datatype Option<+T> = None | Some(value: T)

  datatype Error =
    | ValidationError
    | InsufficientMargin
    | ConstraintViolation
    | MissingAdapter

  datatype Result<+T> = Ok(value: T) | Raised(error: Error)
}
