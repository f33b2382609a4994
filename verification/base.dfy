/** Failure-aware wrappers shared by the whole model. */
module Base {

  /** A value that may be missing: an absent dictionary key, an unset phrase slot. */
  datatype Option<+T> = None | Some(value: T)

  /** The outcome of a call that can raise: `Err` stands for the Python exception. */
  datatype Result<+T, +E> = Ok(value: T) | Err(error: E)
}
