/** The single error kind of the engine and the result type that carries it. */
module Results {

  /** Every failure of the core is an out-of-bounds request; the message text is not modelled. */
  datatype Error = OutOfBounds

  datatype Result<T> = Ok(value: T) | Err(error: Error)
}
