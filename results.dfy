/** Option and Result values used for the optional inputs and the thrown errors of the handlers. */
module Results {

  datatype Option<+T> = None | Some(value: T)

  /** `Err` carries the message of the JavaScript error that the source throws. */
  datatype Result<+T> = Ok(value: T) | Err(message: string)
}
