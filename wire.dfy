/** The failures a signing request can end in (`trezor.wire`), and the
    shapes that carry them back to the host. */
module Wire {

  datatype Error =
    | ProcessError(message: string)
    | DataError(message: string)
    | ActionCancelled

  /** A step that either finishes normally or raises one of the errors. */
  datatype Outcome = Pass | Fail(error: Error)

  /** A step that either returns a value or raises one of the errors. */
  datatype Result<T> = Ok(value: T) | Err(error: Error)
}
