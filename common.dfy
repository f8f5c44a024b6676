/** Types shared by every component of the battle backend. */
module Common {

  /** Users and battles are identified by opaque strings (UUIDs in practice). */
  type UserId = string
  type BattleId = string

  datatype Option<+T> = None | Some(value: T)

  /** An HTTP error as raised by a handler: status code and detail message. */
  datatype HttpError = HttpError(status: int, detail: string)

  /** What a handler hands back: a success payload, or the error it raised. */
  datatype Outcome = Pass | Fail(error: HttpError)

  /** What a request validator hands back: the cleaned value, or its error message. */
  datatype Result<+T> = Ok(value: T) | Err(message: string)

  /** Timestamps are whole seconds. */
  const MINUTE: int := 60
  const HOUR: int := 60 * MINUTE
}
