/**
 * The Spring and JVM vocabulary the adapters answer in: an HTTP status, a
 * `ResponseEntity<String>` whose body may be null, and exceptions that escape
 * a call instead of being turned into a response.
 */
module Http {
  import opened Wrappers

  datatype HttpStatus = Ok | BadRequest | Unauthorized | InternalServerError
  {
    /** The numeric status code sent on the wire. */
    function Code(): int
    {
      match this
      case Ok => 200
      case BadRequest => 400
      case Unauthorized => 401
      case InternalServerError => 500
    }
  }

  /** A response with a status and a possibly-null `String` body. */
  datatype ResponseEntity = ResponseEntity(status: HttpStatus, body: Option<string>)

  /** A thrown exception: its class name and its (nullable) `message`. */
  datatype Exception = Exception(className: string, message: Option<string>)

  /** How a call ends: it returns a value, or an exception escapes it. */
  datatype Completion<+T> = Normal(value: T) | Throws(error: Exception)
}
