/** The application's exception hierarchy, folded into values.
    Every service operation either succeeds or yields one `Error`; the
    message text of each exception is dropped, the field name of a
    bad request and the resource name of a missing entity are kept. */
module Errors {

  datatype Option<+T> = None | Some(value: T)

  /** BadRequestException, ResourceNotFoundException, ForbiddenException,
      UnauthorizedException. */
  datatype Error =
    | BadRequest(field: string)
    | NotFound(resource: string)
    | Forbidden
    | Unauthorized

  /** A call that returns a value or throws. */
  datatype Result<+T> = Ok(value: T) | Err(error: Error)

  /** A `void` call that returns normally or throws. */
  datatype Outcome = Pass | Fail(error: Error)

  /** The HTTP status each exception class carries. */
  function StatusCode(e: Error): (code: int)
    ensures 400 <= code < 500
    ensures code == 400 <==> e.BadRequest?
    ensures code == 404 <==> e.NotFound?
    ensures code == 403 <==> e.Forbidden?
    ensures code == 401 <==> e.Unauthorized?
  {
    match e
    case BadRequest(_) => 400
    case NotFound(_) => 404
    case Forbidden => 403
    case Unauthorized => 401
  }
}
