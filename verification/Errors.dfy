/** The LXD exception hierarchy and its translation to HTTP status codes. */
module Errors {

  /** The exception classes; `Base` is `LXDError` itself. */
  datatype ErrorClass =
    | Base | Connection | Request | BadRequest | Auth | NotFound | Conflict | Operation

  /** A raised exception. `status` is 0 when LXD was never reached. */
  datatype LxdError = LxdError(kind: ErrorClass, status: int)

  /** `lxd_error_for_status`: the most specific class for a status code. */
  function ErrorForStatus(status: int): LxdError {
    if status == 400 then LxdError(BadRequest, status)
    else if status == 401 || status == 403 then LxdError(Auth, status)
    else if status == 404 then LxdError(NotFound, status)
    else if status == 409 then LxdError(Conflict, status)
    else LxdError(Request, status)
  }

  /** `_lxd_err_to_http`: table lookup by class name, else `status_code or 500`. */
  function HttpStatus(error: LxdError): int {
    match error.kind
    case BadRequest => 400
    case Auth => 403
    case NotFound => 404
    case Conflict => 409
    case Connection => 503
    case _ => if error.status != 0 then error.status else 500
  }

  /** Each class is raised for its own statuses only, the rest are plain request errors, and the status is kept. */
  lemma ClassifiedExactly(status: int)
    ensures var error := ErrorForStatus(status);
            && error.status == status
            && (error.kind == BadRequest <==> status == 400)
            && (error.kind == Auth <==> status in {401, 403})
            && (error.kind == NotFound <==> status == 404)
            && (error.kind == Conflict <==> status == 409)
            && (error.kind == Request <==> status !in {400, 401, 403, 404, 409})
  {
  }
}
