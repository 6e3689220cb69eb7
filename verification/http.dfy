/** HTTP replies of the controllers and the GlobalExceptionHandler, which
    turns an exception that escaped a controller into a ProblemDetails
    response. */
module Http {
  import opened Common

  const Status200OK: int := 200
  const Status201Created: int := 201
  const Status204NoContent: int := 204
  const Status400BadRequest: int := 400
  const Status401Unauthorized: int := 401
  const Status404NotFound: int := 404
  const Status409Conflict: int := 409
  const Status500InternalServerError: int := 500

  /** What an action returns: a status with a payload, or a status with a message. */
  datatype Reply<+T> =
    | Success(status: int, value: T)
    | Failure(status: int, message: string)

  /** The body the handler writes. */
  datatype ProblemDetails = ProblemDetails(status: int, title: string, detail: string, instance: string)

  /** The status the handler chooses for an exception. */
  function StatusFor(ex: ExceptionKind): (r: int)
    ensures r == Status400BadRequest <==> IsArgumentException(ex) || ex.ValidationException?
    ensures r == Status404NotFound <==> ex.KeyNotFoundException?
    ensures r == Status401Unauthorized <==> ex.UnauthorizedAccessException?
    ensures r == Status500InternalServerError <==> ex.OtherException?
  {
    if IsArgumentException(ex) || ex.ValidationException? then Status400BadRequest
    else if ex.KeyNotFoundException? then Status404NotFound
    else if ex.UnauthorizedAccessException? then Status401Unauthorized
    else Status500InternalServerError
  }

  /** The title the handler chooses for an exception. */
  function TitleFor(ex: ExceptionKind): (r: string)
    ensures r == "Validation Error" <==> StatusFor(ex) == Status400BadRequest
    ensures r == "Resource Not Found" <==> StatusFor(ex) == Status404NotFound
    ensures r == "Unauthorized" <==> StatusFor(ex) == Status401Unauthorized
    ensures r == "An unexpected error occurred" <==> StatusFor(ex) == Status500InternalServerError
  {
    match StatusFor(ex)
    case 400 => "Validation Error"
    case 404 => "Resource Not Found"
    case 401 => "Unauthorized"
    case _ => "An unexpected error occurred"
  }

  /** The response of the current request, as far as the handler writes it. */
  class HttpResponse {
    var statusCode: int
    var body: Option<ProblemDetails>

    constructor ()
      ensures statusCode == Status200OK && body == None
    {
      statusCode, body := Status200OK, None;
    }
  }

  /** TryHandleAsync: starts from a 500 problem, overwrites status and title
      by the exception's kind, copies the status to the response and writes
      the problem as its body. `message` and `path` stand for
      `exception.Message` and the request path. */
  method TryHandle(response: HttpResponse, ex: ExceptionKind, message: string, path: string) returns (handled: bool)
    modifies response
    ensures handled
    ensures response.statusCode == StatusFor(ex)
    ensures response.body == Some(ProblemDetails(StatusFor(ex), TitleFor(ex), message, path))
  {
    var problem := ProblemDetails(Status500InternalServerError, "An unexpected error occurred", message, path);
    if IsArgumentException(ex) || ex.ValidationException? {
      problem := problem.(status := Status400BadRequest, title := "Validation Error");
    } else if ex.KeyNotFoundException? {
      problem := problem.(status := Status404NotFound, title := "Resource Not Found");
    } else if ex.UnauthorizedAccessException? {
      problem := problem.(status := Status401Unauthorized, title := "Unauthorized");
    }
    response.statusCode := problem.status;
    response.body := Some(problem);
    return true;
  }
}
