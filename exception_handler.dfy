/**
 * The API exception handler: for request paths under `api/`, an exception
 * becomes a JSON response whose status code is chosen by an if/elseif chain
 * on the exception's class. Everything else is left to the framework.
 */
module ExceptionHandler {
  import opened Wrappers
  import Text

  /** The exception classes the chain distinguishes, each with its `getMessage()`. */
  datatype Exception =
    | AuthenticationException(message: string)
    | ValidationException(message: string, errors: map<string, seq<string>>)
    | NotFoundHttpException(message: string)
    /** Any other exception that has a `getStatusCode()` method (an HTTP exception). */
    | HttpException(statusCode: int, message: string)
    /** Thrown by route-model binding for an unknown id; it has no `getStatusCode()`. */
    | ModelNotFoundException(message: string)
    /** Any exception without a status code (database errors, PHP errors, ...). */
    | OtherException(message: string)

  function MessageOf(e: Exception): string
  {
    e.message
  }

  /** `method_exists($e, 'getStatusCode')`. */
  predicate HasStatusCode(e: Exception) { e.HttpException? || e.NotFoundHttpException? }

  datatype JsonResponse =
    | ErrorResponse(status: int, message: string, error: Option<string>)
    | ValidationResponse(status: int, message: string, errors: map<string, seq<string>>)

  /** `$request->is` with the pattern api/ followed by anything, on the decoded path (no leading slash). */
  predicate IsApiPath(path: string)
  {
    Text.StartsWith(path, "api/")
  }

  /** `handleApiException` as written. */
  function HandleApiException(e: Exception, debug: bool): (r: JsonResponse)
    ensures e.AuthenticationException? ==> r == ErrorResponse(401, "Unauthenticated", if debug then Some(e.message) else None)
    ensures e.ValidationException? ==> r == ValidationResponse(422, "Validation failed", e.errors)
    ensures e.NotFoundHttpException? ==> r.status == 404 && r.message == "Resource not found"
    ensures e.HttpException? ==> r.status == e.statusCode && r.message == e.message
    ensures e.ModelNotFoundException? || e.OtherException? ==> r.status == 500 && r.message == "Internal server error"
    ensures r.status == 500 ==> e.ModelNotFoundException? || e.OtherException? || (e.HttpException? && e.statusCode == 500)
    ensures !HasStatusCode(e) && !e.AuthenticationException? && !e.ValidationException? ==> r.status == 500
    ensures r.ErrorResponse? ==> r.error == (if debug then Some(MessageOf(e)) else None)
  {
    var detail := if debug then Some(MessageOf(e)) else None;
    match e
    case AuthenticationException(_) => ErrorResponse(401, "Unauthenticated", detail)
    case ValidationException(_, errors) => ValidationResponse(422, "Validation failed", errors)
    case NotFoundHttpException(_) => ErrorResponse(404, "Resource not found", detail)
    case HttpException(code, msg) => ErrorResponse(code, msg, detail)
    case _ => ErrorResponse(500, "Internal server error", detail)
  }

  /** `render`: only `api/...` paths get the JSON mapping; None is the framework's own rendering. */
  function Render(path: string, e: Exception, debug: bool): (r: Option<JsonResponse>)
    ensures r.Some? <==> IsApiPath(path)
    ensures r.Some? ==> r.value == HandleApiException(e, debug)
  {
    if IsApiPath(path) then Some(HandleApiException(e, debug)) else None
  }

  /** Without debug mode no response leaks an exception's message as its `error`. */
  lemma NoDetailWithoutDebug(e: Exception)
    ensures var r := HandleApiException(e, false); r.ErrorResponse? ==> r.error == None
  {
  }

  /**
   * A route-model binding miss reaches the mapping as a ModelNotFoundException,
   * which is neither a NotFoundHttpException nor carries a status code, so an
   * unknown donation or claim id is answered 500 "Internal server error".
   */
  lemma UnknownIdAnswers500(message: string, debug: bool)
    ensures HandleApiException(ModelNotFoundException(message), debug).status == 500
    ensures HandleApiException(ModelNotFoundException(message), debug).message == "Internal server error"
  {
  }

  /**
   * The conversion the framework's own rendering applies first: a missing
   * model becomes a not-found HTTP exception carrying the same message.
   */
  function Prepare(e: Exception): (p: Exception)
    ensures !p.ModelNotFoundException?
    ensures p.message == e.message
    ensures !e.ModelNotFoundException? ==> p == e
  {
    if e.ModelNotFoundException? then NotFoundHttpException(e.message) else e
  }

  /** The mapping with that conversion in front of the chain. */
  function HandleApiExceptionCorrected(e: Exception, debug: bool): (r: JsonResponse)
    ensures e.ModelNotFoundException? ==> r == ErrorResponse(404, "Resource not found", if debug then Some(e.message) else None)
    ensures !e.ModelNotFoundException? ==> r == HandleApiException(e, debug)
  {
    HandleApiException(Prepare(e), debug)
  }
}
