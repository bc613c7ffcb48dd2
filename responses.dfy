/** `handle_response`: the dispatch from a response's status to the body it
    returns or the exception it raises. */
module Responses {
  import opened Wrappers
  import opened Errors
  import RubyText

  /** What the dispatch reads of a response: the status, the body (opaque text)
      and the `Retry-After` header when the response carries one. */
  datatype Response = Response(status: nat, body: string, retryAfter: Option<string>)

  /** The message each error class opens with, as the client's tests list them. */
  function Label(kind: ErrorKind): string
    requires kind != Generic
  {
    match kind
    case BadRequestError => "Bad Request"
    case UnauthorizedError => "Unauthorized"
    case ForbiddenError => "Forbidden"
    case NotFoundError => "Not Found"
    case UnprocessableEntityError => "Unprocessable Entity"
    case RateLimitError => "Rate Limit Reached"
    case InternalServerError => "Internal Server Error"
    case BadGatewayError => "Bad Gateway"
    case ServiceUnavailableError => "Service Unavailable"
    case GatewayTimeoutError => "Gateway Timeout"
  }

  /** What a 429 message adds when the response carries `Retry-After`. */
  function RetryAfterNote(retryAfter: Option<string>): string {
    match retryAfter
    case Some(v) => " (Retry-After: " + v + ")"
    case None => ""
  }

  /** The message of the plain `You::Error` for a status without a class of its own. */
  function GenericMessage(status: nat, body: string): string {
    "Request failed with status " + RubyText.ToS(status) + ": " + body
  }

  /** The `case` over the status: 200 returns the body unchanged; every other
      status raises exactly one error, of the class that stands for that status
      when there is one and of the plain class otherwise. */
  function Outcome(response: Response): (r: Result<string, Error>)
    ensures r.Success? <==> response.status == 200
    ensures r.Success? ==> r.value == response.body
    ensures r.Failure? ==> (r.error.kind == Generic <==> !HasOwnKind(response.status))
    ensures r.Failure? && r.error.kind != Generic ==> DocumentedStatus(r.error.kind) == Some(response.status)
    ensures r.Failure? && r.error.kind !in {Generic, RateLimitError} ==>
      r.error.message == Label(r.error.kind) + ": " + response.body
    ensures r.Failure? && r.error.kind == RateLimitError ==>
      r.error.message == Label(RateLimitError) + ": " + response.body + RetryAfterNote(response.retryAfter)
    ensures r.Failure? && r.error.kind == Generic ==>
      r.error.message == GenericMessage(response.status, response.body)
  {
    var body := response.body;
    match response.status
    case 200 => Success(body)
    case 400 => Failure(Error(BadRequestError, "Bad Request: " + body))
    case 401 => Failure(Error(UnauthorizedError, "Unauthorized: " + body))
    case 403 => Failure(Error(ForbiddenError, "Forbidden: " + body))
    case 404 => Failure(Error(NotFoundError, "Not Found: " + body))
    case 422 => Failure(Error(UnprocessableEntityError, "Unprocessable Entity: " + body))
    case 429 =>
      var msg := "Rate Limit Reached: " + body;
      Failure(Error(RateLimitError, if response.retryAfter.Some? then msg + " (Retry-After: " + response.retryAfter.value + ")" else msg))
    case 500 => Failure(Error(InternalServerError, "Internal Server Error: " + body))
    case 502 => Failure(Error(BadGatewayError, "Bad Gateway: " + body))
    case 503 => Failure(Error(ServiceUnavailableError, "Service Unavailable: " + body))
    case 504 => Failure(Error(GatewayTimeoutError, "Gateway Timeout: " + body))
    case _ => Failure(Error(Generic, "Request failed with status " + RubyText.ToS(response.status) + ": " + body))
  }

  /** Every error message carries the response body verbatim. */
  lemma MessageIncludesBody(response: Response)
    requires Outcome(response).Failure?
    ensures RubyText.Includes(Outcome(response).error.message, response.body)
  {
    var r := Outcome(response);
    var m := r.error.message;
    var body := response.body;
    var head := if r.error.kind == Generic then "Request failed with status " + RubyText.ToS(response.status) + ": "
                else Label(r.error.kind) + ": ";
    var tail := if r.error.kind == RateLimitError then RetryAfterNote(response.retryAfter) else "";
    assert m == head + body + tail;
    assert m[|head|..] == body + tail;
  }

  /** A 429 raises the rate-limit error, and its message gains the
      `Retry-After` note exactly when the response carries the header. */
  lemma RateLimitMessage(response: Response)
    requires response.status == 429
    ensures Outcome(response).Failure? && Outcome(response).error.kind == RateLimitError
    ensures response.retryAfter.None? <==> Outcome(response).error.message == "Rate Limit Reached: " + response.body
    ensures response.retryAfter.Some? ==>
      Outcome(response).error.message == "Rate Limit Reached: " + response.body + " (Retry-After: " + response.retryAfter.value + ")"
  {
    var m := Outcome(response).error.message;
    if response.retryAfter.Some? {
      assert |m| > |"Rate Limit Reached: " + response.body|;
    }
  }

  /** The status of a generic error can be read back from its message: the text
      after "Request failed with status " reads, with `to_i`, as the status. */
  lemma GenericMessageStatus(response: Response)
    requires Outcome(response).Failure? && Outcome(response).error.kind == Generic
    ensures |Outcome(response).error.message| >= 27
    ensures Outcome(response).error.message[..27] == "Request failed with status "
    ensures RubyText.ToI(Outcome(response).error.message[27..]) == response.status
  {
    var m := Outcome(response).error.message;
    var rest := ": " + response.body;
    assert m == "Request failed with status " + (RubyText.ToS(response.status) + rest);
    assert m[27..] == RubyText.ToS(response.status) + rest;
    RubyText.ToIPrefix(response.status, rest);
  }
}
