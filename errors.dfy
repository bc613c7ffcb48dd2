/** The client's error taxonomy: `You::Error` and its ten subclasses, one per
    HTTP status the client maps. */
module Errors {
  import opened Wrappers

  /** One constructor per exception class; `Generic` is plain `You::Error`,
      raised for a missing API key and for any status without a class of its own. */
  datatype ErrorKind =
    | Generic
    | BadRequestError
    | UnauthorizedError
    | ForbiddenError
    | NotFoundError
    | UnprocessableEntityError
    | RateLimitError
    | InternalServerError
    | BadGatewayError
    | ServiceUnavailableError
    | GatewayTimeoutError

  /** A raised exception: its class and its message. */
  datatype Error = Error(kind: ErrorKind, message: string)

  /** The status each subclass stands for, as the class list annotates it;
      the plain `You::Error` stands for none. */
  function DocumentedStatus(kind: ErrorKind): Option<nat> {
    match kind
    case Generic => None
    case BadRequestError => Some(400)
    case UnauthorizedError => Some(401)
    case ForbiddenError => Some(403)
    case NotFoundError => Some(404)
    case UnprocessableEntityError => Some(422)
    case RateLimitError => Some(429)
    case InternalServerError => Some(500)
    case BadGatewayError => Some(502)
    case ServiceUnavailableError => Some(503)
    case GatewayTimeoutError => Some(504)
  }

  /** True when some subclass stands for `status`. */
  predicate HasOwnKind(status: nat) {
    status in {400, 401, 403, 404, 422, 429, 500, 502, 503, 504}
  }

  /** No two classes share a status, and a status has a class of its own exactly
      when it is one of the ten listed. */
  lemma DocumentedStatusInjective(k1: ErrorKind, k2: ErrorKind)
    ensures DocumentedStatus(k1).Some? && DocumentedStatus(k1) == DocumentedStatus(k2) ==> k1 == k2
    ensures DocumentedStatus(k1).Some? <==> k1 != Generic
    ensures DocumentedStatus(k1).Some? ==> HasOwnKind(DocumentedStatus(k1).value)
  {
  }
}
