/** `You::Client`: the API key and retry settings, resolved and stored when
    the client is built, and the response dispatch its request methods end in. */
module You {
  import opened Wrappers
  import opened Errors
  import RubyText
  import Responses
  import Retry

  /** The environment variable that supplies the key when none is passed. */
  const ApiKeyVariable := "YOU_API_KEY"
  const MissingKeyMessage := "No API key provided. Set YOU_API_KEY env or pass api_key."
  const DefaultMaxRetries := 3
  const DefaultInitialWaitTime := 1.0

  /** `api_key || ENV["YOU_API_KEY"]`, raising when both are nil. Only nil
      fails: an empty key is accepted. */
  function ResolveApiKey(apiKey: Option<string>, env: map<string, string>): (r: Result<string, Error>)
    ensures apiKey.Some? ==> r == Success(apiKey.value)
    ensures apiKey.None? && ApiKeyVariable in env ==> r == Success(env[ApiKeyVariable])
    ensures r.Failure? <==> apiKey.None? && ApiKeyVariable !in env
    ensures r.Failure? ==> r.error.kind == Generic && RubyText.Includes(r.error.message, "No API key provided")
  {
    match apiKey
    case Some(key) => Success(key)
    case None =>
      if ApiKeyVariable in env then Success(env[ApiKeyVariable])
      else
        assert "No API key provided" <= MissingKeyMessage[0..];
        Failure(Error(Generic, MissingKeyMessage))
  }

  class Client {
    var apiKey: string
    var maxRetries: int
    var initialWaitTime: real

    /** Stores a key that has already been resolved, and the retry settings. */
    constructor (apiKey: string, maxRetries: int, initialWaitTime: real)
      ensures this.apiKey == apiKey
      ensures this.maxRetries == maxRetries
      ensures this.initialWaitTime == initialWaitTime
    {
      this.apiKey := apiKey;
      this.maxRetries := maxRetries;
      this.initialWaitTime := initialWaitTime;
    }

    /** `Client.new`: resolves the key from the argument, then from the
        environment; raises when neither holds one, and otherwise returns a
        fresh client holding the key and the retry settings (3 retries and a
        first wait of 1 second unless given). */
    static method New(env: map<string, string>, apiKey: Option<string> := None,
                      maxRetries: int := DefaultMaxRetries,
                      initialWaitTime: real := DefaultInitialWaitTime)
      returns (r: Result<Client, Error>)
      ensures r.Failure? <==> apiKey.None? && ApiKeyVariable !in env
      ensures r.Failure? ==> r.error == Error(Generic, MissingKeyMessage)
      ensures r.Success? ==> fresh(r.value)
      ensures r.Success? ==> r.value.apiKey == (if apiKey.Some? then apiKey.value else env[ApiKeyVariable])
      ensures r.Success? ==> r.value.maxRetries == maxRetries && r.value.initialWaitTime == initialWaitTime
    {
      var key := ResolveApiKey(apiKey, env);
      match key
      case Failure(e) =>
        r := Failure(e);
      case Success(k) =>
        var c := new Client(k, maxRetries, initialWaitTime);
        r := Success(c);
    }

    /** The options record the client's connections give the retry middleware. */
    function RetryOptions(): (o: Retry.Options)
      reads this
      ensures o == Retry.Options([429, 500, 502, 503, 504], [Retry.Requests.Get, Retry.Requests.Post],
                                 maxRetries, 0.5, initialWaitTime, 2)
    {
      Retry.MiddlewareOptions(maxRetries, initialWaitTime)
    }

    /** `handle_response`: returns the body on 200 and raises the error the
        dispatch names otherwise; the 429 message is built and then extended
        in place when the response carries `Retry-After`. */
    method HandleResponse(response: Responses.Response) returns (outcome: Result<string, Error>)
      ensures outcome == Responses.Outcome(response)
    {
      var body := response.body;
      match response.status {
        case 200 => outcome := Success(body);
        case 400 => outcome := Failure(Error(BadRequestError, "Bad Request: " + body));
        case 401 => outcome := Failure(Error(UnauthorizedError, "Unauthorized: " + body));
        case 403 => outcome := Failure(Error(ForbiddenError, "Forbidden: " + body));
        case 404 => outcome := Failure(Error(NotFoundError, "Not Found: " + body));
        case 422 => outcome := Failure(Error(UnprocessableEntityError, "Unprocessable Entity: " + body));
        case 429 =>
          var retryAfter := response.retryAfter;
          var msg := "Rate Limit Reached: " + body;
          if retryAfter.Some? {
            msg := msg + " (Retry-After: " + retryAfter.value + ")";
          }
          outcome := Failure(Error(RateLimitError, msg));
        case 500 => outcome := Failure(Error(InternalServerError, "Internal Server Error: " + body));
        case 502 => outcome := Failure(Error(BadGatewayError, "Bad Gateway: " + body));
        case 503 => outcome := Failure(Error(ServiceUnavailableError, "Service Unavailable: " + body));
        case 504 => outcome := Failure(Error(GatewayTimeoutError, "Gateway Timeout: " + body));
        case _ =>
          outcome := Failure(Error(Generic, "Request failed with status " + RubyText.ToS(response.status) + ": " + body));
      }
    }
  }

  /** Building a client with no key anywhere raises the plain error whose
      message names the missing key; the stored key is the explicit one when
      both are set. */
  method ConstructionExamples(env: map<string, string>)
    requires ApiKeyVariable in env
  {
    var missing := Client.New(map[]);
    assert missing.Failure? && missing.error.kind == Generic;
    var explicit := Client.New(env, Some("key"));
    assert explicit.Success? && explicit.value.apiKey == "key";
    assert explicit.value.maxRetries == 3 && explicit.value.initialWaitTime == 1.0;
    var empty := Client.New(map[], Some(""));
    assert empty.Success?;
  }
}
