/** The retry policy the client hands to its retry middleware: a fixed options
    record and the `calculate_wait` hook that honours `Retry-After`. */
module Retry {
  import opened Wrappers
  import opened Requests
  import opened Errors
  import RubyText
  import Responses

  /** The middleware's options: the statuses and verbs it retries, how many
      retries, the first interval in seconds, the jitter fraction and the factor
      each interval grows by. */
  datatype Options = Options(
    retryStatuses: seq<nat>,
    methods: seq<Verb>,
    max: int,
    intervalRandomness: real,
    interval: real,
    backoffFactor: nat)

  /** The options record built for a client with the given retry settings. */
  function MiddlewareOptions(maxRetries: int, initialWaitTime: real): (o: Options)
    ensures o.retryStatuses == [429, 500, 502, 503, 504] && o.methods == [Get, Post]
    ensures o.max == maxRetries && o.interval == initialWaitTime
    ensures o.intervalRandomness == 0.5 && o.backoffFactor == 2
  {
    Options([429, 500, 502, 503, 504], [Get, Post], maxRetries, 0.5, initialWaitTime, 2)
  }

  /** `calculate_wait`: the `Retry-After` header read with `to_i` when the
      response carries one; `None` (the middleware's own backoff) otherwise. */
  function CalculateWait(retryAfter: Option<string>): (w: Option<int>)
    ensures w.Some? <==> retryAfter.Some?
    ensures retryAfter.Some? ==> w == Some(RubyText.ToI(retryAfter.value))
    ensures retryAfter.Some? && retryAfter.value != [] && RubyText.AllDigits(retryAfter.value) ==>
      w == Some(RubyText.Value(retryAfter.value))
  {
    match retryAfter
    case Some(v) =>
      if v != [] && RubyText.AllDigits(v) then RubyText.DigitsToI(v); Some(RubyText.ToI(v))
      else Some(RubyText.ToI(v))
    case None => None
  }

  /** The delay-seconds form of `Retry-After` (section 10.2.3 of RFC 9110):
      a header carrying `n` written in decimal makes the wait `n` seconds. */
  lemma WaitForDelaySeconds(n: nat)
    ensures CalculateWait(Some(RubyText.ToS(n))) == Some(n)
  {
    RubyText.ValueOfToS(n);
  }

  /** The HTTP-date form of `Retry-After` (it opens with a day name) reads as a
      wait of 0 seconds. */
  lemma WaitForHttpDate(v: string)
    requires v != [] && 'A' <= v[0] <= 'Z'
    ensures CalculateWait(Some(v)) == Some(0)
  {
    assert RubyText.SkipSpace(v) == v;
    RubyText.ToINoNumeral(v);
  }

  /** A header that opens with a number, whatever follows it, makes the wait
      that number of seconds ("120 s" waits 120). */
  lemma WaitForLeadingDigits(d: string, rest: string)
    requires d != [] && RubyText.AllDigits(d)
    requires rest == [] || !(RubyText.IsDigit(rest[0]) || rest[0] == '_')
    ensures CalculateWait(Some(d + rest)) == Some(RubyText.Value(d))
  {
    RubyText.ToILeadingDigits(d, rest);
  }

  /** A header with no number after its leading white space (empty, "soon",
      an HTTP-date) makes the wait 0 seconds. */
  lemma WaitWithoutNumber(v: string)
    requires RubyText.SkipSpace(v) == [] || !(RubyText.IsDigit(RubyText.SkipSpace(v)[0]) || RubyText.SkipSpace(v)[0] in "+-")
    ensures CalculateWait(Some(v)) == Some(0)
  {
    RubyText.ToINoNumeral(v);
  }

  /** The retried statuses are exactly those the client maps to the rate-limit
      error or to a server error class of its own, and for each of them the
      dispatch raises that class, never the plain one. */
  lemma RetryStatusesAreMappedErrors(maxRetries: int, initialWaitTime: real, status: nat, body: string, retryAfter: Option<string>)
    ensures status in MiddlewareOptions(maxRetries, initialWaitTime).retryStatuses <==>
      HasOwnKind(status) && (status == 429 || status >= 500)
    ensures status in MiddlewareOptions(maxRetries, initialWaitTime).retryStatuses ==>
      var r := Responses.Outcome(Responses.Response(status, body, retryAfter));
      r.Failure? && r.error.kind != Generic && DocumentedStatus(r.error.kind) == Some(status)
  {
  }
}
