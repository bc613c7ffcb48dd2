# You API client: decision logic of `You::Client`

A Dafny model of the decision logic in `You::Client`, the Ruby client for the
You.com API. It covers five parts of the client:

- **Construction.** The API key comes from the explicit argument first, then
  from `YOU_API_KEY` in the environment. If neither holds one, construction
  raises. Otherwise the client stores the key and the retry settings.
- **Parameter assembly.** `smart` and `research` POST a payload with nil
  entries dropped. `search` and `news` GET with `query` merged with the extra
  keyword parameters, nil ones kept.
- **URL splitting.** `base_url` and `endpoint_path` split each endpoint URL
  into `scheme://host` and the path.
- **`handle_response`.** This dispatches on the status to the body or to one
  of the error classes, each with an exact message.
- **Retry policy.** The options record handed to the retry middleware, and
  the `calculate_wait` hook that reads `Retry-After`.

Modules, one per concern:

- `Wrappers` (wrappers.dfy): `Option` for a value that may be `nil`, and
  `Result` for a call that returns or raises.
- `RubyText` (ruby_text.dfy): `Integer#to_s` and `String#to_i`, the Ruby core
  behaviour the client relies on. It also holds `Includes`, the model of
  `String#include?`. The client never calls it; it states the "message
  includes" matches its tests make.
- `Errors` (errors.dfy): the exception classes of lib/you/error.rb as one
  datatype, with the status each class is annotated with.
- `Uri` (uri.dfy): Ruby's `URI()` for the shape `scheme://host/path`, and the
  split built on it.
- `Requests` (requests.dfy): the four endpoints' verb, URL and parameters.
- `Responses` (responses.dfy): the status dispatch as a function.
- `Retry` (retry.dfy): the options record and `calculate_wait`.
- `You` (client.dfy): the class `Client`. Its fields are set by construction
  and stay writable, as with Ruby's `attr_accessor`. It holds the
  key-resolving factory and the imperative `handle_response`, which extends
  the 429 message in place. That method is proved equal to the dispatch
  function.

Inputs the client takes from the outside world are parameters:

- The process environment is a `map<string, string>`.
- A response is a record of its status, its body and its optional
  `Retry-After` header.
- A parameter value is any value of a type parameter `V`, with `None` for
  `nil`.

Behaviour of the code worth noting:

- A missing key raises plain `You::Error` (`Generic`), not a separate
  configuration error.
- An empty-string key is accepted, because only `nil` fails.
- Only the POST payloads are compacted. `search` and `news` keep nil extras.
- Every status other than 200 raises, other 2xx codes included.

Status codes follow section 15 of RFC 9110. Status 429 comes from section 4
of RFC 6585. `Retry-After` is read in the delay-seconds form of section
10.2.3 of RFC 9110.

## Model

| member | source | states |
|---|---|---|
| `You.ResolveApiKey` | lib/you/client.rb:14-16 | An explicit key wins over `YOU_API_KEY`. Failure happens exactly when both are nil. The failure is the plain error, and its message includes "No API key provided". An empty key is accepted. |
| `You.Client.New` | lib/you/client.rb:13-20 | Raises the plain error with the exact missing-key message exactly when no key is found. Otherwise returns a fresh client holding the resolved key, `max_retries` and `initial_wait_time` as given (defaults 3 and 1). |
| `You.Client.constructor` | lib/you/client.rb:18-19 | The three fields hold the given key and retry settings. |
| `You.Client.RetryOptions` | lib/you/client.rb:55-61 | The whole options record: `retry_statuses` [429, 500, 502, 503, 504] in that order, `methods` [get, post], `max` the client's `max_retries`, `interval_randomness` 0.5, `interval` the client's `initial_wait_time`, `backoff_factor` 2. |
| `Retry.MiddlewareOptions` | lib/you/client.rb:55-61 | Field by field, the options hash for given retry settings: the five retried statuses in order, GET and POST, the given `max` and `interval`, jitter fraction 0.5 and backoff factor 2. |
| `You.Client.HandleResponse` | lib/you/client.rb:113-144 | The imperative dispatch, with the 429 message extended in place, returns exactly what `Responses.Outcome` specifies. |
| `Responses.Outcome` | lib/you/client.rb:115-143 | Returns the body unchanged if and only if the status is 200. Every other status gives one error. The class is the one annotated with that status when there is one, and plain `You::Error` if and only if none is. The message is "<Label>: <body>" with the label the tests list for the class. For 429 it also carries the Retry-After note. For the plain error it is "Request failed with status N: <body>". |
| `Responses.MessageIncludesBody` | lib/you/client.rb:118-142 | Every error message includes the response body verbatim. |
| `Responses.RateLimitMessage` | lib/you/client.rb:128-132 | 429 raises the rate-limit error. " (Retry-After: v)" is appended exactly when the header is present. |
| `Responses.GenericMessageStatus` | lib/you/client.rb:141-142 | The plain error's message starts with "Request failed with status ". The text after that reads back, with `to_i`, as the numeric status. |
| `Errors.DocumentedStatusInjective` | lib/you/error.rb:2-22 | Every subclass stands for one of the ten listed statuses and no two share one. The plain class stands for none. |
| `Requests.Compact` | lib/you/client.rb:24 | `Hash#compact` keeps exactly the non-nil entries, with unchanged values. |
| `Requests.Merge` | lib/you/client.rb:34 | `Hash#merge` has the keys of both, and the argument's value wins on a shared key. |
| `Requests.Smart` | lib/you/client.rb:23-25 | POST to `https://chat-api.you.com` at `/smart`. The payload's keys are exactly the non-nil ones among query, chat_id and instructions, with their values. |
| `Requests.Research` | lib/you/client.rb:28-30 | POST to `https://chat-api.you.com` at `/research`. The payload's keys are exactly the non-nil ones among query and chat_id, with their values. |
| `Requests.Search` | lib/you/client.rb:33-35 | GET from `https://api.ydc-index.io` at `/search`. The keys are exactly `query` plus the extras. `query` maps to the given query, and each extra keeps its value, nil included. |
| `Requests.News` | lib/you/client.rb:38-40 | GET from `https://api.ydc-index.io` at `/news`, with the same parameters as `search`. |
| `Requests.NilHandling` | lib/you/client.rb:24-39 | POST payloads never carry nil. A nil extra of `search` or `news` is kept. |
| `Requests.ChatEndpointSplit` | lib/you/client.rb:8 | Every modelled path on the chat host splits back into that host and that path. |
| `Requests.IndexEndpointSplit` | lib/you/client.rb:9 | Every modelled path on the search host splits back into that host and that path. |
| `Uri.SplitRoundTrip` | lib/you/client.rb:146-154 | For every URL of the modelled shape, `base_url(u) + endpoint_path(u) == u`. The base is `scheme://host`, and the host holds no `/`. |
| `Uri.SplitCompose` | lib/you/client.rb:146-154 | Splitting `scheme://host/path` gives `scheme://host` and `/path`. |
| `Uri.ParseCompose` | lib/you/client.rb:147-153 | Parsing a composed URL of the modelled shape gives back its scheme, host and path. |
| `Uri.Parse` | lib/you/client.rb:147-153 | Every URL that parses is of the modelled shape and is the composition of its scheme, host and path. |
| `Uri.BaseUrl` | lib/you/client.rb:146-149 | Defined exactly when the URL parses. The result is a prefix of the URL, `scheme://` followed by the host, with no `/` after the `://`. |
| `Uri.EndpointPath` | lib/you/client.rb:151-154 | Defined exactly when the URL parses. The result is a suffix of the URL and is empty or starts with `/`. |
| `Retry.CalculateWait` | lib/you/client.rb:69-76 | Gives a wait exactly when the response carries `Retry-After`, and that wait is the header read with `to_i`. A header of decimal digits gives the number they denote. |
| `Retry.WaitForLeadingDigits` | lib/you/client.rb:71-72 | A header that opens with digits gives the number they denote, whatever non-digit text follows ("120 s" gives 120). |
| `Retry.WaitWithoutNumber` | lib/you/client.rb:71-72 | A header with no digit or sign after its leading white space gives 0. This covers "", "soon" and an HTTP-date. |
| `Retry.WaitForDelaySeconds` | lib/you/client.rb:71-72 | A `Retry-After` of `n` in decimal makes the wait `n` seconds. |
| `Retry.WaitForHttpDate` | lib/you/client.rb:71-72 | A `Retry-After` in HTTP-date form, which opens with a day name, makes the wait 0. |
| `Retry.RetryStatusesAreMappedErrors` | lib/you/client.rb:55-61 | The retried statuses are exactly the rate-limit and server-error statuses that have a class of their own. The dispatch raises that class for each, never the plain one. |
| `RubyText.ToI` | lib/you/client.rb:72 | `String#to_i` gives a negative result only after a leading `-`. It gives a non-zero result only when a digit follows the leading white space and at most one sign. |
| `RubyText.ToILeadingDigits` | lib/you/client.rb:72 | Leading digits followed by text that starts with neither a digit nor `_` read as the number the digits denote. |
| `RubyText.ToS` | lib/you/client.rb:142 | `Integer#to_s` of the status is a non-empty decimal numeral without a leading zero. |
| `RubyText.ToIToS` | lib/you/client.rb:72 | `n.to_s.to_i == n` for every non-negative integer. |
| `RubyText.DigitsToI` | lib/you/client.rb:72 | A non-empty string of digits reads, with `to_i`, as the number it denotes. |
| `RubyText.ToINoNumeral` | lib/you/client.rb:72 | A string whose first visible character is neither a digit nor a sign reads as 0. |
| `RubyText.ToIPrefix` | lib/you/client.rb:142 | Text after a number that starts with neither a digit nor `_` does not change what `to_i` reads. |

## Left out

- Faraday connection building and HTTP dispatch (lib/you/client.rb:44-53, 79-80, 95-111). This covers JSON request/response middleware, the `X-API-Key` header and the adapter. The transport is a library outside this model. A response enters the model as the input of `HandleResponse`.
- Retry execution, exponential backoff timing, jitter, and the `retry_if` lambda (lib/you/client.rb:62-67). These take effect inside the faraday-retry middleware, which is not part of this model, and intervals and jitter are floating point and random. Only the options record and `calculate_wait` are modelled.
- `get_with_retries` and `post_with_retries` (lib/you/client.rb:84-93). They are dead code that calls a method the client does not define.
- Debug logging (lib/you/client.rb:50-52, 96, 105, 114, 156-164). It is output to a logger and has no effect on any result.
- lib/you.rb and lib/you/configuration.rb. They are a process-global memoized configuration and default client, with no decision logic.
- lib/you/compatibility.rb. It holds only constant aliases of the error classes.
- General URI parsing. `Uri.Parse` gives `None` for any URL outside `scheme://host/path` with a lower-case scheme. Ports, user information, queries, fragments and percent-escapes are not modelled. Upper-case letters in the host or the path are not modelled either (`https://example.com/V1` gives `None`). Neither are path characters other than lower-case letters, digits, `.`, `-`, `/`, `_` and `~` (so `: @ = + , ;` are excluded).
- JSON encoding and decoding. The body is opaque text. When the JSON middleware parses it, Ruby interpolates the parsed value's `to_s` into messages, and that rendering is not modelled.
- The key order of Ruby hashes, and so the order of the JSON payload and the query string, is not modelled. Parameters are maps.
- Header lookup is abstract. Faraday's case-insensitive header access is taken as given, and a response carries its `Retry-After` value or none.
- `RubyText.ToI`: does not model the `0d` radix prefix that `String#to_i` also accepts in base 10. It covers leading white space, one sign, and digits with single `_` separators.
- `You.Client.RetryOptions`: `max_retries` is an `int` and `initial_wait_time` a `real`. Ruby does not check either type.
