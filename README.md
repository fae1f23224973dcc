# Learnify API client: the retry-and-classify request loop

This project models, in Dafny, the data-access layer of the Learnify iOS app
(`APIService`). The app calls seven operations on the Learnify service:

- check in
- list students
- list a student's check-ins
- submit a review
- list reviews
- show the leaderboard
- list one student's reviews

Each operation does the same four things:

1. It builds a `URLRequest`: method, URL with optional query items, JSON
   headers, and an optional JSON body.
2. It sends the request at most three times.
3. It classifies each attempt's outcome:
   - A lost connection before the third attempt is retried, after sleeping
     `attempt` seconds.
   - A non-HTTP response throws `invalidResponse`.
   - A status outside 200–299 throws `serverError(status)`.
   - Any other transport error or a JSON decoding error is rethrown unchanged.
4. It unwraps the `{success, data, ...}` envelope into the operation's payload.

Modules, one per component:

- `Wrappers`: `Option` and `Result`.
- `Decimal`: how Swift renders an `Int` as text (`String(n)`, `"\(n)"`), and
  the parse that reads it back.
- `Records`: the `Codable` request, response and envelope structs, as
  datatypes.
- `ApiErrors`: `APIError` and its `errorDescription`.
- `Http`: `URLRequest`, `URLComponents`, the query-item construction, the
  transport's outcomes and the 2xx success class (section 15.3 of RFC 9110).
- `Executor`: the shared retry loop. The specification function `Run`
  gives the result, the number of sends and the delays of one call. The
  method `Execute` is the imperative `for attempt in 1...maxRetries` loop,
  proved equal to `Run`. Lemmas state the retry and classification rules.
- `ApiService`: the seven operations. Each is a method that builds its request
  and calls `Execute`. Its contract names the request it sends (`GetRequest`
  or `PostRequest` on the operation's URL) and states that its result, sends
  and delays are those of `Run` on that request, unwrapped to the
  operation's payload. For the two operations that take a `params`
  dictionary, the query is any listing of the dictionary's entries
  (`QueryFor`), because Swift does not fix a dictionary's order.

Environment, as parameters:

- The network is a transport function `(request, k) -> outcome`: the outcome
  of the k-th send.
- Sleeping is a ghost trace of delays, in nanoseconds as `Task.sleep` takes
  them.
- Foundation's URL parsing, `JSONEncoder` and `JSONDecoder` are the oracles
  of `ApiService.Foundation`. Decoding is partial: `None` when the decoder
  throws.

Behaviour of the code worth knowing:

- When all three attempts lose the connection, the third attempt's `URLError`
  is rethrown unchanged. It is not wrapped as a network error
  (`Executor.ExhaustedRethrowsLastError`). The post-loop
  `throw lastError ?? APIError.networkError(...)` can never be reached: the
  loop invariant of `Executor.Execute` proves that point dead.
- A body that fails to decode throws Foundation's own decoding error.
  `APIError.decodingError` is never thrown.
- A student id that Foundation cannot turn into a URL makes the force unwrap
  (`URL(string:)!`, `URLComponents(string:)!`) trap. The call does not throw
  `invalidURL`. That trap is a precondition of the operation here.
  `invalidURL` is thrown only when `URLComponents.url` gives nil.
- The envelope's `success` flag is never consulted. A 2xx body that decodes
  is returned whatever the flag says.

## Model

| member | source | states |
|---|---|---|
| `Decimal.IntToString` | Learnify/Learnify/APIService.swift:341-342 | `String(n)` is never empty, starts with `-` exactly for a negative `n`, is all digits otherwise (after the `-` too), and has no leading zero |
| `Decimal.IntToStringRoundTrip` | Learnify/Learnify/APIService.swift:340-343 | reading back the decimal text Swift writes for any `Int` (as in the leaderboard's `String(limit)`) gives that `Int` again |
| `Decimal.IntToStringInjective` | Learnify/Learnify/APIService.swift:591-592 | two integers with the same decimal text are equal |
| `ApiErrors.ErrorDescription` | Learnify/Learnify/APIService.swift:585-598 | definition: the five fixed texts of the `errorDescription` switch, with the status code rendered by `Decimal.IntToString` and the network message appended as is |
| `ApiErrors.ErrorDescriptionInjective` | Learnify/Learnify/APIService.swift:585-598 | two errors with the same description are the same error: the five cases never share a text, and within a case the code or the message is recovered |
| `ApiErrors.ServerErrorDescriptionCarriesCode` | Learnify/Learnify/APIService.swift:591-592 | the description of `serverError(code)` is the fixed prefix, the code's decimal text and a period, and the code can be read back from it |
| `ApiErrors.ServerErrorDescriptionsDiffer` | Learnify/Learnify/APIService.swift:591-592 | server errors with different status codes have different descriptions |
| `ApiErrors.NetworkErrorDescriptionCarriesMessage` | Learnify/Learnify/APIService.swift:595-596 | the description of `networkError(message)` ends with `message` |
| `Http.NewRequest` | Learnify/Learnify/APIService.swift:21 | definition: `URLRequest(url:)` is a GET on that URL with no header fields and no body |
| `Http.IsSuccessStatus` | Learnify/Learnify/APIService.swift:72 | definition: the success class is the status codes 200 to 299, as `(200...299).contains(statusCode)` |
| `Http.SetValue` | Learnify/Learnify/APIService.swift:23-24 | `setValue(_:forHTTPHeaderField:)` sets that one field to the value and leaves every other header, the method, the URL and the body as they were |
| `Http.QueryItems` | Learnify/Learnify/APIService.swift:280 | `params.map` yields one query item per dictionary entry (name and value as in the dictionary), no name twice and every entry present, in an unspecified order |
| `Executor.AttemptOnce` | Learnify/Learnify/APIService.swift:62-78 | one attempt succeeds exactly when the send gave an HTTP response with a 2xx status whose body decodes, and then yields the decoded envelope |
| `Executor.Backoff` | Learnify/Learnify/APIService.swift:84 | definition: the sleep after attempt k is k seconds, written in nanoseconds |
| `Executor.Retryable` | Learnify/Learnify/APIService.swift:80 | definition: an attempt is retried exactly when it threw `URLError.networkConnectionLost` and `attempt < maxRetries` |
| `Executor.Run` | Learnify/Learnify/APIService.swift:56-93 | a call makes between 1 and 3 sends, and before the send after attempt k it sleeps exactly k seconds |
| `Executor.Execute` | Learnify/Learnify/APIService.swift:56-94 | the imperative loop returns the result, number of sends and delays of `Run` from attempt 1; its invariant `attempt <= maxRetries` makes the post-loop `throw lastError ?? ...` unreachable (an `assert false` there verifies) |
| `Executor.RunStopsAtFirstNonRetryable` | Learnify/Learnify/APIService.swift:80-91 | every attempt before the last lost its connection with attempts to spare; the last attempt is not retryable, and its result is the call's result |
| `Executor.RunEndsAtFirstNonRetryable` | Learnify/Learnify/APIService.swift:59-91 | conversely, if the attempts before k are all retryable and attempt k is not, the call makes exactly k sends and returns or throws attempt k's result |
| `Executor.ServerErrorEndsCall` | Learnify/Learnify/APIService.swift:72-75 | a status outside 200–299 on attempt k ends the call on that attempt with `serverError(status)`, with no further send |
| `Executor.InvalidResponseEndsCall` | Learnify/Learnify/APIService.swift:64-67 | a response that is not HTTP ends the call on that attempt with `invalidResponse` |
| `Executor.DecodeFailureEndsCall` | Learnify/Learnify/APIService.swift:78-91 | a 2xx body that does not decode ends the call with the decoder's error, and is not retried even when attempts remain |
| `Executor.OtherTransportErrorEndsCall` | Learnify/Learnify/APIService.swift:86-91 | any transport error other than a lost connection is rethrown unchanged on that attempt |
| `Executor.SuccessEndsCall` | Learnify/Learnify/APIService.swift:72-78 | a decodable 2xx response on attempt k, after k-1 lost connections, returns the decoded envelope after k sends and delays of 1s, ..., (k-1)s (no retry when k = 1) |
| `Executor.ExhaustedRethrowsLastError` | Learnify/Learnify/APIService.swift:80-94 | three lost connections make 3 sends, sleep 1s then 2s, and throw the third attempt's `networkConnectionLost` error itself |
| `Executor.NeverFallsBack` | Learnify/Learnify/APIService.swift:64-94 | whatever the network does, the only `APIError`s a call throws are `invalidResponse` and `serverError`: never `networkError`, `decodingError` or `invalidURL` |
| `Executor.DelaysGrowLinearly` | Learnify/Learnify/APIService.swift:84 | the delays strictly increase, each fits in a `UInt64`, and they total (n-1)·n/2 seconds for n sends (1s + 2s before a third send) |
| `ApiService.GetRequest` | Learnify/Learnify/APIService.swift:107-109 | definition: the request of every GET operation, with only `Accept` set to JSON and no body |
| `ApiService.PostRequest` | Learnify/Learnify/APIService.swift:21-26 | definition: the request of both POST operations, with `Content-Type` and `Accept` set to JSON and the encoded body |
| `ApiService.Unwrap` | Learnify/Learnify/APIService.swift:143 | definition: an operation succeeds exactly when the call does, with the payload taken from the envelope; a failure is passed on unchanged |
| `ApiService.StudentsOf` | Learnify/Learnify/APIService.swift:143 | definition: the payload of `getAllStudents` is `data.students` |
| `ApiService.CheckInsOf` | Learnify/Learnify/APIService.swift:197 | definition: the payload of `getStudentCheckIns` is `data.check_ins` |
| `ApiService.ReviewsOf` | Learnify/Learnify/APIService.swift:322 | definition: the payload of `getAllReviews` is `data.reviews` |
| `ApiService.LeaderboardOf` | Learnify/Learnify/APIService.swift:384 | definition: the payload of `getLeaderboard` is `data.leaderboard` |
| `ApiService.LeaderboardQuery` | Learnify/Learnify/APIService.swift:340-343 | definition: the leaderboard's query items are `limit` then `offset`, each rendered with `String(_:)` |
| `ApiService.LeaderboardQueryRoundTrip` | Learnify/Learnify/APIService.swift:340-343 | the leaderboard query is exactly `limit` then `offset`, and their values read back as the integers passed |
| `ApiService.JsonHeaders` | Learnify/Learnify/APIService.swift:22-26 | every request sets `Accept` to JSON; a request carries a JSON `Content-Type` and a body exactly when it is a POST |
| `Records.LeaderboardEntry.Id` | Learnify/Learnify/APIService.swift:611 | definition: the `Identifiable` id of a leaderboard entry is its student id |
| `ApiService.CheckIn` | Learnify/Learnify/APIService.swift:19-95 | POST to /api/auto/check-in with Content-Type and Accept set to JSON and the encoded `{student_id, full_name}` body; the result, sends and delays are those of the retry loop on that request, with the whole envelope returned |
| `ApiService.GetAllStudents` | Learnify/Learnify/APIService.swift:105-156 | GET /api/auto/students with only the Accept header and no body; success returns `data.students`, and failures are passed on unchanged |
| `ApiService.GetStudentCheckIns` | Learnify/Learnify/APIService.swift:159-210 | GET /api/auto/check-ins/{id} with only the Accept header; success returns `data.check_ins`, and failures are passed on unchanged |
| `ApiService.SubmitReview` | Learnify/Learnify/APIService.swift:213-273 | POST to /api/reviews with both JSON headers and the encoded review body; the result is the retry loop's, with the whole envelope returned |
| `ApiService.GetAllReviews` | Learnify/Learnify/APIService.swift:276-335 | query items are present exactly when `params` is non-empty, and then list its entries; a URL that cannot be formed throws `invalidURL` with 0 sends; otherwise success returns `data.reviews` |
| `ApiService.GetLeaderboard` | Learnify/Learnify/APIService.swift:338-397 | the query is always `limit` and `offset` (the defaults 50 and 0 are the method's default arguments); `invalidURL` is thrown with 0 sends when the URL cannot be formed; otherwise success returns `data.leaderboard` |
| `ApiService.GetStudentReviews` | Learnify/Learnify/APIService.swift:400-459 | same query and `invalidURL` rules as `GetAllReviews`, on /api/reviews/{id}; otherwise the whole envelope of the retry loop is returned |

## Left out

- The `URLSession` and `URLSessionConfiguration` setup is not modelled:
  timeouts (30 s per request, 60 s per resource), cache policy,
  connections per host and the simulator/device branches. It is platform
  configuration. Its effect on what the network returns is part of the
  abstract transport.
- The session delegate's protocol-metrics logging and every `print`.
  They only show diagnostics.
- Real time. `Task.sleep` becomes a ghost delay in the trace. Swift task
  cancellation is left out too: `CancellationError` thrown by `Task.sleep`
  or by the send. It is async-runtime behaviour. `URLError.cancelled` is
  modelled, as an ordinary transport outcome that is not retried.
- The internals of `JSONEncoder` and `JSONDecoder`. Decoding is a partial
  oracle per envelope type. Encoding is total, because encoding a struct of
  strings cannot fail. So the `try` on the encoder in `checkIn` and
  `submitReview` never throws in the model. The model does not tell the
  decoder's error kinds apart: there is one `DecodingFailure`.
- How Foundation parses URLs and percent-encodes them. `URL(string:)` and
  `URLComponents(string:)` share one acceptance oracle. `URLComponents.url`
  has its own oracle. Header names are compared exactly, not
  case-insensitively.
- `ApiService.SubmitReview` encodes the review body once, before the loop.
  APIService.swift encodes it again and reassigns `httpBody` at the start of
  every attempt. The encoder is a function of the unchanged `ReviewRequest`,
  so every attempt sends the same bytes either way. The model does not
  capture the repeated assignment.
- The `static let shared` singleton and the private initializer. They are
  process-wide plumbing.
- Swift's 64-bit `Int`: status codes, `limit`, `offset` and record fields
  are unbounded integers. Nothing here does arithmetic on them except
  rendering them as text.
- `URLError` codes other than the five named ones are lumped into
  `OtherCode`. The model does not map them to their raw values.
- `ApiErrors.ErrorDescription` has no contract of its own. Its properties
  are the lemmas beside it: the status code and the message can be read
  back, and different errors have different descriptions.
- The login screen of the web front end
  (frontend/src/components/LoginScreen.tsx). It is a UI component, and its
  one input check is tangled with rendering state.
