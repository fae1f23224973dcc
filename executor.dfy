/** The retry-and-classify loop that every operation of APIService.swift
    repeats: at most three sends, only a lost connection is retried, and
    the k-th retry waits k seconds. `Run` specifies one call; `Execute` is
    the loop, proved equal to it. Sleeps are recorded as a ghost trace of
    delays in nanoseconds. */
module Executor {
  import opened Wrappers
  import opened Http
  import opened ApiErrors

  /** `let maxRetries = 3`. */
  const MaxRetries: nat := 3

  const NanosPerSecond: nat := 1_000_000_000

  /** What an operation can throw: an `APIError`, the transport's `URLError`
      or the `DecodingError` of `JSONDecoder`, each passed on unchanged. */
  datatype Thrown = ApiFailure(api: APIError) | TransportFailure(code: URLErrorCode) | DecodingFailure

  /** One call: its result, how many sends it made and the delays slept
      between them. */
  datatype Execution<T> = Execution(result: Result<T, Thrown>, sends: nat, delays: seq<nat>)

  /** `Task.sleep(nanoseconds: UInt64(attempt) * 1_000_000_000)`. */
  function Backoff(attempt: nat): nat {
    attempt * NanosPerSecond
  }

  /** The `do` block of one attempt, given what the send gave back: a
      non-HTTP response is `invalidResponse`, a status outside 2xx is
      `serverError(status)`, a 2xx body is decoded or the decoder throws. */
  function AttemptOnce<E>(outcome: SendOutcome, decode: Bytes -> Option<E>): (r: Result<E, Thrown>)
    ensures r.Success? <==>
      outcome.Received? && outcome.response.HttpResponse? &&
      IsSuccessStatus(outcome.response.statusCode) && decode(outcome.data).Some?
    ensures r.Success? ==> Some(r.value) == decode(outcome.data)
  {
    match outcome
    case Failed(code) => Failure(TransportFailure(code))
    case Received(data, OtherResponse) => Failure(ApiFailure(InvalidResponse))
    case Received(data, HttpResponse(status)) =>
      if !IsSuccessStatus(status) then Failure(ApiFailure(ServerError(status)))
      else match decode(data)
        case None => Failure(DecodingFailure)
        case Some(envelope) => Success(envelope)
  }

  /** The first `catch`: a `URLError` with code `networkConnectionLost`,
      and only while `attempt < maxRetries`. */
  predicate Retryable<E>(r: Result<E, Thrown>, attempt: nat) {
    r.Failure? && r.error == TransportFailure(NetworkConnectionLost) && attempt < MaxRetries
  }

  /** The call from attempt `attempt` on. */
  function Run<E>(request: Request, net: Transport, decode: Bytes -> Option<E>, attempt: nat): (x: Execution<E>)
    requires 1 <= attempt <= MaxRetries
    ensures attempt <= x.sends <= MaxRetries
    ensures |x.delays| == x.sends - attempt
    ensures forall i :: 0 <= i < |x.delays| ==> x.delays[i] == Backoff(attempt + i)
    decreases MaxRetries - attempt
  {
    var r := AttemptOnce(net(request, attempt), decode);
    if Retryable(r, attempt) then
      var rest := Run(request, net, decode, attempt + 1);
      Execution(rest.result, rest.sends, [Backoff(attempt)] + rest.delays)
    else
      Execution(r, attempt, [])
  }

  /** The loop of every operation: `for attempt in 1...maxRetries`, with the
      catch clauses deciding between retrying and rethrowing; `fallback` is
      the operation's message for the post-loop `networkError`. */
  method Execute<E(==)>(request: Request, net: Transport, decode: Bytes -> Option<E>, fallback: string)
    returns (r: Result<E, Thrown>, ghost sends: nat, ghost delays: seq<nat>)
    ensures r == Run(request, net, decode, 1).result
    ensures sends == Run(request, net, decode, 1).sends && delays == Run(request, net, decode, 1).delays
  {
    var lastError: Option<URLErrorCode> := None;
    sends, delays := 0, [];
    for attempt := 1 to MaxRetries + 1
      invariant attempt <= MaxRetries
      invariant sends == attempt - 1 && |delays| == attempt - 1
      invariant attempt > 1 ==> lastError == Some(NetworkConnectionLost)
      invariant var rest := Run(request, net, decode, attempt);
        Run(request, net, decode, 1) == Execution(rest.result, rest.sends, delays + rest.delays)
    {
      var outcome := net(request, attempt);
      sends := sends + 1;
      var attemptResult := AttemptOnce(outcome, decode);
      ghost var here := Run(request, net, decode, attempt);
      if attemptResult.Failure? && attemptResult.error == TransportFailure(NetworkConnectionLost) && attempt < MaxRetries {
        ghost var rest := Run(request, net, decode, attempt + 1);
        assert here == Execution(rest.result, rest.sends, [Backoff(attempt)] + rest.delays);
        assert delays + here.delays == (delays + [Backoff(attempt)]) + rest.delays;
        lastError := Some(NetworkConnectionLost);
        delays := delays + [Backoff(attempt)];
        continue;
      }
      assert here == Execution(attemptResult, attempt, []);
      assert delays + here.delays == delays;
      return attemptResult, sends, delays;
    }
    // `throw lastError ?? APIError.networkError(...)`: never reached, since the
    // third attempt cannot take the retrying `catch`, so the loop always ends
    // by returning or rethrowing inside it.
    assert false;
    r := Failure(match lastError
      case Some(code) => TransportFailure(code)
      case None => ApiFailure(NetworkError(fallback)));
  }

  /** Every attempt before the last one lost its connection with retries
      left; the last attempt's `do` block decides the call. */
  lemma {:induction false} RunStopsAtFirstNonRetryable<E>(request: Request, net: Transport, decode: Bytes -> Option<E>, attempt: nat)
    requires 1 <= attempt <= MaxRetries
    ensures var x := Run(request, net, decode, attempt);
      && x.result == AttemptOnce(net(request, x.sends), decode)
      && !Retryable(x.result, x.sends)
      && forall k :: attempt <= k < x.sends ==> Retryable(AttemptOnce(net(request, k), decode), k)
    decreases MaxRetries - attempt
  {
    if Retryable(AttemptOnce(net(request, attempt), decode), attempt) {
      RunStopsAtFirstNonRetryable(request, net, decode, attempt + 1);
    }
  }

  /** Conversely, if attempts before `k` are retried and attempt `k` is not,
      the call makes exactly `k` sends and ends with attempt `k`'s result. */
  lemma {:induction false} RunEndsAtFirstNonRetryable<E>(request: Request, net: Transport, decode: Bytes -> Option<E>, attempt: nat, k: nat)
    requires 1 <= attempt <= k <= MaxRetries
    requires forall j :: attempt <= j < k ==> Retryable(AttemptOnce(net(request, j), decode), j)
    requires !Retryable(AttemptOnce(net(request, k), decode), k)
    ensures var x := Run(request, net, decode, attempt);
      x.sends == k && x.result == AttemptOnce(net(request, k), decode)
    decreases k - attempt
  {
    if attempt < k {
      RunEndsAtFirstNonRetryable(request, net, decode, attempt + 1, k);
    }
  }

  /** Attempts `1 .. k-1` all lost their connection. */
  ghost predicate LostBefore(request: Request, net: Transport, k: nat) {
    forall j :: 1 <= j < k ==> net(request, j) == Failed(NetworkConnectionLost)
  }

  lemma LostBeforeIsRetried<E>(request: Request, net: Transport, decode: Bytes -> Option<E>, k: nat)
    requires k <= MaxRetries && LostBefore(request, net, k)
    ensures forall j :: 1 <= j < k ==> Retryable(AttemptOnce(net(request, j), decode), j)
  {
  }

  /** A status outside 2xx ends the call on that attempt with
      `serverError(status)`: it is never retried. */
  lemma ServerErrorEndsCall<E>(request: Request, net: Transport, decode: Bytes -> Option<E>, k: nat)
    requires 1 <= k <= MaxRetries && LostBefore(request, net, k)
    requires net(request, k).Received? && net(request, k).response.HttpResponse?
    requires !IsSuccessStatus(net(request, k).response.statusCode)
    ensures var x := Run(request, net, decode, 1);
      x.sends == k && x.result == Failure(ApiFailure(ServerError(net(request, k).response.statusCode)))
  {
    LostBeforeIsRetried(request, net, decode, k);
    RunEndsAtFirstNonRetryable(request, net, decode, 1, k);
  }

  /** A response that is not an HTTP response ends the call with
      `invalidResponse`. */
  lemma InvalidResponseEndsCall<E>(request: Request, net: Transport, decode: Bytes -> Option<E>, k: nat)
    requires 1 <= k <= MaxRetries && LostBefore(request, net, k)
    requires net(request, k).Received? && net(request, k).response.OtherResponse?
    ensures var x := Run(request, net, decode, 1);
      x.sends == k && x.result == Failure(ApiFailure(InvalidResponse))
  {
    LostBeforeIsRetried(request, net, decode, k);
    RunEndsAtFirstNonRetryable(request, net, decode, 1, k);
  }

  /** A 2xx body that does not decode ends the call with the decoder's
      error, even when attempts remain. */
  lemma DecodeFailureEndsCall<E>(request: Request, net: Transport, decode: Bytes -> Option<E>, k: nat)
    requires 1 <= k <= MaxRetries && LostBefore(request, net, k)
    requires net(request, k).Received? && net(request, k).response.HttpResponse?
    requires IsSuccessStatus(net(request, k).response.statusCode) && decode(net(request, k).data).None?
    ensures var x := Run(request, net, decode, 1);
      x.sends == k && x.result == Failure(DecodingFailure)
  {
    LostBeforeIsRetried(request, net, decode, k);
    RunEndsAtFirstNonRetryable(request, net, decode, 1, k);
  }

  /** Any `URLError` other than a lost connection (a timeout, an unknown
      host, a cancellation, ...) is rethrown unchanged at once. */
  lemma OtherTransportErrorEndsCall<E>(request: Request, net: Transport, decode: Bytes -> Option<E>, k: nat)
    requires 1 <= k <= MaxRetries && LostBefore(request, net, k)
    requires net(request, k).Failed? && net(request, k).code != NetworkConnectionLost
    ensures var x := Run(request, net, decode, 1);
      x.sends == k && x.result == Failure(TransportFailure(net(request, k).code))
  {
    LostBeforeIsRetried(request, net, decode, k);
    RunEndsAtFirstNonRetryable(request, net, decode, 1, k);
  }

  /** A 2xx response whose body decodes is returned, after every earlier
      attempt lost its connection; with `k == 1` there is no retry. */
  lemma SuccessEndsCall<E>(request: Request, net: Transport, decode: Bytes -> Option<E>, k: nat)
    requires 1 <= k <= MaxRetries && LostBefore(request, net, k)
    requires net(request, k).Received? && net(request, k).response.HttpResponse?
    requires IsSuccessStatus(net(request, k).response.statusCode) && decode(net(request, k).data).Some?
    ensures var x := Run(request, net, decode, 1);
      && x.sends == k
      && x.result == Success(decode(net(request, k).data).value)
      && |x.delays| == k - 1
      && forall i :: 0 <= i < k - 1 ==> x.delays[i] == (i + 1) * NanosPerSecond
  {
    LostBeforeIsRetried(request, net, decode, k);
    RunEndsAtFirstNonRetryable(request, net, decode, 1, k);
  }

  /** Three lost connections: the third attempt's `URLError` itself is
      thrown, after sleeping one and then two seconds. */
  lemma ExhaustedRethrowsLastError<E>(request: Request, net: Transport, decode: Bytes -> Option<E>)
    requires LostBefore(request, net, MaxRetries + 1)
    ensures var x := Run(request, net, decode, 1);
      && x.sends == MaxRetries
      && x.result == Failure(TransportFailure(NetworkConnectionLost))
      && x.delays == [NanosPerSecond, 2 * NanosPerSecond]
  {
    assert net(request, MaxRetries) == Failed(NetworkConnectionLost);
    LostBeforeIsRetried(request, net, decode, MaxRetries);
    RunEndsAtFirstNonRetryable(request, net, decode, 1, MaxRetries);
  }

  /** Whatever the network does, the only `APIError`s a call throws are
      `invalidResponse` and `serverError`: never `networkError`,
      `decodingError` or `invalidURL`. */
  lemma NeverFallsBack<E>(request: Request, net: Transport, decode: Bytes -> Option<E>)
    ensures var x := Run(request, net, decode, 1);
      x.result.Failure? ==>
        !x.result.error.ApiFailure? || x.result.error.api.InvalidResponse? || x.result.error.api.ServerError?
  {
    RunStopsAtFirstNonRetryable(request, net, decode, 1);
  }

  function Sum(s: seq<nat>): nat {
    if s == [] then 0 else Sum(s[..|s| - 1]) + s[|s| - 1]
  }

  /** The delays grow strictly with the attempt number, fit in the
      `UInt64` that `Task.sleep` takes, and add up to 1s before a second
      send and 1s + 2s before a third. */
  lemma DelaysGrowLinearly<E>(request: Request, net: Transport, decode: Bytes -> Option<E>)
    ensures var x := Run(request, net, decode, 1);
      && (forall i, j :: 0 <= i < j < |x.delays| ==> x.delays[i] < x.delays[j])
      && (forall i :: 0 <= i < |x.delays| ==> x.delays[i] < 0x1_0000_0000_0000_0000)
      && Sum(x.delays) == (x.sends - 1) * x.sends / 2 * NanosPerSecond
  {
    var x := Run(request, net, decode, 1);
    if x.sends == 2 {
      assert x.delays == [NanosPerSecond];
    } else if x.sends == 3 {
      assert x.delays == [NanosPerSecond, 2 * NanosPerSecond];
      assert x.delays[..1] == [NanosPerSecond];
      assert Sum(x.delays) == Sum([NanosPerSecond]) + 2 * NanosPerSecond;
    }
  }
}
