// The resilience parts of the HTTP client: a circuit breaker per endpoint,
// a fixed-window rate limiter, an in-memory response cache with a time to
// live, a per-endpoint metrics collector keeping a running mean latency,
// the classification of HTTP statuses into error types, and the retry loop
// with exponential back-off. The clock is a parameter, and `fetch` is an
// oracle giving the outcome of each attempt.
module HttpClient {
  import opened Util

  datatype ErrorType = AuthError | NotFoundError | RateLimitError | ServerError | ValidationError
    | UnknownError | TimeoutError | NetworkError

  /** An ApiError: message, type, HTTP status when there was one, and whether a retry may help. */
  datatype ApiError = ApiError(message: string, kind: ErrorType, status: Option<int>, retryable: bool)

  // ---- error classification ---------------------------------------------

  /** getErrorTypeFromStatus */
  function ErrorTypeFromStatus(status: int): (t: ErrorType)
    ensures t == AuthError <==> status == 401 || status == 403
    ensures t == NotFoundError <==> status == 404
    ensures t == RateLimitError <==> status == 429
    ensures t == ServerError <==> status >= 500
    ensures t == ValidationError <==> 400 <= status < 500 && status !in {401, 403, 404, 429}
    ensures t == UnknownError <==> status < 400
  {
    if status == 401 || status == 403 then AuthError
    else if status == 404 then NotFoundError
    else if status == 429 then RateLimitError
    else if status >= 500 then ServerError
    else if status >= 400 then ValidationError
    else UnknownError
  }

  /** The error a non-ok response turns into: retryable for 5xx and 429 only. */
  function HttpError(status: int, statusText: string): (e: ApiError)
    ensures e.kind == ErrorTypeFromStatus(status) && e.status == Some(status)
  {
    ApiError("HTTP " + IntToString(status) + ": " + statusText, ErrorTypeFromStatus(status), Some(status),
      status >= 500 || status == 429)
  }

  /** A response error may be retried exactly when its type is a server or rate-limit error. */
  lemma HttpErrorRetryable(status: int, statusText: string)
    ensures HttpError(status, statusText).retryable <==> HttpError(status, statusText).kind in {ServerError, RateLimitError}
  {
  }

  /** getCacheKey: `method:url:body`, GET by default and an empty body when there is none. */
  function CacheKey(httpMethod: Option<string>, url: string, body: Option<string>): (k: string)
    ensures k == httpMethod.GetOr("GET") + ":" + url + ":" + body.GetOr("")
  {
    httpMethod.GetOr("GET") + ":" + url + ":" + body.GetOr("")
  }

  predicate IsHttpMethod(m: string)
  {
    m == "GET" || m == "POST" || m == "PUT" || m == "DELETE"
  }

  /** Requests with different methods never share a cache key. */
  lemma CacheKeySeparatesMethods(m1: string, m2: string, url1: string, url2: string, b1: Option<string>, b2: Option<string>)
    requires IsHttpMethod(m1) && IsHttpMethod(m2) && m1 != m2
    ensures CacheKey(Some(m1), url1, b1) != CacheKey(Some(m2), url2, b2)
  {
    var k1, k2 := CacheKey(Some(m1), url1, b1), CacheKey(Some(m2), url2, b2);
    // The character after the method is ':' for one key and a letter for the other.
    if |m1| == |m2| {
      assert k1[..|m1|] == m1 && k2[..|m2|] == m2;
    } else if |m1| < |m2| {
      assert k1[|m1|] == ':' && k2[|m1|] == m2[|m1|];
    } else {
      assert k2[|m2|] == ':' && k1[|m2|] == m1[|m2|];
    }
  }

  // ---- circuit breaker ----------------------------------------------------

  datatype BreakerState = Closed | Open | HalfOpen

  const BreakerOpenMessage := "Circuit breaker is OPEN"

  class CircuitBreaker {
    var state: BreakerState
    var failures: nat
    var lastFailureTime: int
    var nextAttempt: int
    var successCount: nat
    const failureThreshold: int
    const resetTimeout: int
    const minimumRequests: int

    /**
     * The breaker is not closed only after failures reached the threshold
     * (the count is not reset when it half-opens), and a closed breaker
     * that has failures has fewer than the threshold.
     */
    predicate Valid()
      reads this
    {
      && (state != Closed ==> failures >= failureThreshold)
      && (state == Closed && failures > 0 ==> failures < failureThreshold)
    }

    constructor(failureThreshold: int, resetTimeout: int, minimumRequests: int)
      ensures Valid()
      ensures state == Closed && failures == 0 && successCount == 0 && lastFailureTime == 0 && nextAttempt == 0
      ensures this.failureThreshold == failureThreshold && this.resetTimeout == resetTimeout
      ensures this.minimumRequests == minimumRequests
    {
      state, failures, lastFailureTime, nextAttempt, successCount := Closed, 0, 0, 0, 0;
      this.failureThreshold, this.resetTimeout, this.minimumRequests := failureThreshold, resetTimeout, minimumRequests;
    }

    /**
     * The admission step taken before running the operation: an open breaker
     * refuses until nextAttempt, and from then on half-opens with a fresh
     * success count (keeping its failure count).
     */
    method Admit(now: int) returns (admitted: bool)
      requires Valid()
      modifies this
      ensures Valid()
      ensures admitted <==> !(old(state) == Open && now < old(nextAttempt))
      ensures !admitted ==> state == old(state) && successCount == old(successCount)
      ensures admitted && old(state) == Open ==> state == HalfOpen && successCount == 0
      ensures admitted && old(state) != Open ==> state == old(state) && successCount == old(successCount)
      ensures failures == old(failures) && lastFailureTime == old(lastFailureTime) && nextAttempt == old(nextAttempt)
    {
      if state == Open {
        if now < nextAttempt {
          return false;
        }
        state := HalfOpen;
        successCount := 0;
      }
      return true;
    }

    /** onSuccess: enough half-open successes close the breaker; a closed breaker forgets its failures. */
    method OnSuccess()
      requires Valid() && state != Open
      modifies this
      ensures Valid()
      ensures old(state) == HalfOpen ==>
        && successCount == old(successCount) + 1
        && (successCount >= minimumRequests ==> state == Closed && failures == 0)
        && (successCount < minimumRequests ==> state == HalfOpen && failures == old(failures))
      ensures old(state) != HalfOpen ==> failures == 0 && state == old(state) && successCount == old(successCount)
      ensures lastFailureTime == old(lastFailureTime) && nextAttempt == old(nextAttempt)
    {
      if state == HalfOpen {
        successCount := successCount + 1;
        if successCount >= minimumRequests {
          state := Closed;
          failures := 0;
        }
      } else {
        failures := 0;
      }
    }

    /** onFailure: count the failure; at the threshold the breaker opens until now + resetTimeout. */
    method OnFailure(now: int)
      requires Valid()
      modifies this
      ensures Valid()
      ensures failures == old(failures) + 1 && lastFailureTime == now
      ensures failures >= failureThreshold ==> state == Open && nextAttempt == now + resetTimeout
      ensures failures < failureThreshold ==> state == old(state) && nextAttempt == old(nextAttempt)
      ensures successCount == old(successCount)
    {
      failures := failures + 1;
      lastFailureTime := now;
      if failures >= failureThreshold {
        state := Open;
        nextAttempt := now + resetTimeout;
      }
    }

    /**
     * execute: refused without running the operation while open, else the
     * operation's outcome (given) is passed through after the breaker
     * records it; `now` is the time of admission and `doneAt` the time the
     * operation finished.
     */
    method Execute<T>(now: int, doneAt: int, outcome: Result<T>) returns (r: Result<T>, refused: bool)
      requires Valid()
      modifies this
      ensures Valid()
      ensures refused <==> old(state) == Open && now < old(nextAttempt)
      ensures refused ==>
        && r == Err(BreakerOpenMessage) && state == old(state) && failures == old(failures)
        && successCount == old(successCount) && lastFailureTime == old(lastFailureTime) && nextAttempt == old(nextAttempt)
      ensures !refused ==> r == outcome
      // An admitted call runs in the state admission left: an open breaker past nextAttempt is on a half-open trial.
      ensures !refused ==>
        var trial := if old(state) == Open then HalfOpen else old(state);
        var successes := if old(state) == Open then 0 else old(successCount);
        && (outcome.Ok? && trial == HalfOpen ==>
              && successCount == successes + 1
              && (successes + 1 >= minimumRequests ==> state == Closed && failures == 0)
              && (successes + 1 < minimumRequests ==> state == HalfOpen && failures == old(failures)))
        && (outcome.Ok? && trial == Closed ==> state == Closed && failures == 0 && successCount == successes)
        && (outcome.Ok? ==> lastFailureTime == old(lastFailureTime) && nextAttempt == old(nextAttempt))
        && (outcome.Err? ==>
              && failures == old(failures) + 1 && lastFailureTime == doneAt && successCount == successes
              && (failures >= failureThreshold ==> state == Open && nextAttempt == doneAt + resetTimeout)
              && (failures < failureThreshold ==> state == Closed && nextAttempt == old(nextAttempt)))
        && (outcome.Err? && trial == HalfOpen ==> state == Open && nextAttempt == doneAt + resetTimeout)
    {
      var admitted := Admit(now);
      if !admitted {
        return Err(BreakerOpenMessage), true;
      }
      if outcome.Ok? {
        OnSuccess();
      } else {
        OnFailure(doneAt);
      }
      return outcome, false;
    }
  }

  // ---- rate limiter -----------------------------------------------------

  datatype WindowState = WindowState(requests: nat, windowStart: int, blocked: bool)

  class RateLimiter {
    var states: map<string, WindowState>

    constructor()
      ensures states == map[]
    {
      states := map[];
    }

    /** The window the next check works in: a new one when there is none or the old one has run out. */
    function CurrentWindow(endpoint: string, window: int, now: int): (w: WindowState)
      reads this
      ensures endpoint !in states || now - states[endpoint].windowStart >= window ==> w == WindowState(0, now, false)
      ensures endpoint in states && now - states[endpoint].windowStart < window ==> w == states[endpoint]
    {
      if endpoint !in states || now - states[endpoint].windowStart >= window then WindowState(0, now, false)
      else states[endpoint]
    }

    /** getRemainingRequests: what is left of the limit, never negative; the full limit for an unseen endpoint. */
    function Remaining(endpoint: string, limit: int): (n: int)
      reads this
      ensures endpoint !in states ==> n == limit
      ensures endpoint in states ==> n >= 0 && n == MaxInt(0, limit - states[endpoint].requests)
    {
      if endpoint !in states then limit else MaxInt(0, limit - states[endpoint].requests)
    }

    /**
     * checkLimit: allowed while the window has fewer than `limit` granted
     * requests, counting the grant; a refusal marks the window blocked and
     * counts nothing. A run-out window is replaced first.
     */
    method CheckLimit(endpoint: string, limit: int, window: int, now: int) returns (allowed: bool)
      modifies this
      ensures var w := old(CurrentWindow(endpoint, window, now));
        && (allowed <==> w.requests < limit)
        && (allowed ==> states == old(states)[endpoint := w.(requests := w.requests + 1)])
        && (!allowed ==> states == old(states)[endpoint := w.(blocked := true)])
      ensures allowed ==> states[endpoint].requests <= limit
      ensures allowed && endpoint in old(states) && now - old(states)[endpoint].windowStart < window ==>
        Remaining(endpoint, limit) == old(Remaining(endpoint, limit)) - 1
    {
      var w := CurrentWindow(endpoint, window, now);
      if w.requests >= limit {
        states := states[endpoint := w.(blocked := true)];
        return false;
      }
      states := states[endpoint := w.(requests := w.requests + 1)];
      return true;
    }
  }

  // ---- request cache ------------------------------------------------------

  datatype CacheEntry<T> = CacheEntry(data: T, timestamp: int, ttl: int)

  const DefaultTtl := 300000

  class RequestCache<T> {
    var entries: map<string, CacheEntry<T>>

    constructor()
      ensures entries == map[]
    {
      entries := map[];
    }

    /** What a lookup at `now` yields: the data of a present entry no older than its time to live. */
    function Lookup(key: string, now: int): (r: Option<T>)
      reads this
      ensures r.Some? <==> key in entries && now - entries[key].timestamp <= entries[key].ttl
      ensures r.Some? ==> r.value == entries[key].data
    {
      if key in entries && now - entries[key].timestamp <= entries[key].ttl then Some(entries[key].data) else None
    }

    /** set: store the data stamped with `now`; it is found again until its time to live has passed. */
    method Set(key: string, data: T, ttl: int, now: int)
      modifies this
      ensures entries == old(entries)[key := CacheEntry(data, now, ttl)]
      ensures forall t :: t - now <= ttl ==> Lookup(key, t) == Some(data)
      ensures forall t :: t - now > ttl ==> Lookup(key, t) == None
    {
      entries := entries[key := CacheEntry(data, now, ttl)];
    }

    /** The timer `set` schedules: once the time to live has elapsed it deletes the key, whatever entry it holds by then. */
    method TimerFired(key: string)
      modifies this
      ensures entries == old(entries) - {key}
    {
      entries := entries - {key};
    }

    /** get: the entry's data, or nothing; an expired entry is deleted on the way. */
    method Get(key: string, now: int) returns (r: Option<T>)
      modifies this
      ensures r == old(Lookup(key, now))
      ensures key in old(entries) && now - old(entries)[key].timestamp > old(entries)[key].ttl
        ==> entries == old(entries) - {key}
      ensures !(key in old(entries) && now - old(entries)[key].timestamp > old(entries)[key].ttl)
        ==> entries == old(entries)
    {
      if key !in entries {
        return None;
      }
      var e := entries[key];
      if now - e.timestamp > e.ttl {
        entries := entries - {key};
        return None;
      }
      return Some(e.data);
    }

    method Clear()
      modifies this
      ensures entries == map[]
    {
      entries := map[];
    }

    function Size(): (n: nat)
      reads this
      ensures n == |entries.Keys|
    {
      |entries.Keys|
    }
  }

  // ---- metrics ------------------------------------------------------------

  datatype ApiMetrics = ApiMetrics(
    totalRequests: nat,
    successRequests: nat,
    failedRequests: nat,
    averageLatency: real,
    errorsByType: map<ErrorType, nat>,
    lastResetTime: int)

  function EmptyMetrics(now: int): ApiMetrics
  {
    ApiMetrics(0, 0, 0, 0.0, map[], now)
  }

  /** One more sample folded into a mean over `n` samples: (mean * n + x) / (n + 1). */
  lemma RunningMean(samples: seq<real>, x: real)
    ensures MeanOrZero(samples + [x]) == (MeanOrZero(samples) * |samples| as real + x) / (|samples| + 1) as real
  {
    var s := samples + [x];
    assert s[..|s| - 1] == samples;
    assert SumReal(s) == SumReal(samples) + x;
    if |samples| > 0 {
      var n := |samples| as real;
      assert MeanOrZero(samples) * n == SumReal(samples);
    }
  }

  /**
   * The counters of one endpoint agree with the latencies it has recorded:
   * successes and failures add up to the total, which is the number of
   * samples, and the average latency is their mean.
   */
  predicate Consistent(m: ApiMetrics, latencies: seq<real>)
  {
    && m.totalRequests == m.successRequests + m.failedRequests
    && m.totalRequests == |latencies|
    && m.averageLatency == MeanOrZero(latencies)
  }

  /** The metrics after one more request, as recordRequest updates them. */
  function Recorded(m: ApiMetrics, success: bool, latency: real, errorType: Option<ErrorType>): (r: ApiMetrics)
    ensures r.totalRequests == m.totalRequests + 1
    ensures success ==> r.successRequests == m.successRequests + 1 && r.failedRequests == m.failedRequests
    ensures !success ==> r.failedRequests == m.failedRequests + 1 && r.successRequests == m.successRequests
    ensures r.averageLatency == (m.averageLatency * m.totalRequests as real + latency) / (m.totalRequests + 1) as real
  {
    var total := m.totalRequests + 1;
    var errors := if !success && errorType.Some? then
      m.errorsByType[errorType.value := (if errorType.value in m.errorsByType then m.errorsByType[errorType.value] else 0) + 1]
      else m.errorsByType;
    m.(totalRequests := total,
       successRequests := if success then m.successRequests + 1 else m.successRequests,
       failedRequests := if success then m.failedRequests else m.failedRequests + 1,
       errorsByType := errors,
       averageLatency := (m.averageLatency * (total - 1) as real + latency) / total as real)
  }

  /** Recording keeps the counters consistent with the samples extended by the new latency. */
  lemma RecordedConsistent(m: ApiMetrics, latencies: seq<real>, success: bool, latency: real, errorType: Option<ErrorType>)
    requires Consistent(m, latencies)
    ensures Consistent(Recorded(m, success, latency, errorType), latencies + [latency])
  {
    RunningMean(latencies, latency);
  }

  class MetricsCollector {
    var metrics: map<string, ApiMetrics>
    /** The latencies recorded per endpoint since its last reset. */
    ghost var latencies: map<string, seq<real>>

    ghost predicate Valid()
      reads this
    {
      forall k :: k in metrics ==> k in latencies && Consistent(metrics[k], latencies[k])
    }

    constructor()
      ensures Valid() && metrics == map[]
    {
      metrics := map[];
      latencies := map[];
    }

    /** recordRequest: count the request and fold its latency into the running mean. */
    method RecordRequest(endpoint: string, success: bool, latency: real, errorType: Option<ErrorType>, now: int)
      requires Valid()
      modifies this
      ensures Valid()
      ensures var m := if endpoint in old(metrics) then old(metrics)[endpoint] else EmptyMetrics(now);
        metrics == old(metrics)[endpoint := Recorded(m, success, latency, errorType)]
      ensures endpoint in old(metrics) ==> latencies[endpoint] == old(latencies)[endpoint] + [latency]
      ensures endpoint !in old(metrics) ==> latencies[endpoint] == [latency]
    {
      var m := if endpoint in metrics then metrics[endpoint] else EmptyMetrics(now);
      ghost var samples := if endpoint in metrics then latencies[endpoint] else [];
      RecordedConsistent(m, samples, success, latency, errorType);
      metrics := metrics[endpoint := Recorded(m, success, latency, errorType)];
      latencies := latencies[endpoint := samples + [latency]];
    }

    /**
     * getMetrics: for a named endpoint its metrics, or empty ones stamped
     * `now`; without an endpoint, or with the empty name (falsy in
     * JavaScript), the whole table.
     */
    function GetMetrics(endpoint: Option<string>, now: int): (v: MetricsView)
      reads this
      requires Valid()
      ensures endpoint.None? || endpoint == Some("") ==> v == AllMetrics(metrics)
      ensures endpoint.Some? && endpoint.value != "" ==>
        && v.OneEndpoint?
        && v.m.totalRequests == v.m.successRequests + v.m.failedRequests
        && (endpoint.value in metrics ==> v.m == metrics[endpoint.value])
        && (endpoint.value !in metrics ==> v.m == EmptyMetrics(now))
    {
      if endpoint.None? || endpoint.value == "" then AllMetrics(metrics)
      else if endpoint.value in metrics then OneEndpoint(metrics[endpoint.value])
      else OneEndpoint(EmptyMetrics(now))
    }

    /**
     * resetMetrics: empty metrics for a named endpoint; without an endpoint,
     * or with the empty name, no metrics at all.
     */
    method ResetMetrics(endpoint: Option<string>, now: int)
      requires Valid()
      modifies this
      ensures Valid()
      ensures endpoint.Some? && endpoint.value != "" ==> metrics == old(metrics)[endpoint.value := EmptyMetrics(now)]
      ensures endpoint.None? || endpoint == Some("") ==> metrics == map[]
    {
      if endpoint.Some? && endpoint.value != "" {
        metrics := metrics[endpoint.value := EmptyMetrics(now)];
        latencies := latencies[endpoint.value := []];
      } else {
        metrics := map[];
        latencies := map[];
      }
    }
  }

  /** What getMetrics answers: one endpoint's record, or the whole table. */
  datatype MetricsView = OneEndpoint(m: ApiMetrics) | AllMetrics(table: map<string, ApiMetrics>)

  // ---- the retry loop -------------------------------------------------------

  /**
   * What one fetch attempt produced: a response (ok for 2xx) whose body
   * may fail to parse, or a thrown error that is not an ApiError (abort,
   * network failure, ...).
   */
  datatype FetchOutcome = Response(status: int, statusText: string, body: Option<string>) | Thrown(name: string)

  /** The error an attempt ended with, when it did not succeed. */
  datatype Failure = Api(error: ApiError) | Other(name: string)

  datatype Reply = Reply(status: int, data: string)

  function AttemptResult(o: FetchOutcome): Result<Reply>
  {
    match o
    case Thrown(_) => Err("thrown")
    case Response(status, text, body) =>
      if !(200 <= status <= 299) || body.None? then Err("failed") else Ok(Reply(status, body.value))
  }

  function AttemptFailure(o: FetchOutcome): Failure
  {
    match o
    case Thrown(name) => Other(name)
    case Response(status, text, body) =>
      if !(200 <= status <= 299) then Api(HttpError(status, text)) else Other("SyntaxError")
  }

  /** Only an ApiError marked non-retryable stops the loop early. */
  predicate StopsRetrying(f: Failure)
  {
    f.Api? && !f.error.retryable
  }

  function Pow2(n: nat): (r: nat)
    ensures r >= 1
  {
    if n == 0 then 1 else 2 * Pow2(n - 1)
  }

  /** The reply or the error that ends the loop, or nothing if it went on past `attempt`. */
  datatype Ending = Succeeded(reply: Reply) | Stopped(failure: Failure) | Exhausted(last: Option<Failure>)

  /**
   * The loop from `attempt` on: the first successful attempt or the first
   * non-retryable failure ends it; after the last permitted attempt the last
   * error is rethrown.
   */
  function Retry(fetch: nat -> FetchOutcome, attempt: nat, retries: int, last: Option<Failure>): (e: Ending)
    decreases retries - attempt
  {
    if attempt > retries then Exhausted(last)
    else
      var o := fetch(attempt);
      if AttemptResult(o).Ok? then Succeeded(AttemptResult(o).value)
      else if StopsRetrying(AttemptFailure(o)) then Stopped(AttemptFailure(o))
      else Retry(fetch, attempt + 1, retries, Some(AttemptFailure(o)))
  }

  /** The number of attempts Retry makes from `attempt` on. */
  function Attempts(fetch: nat -> FetchOutcome, attempt: nat, retries: int): (n: nat)
    decreases retries - attempt
  {
    if attempt > retries then 0
    else
      var o := fetch(attempt);
      if AttemptResult(o).Ok? || StopsRetrying(AttemptFailure(o)) then 1
      else 1 + Attempts(fetch, attempt + 1, retries)
  }

  /** An attempt that neither succeeded nor was refused for good. */
  predicate FailedRetryably(o: FetchOutcome)
  {
    AttemptResult(o).Err? && !StopsRetrying(AttemptFailure(o))
  }

  /**
   * How the loop ends: it makes at most retries + 1 attempts (at least one
   * when any is permitted); every attempt but the last failed retryably;
   * a success carries the last attempt's reply, a stop its non-retryable
   * error, and running out rethrows the error of the last permitted attempt.
   */
  lemma {:induction false} RetryEnding(fetch: nat -> FetchOutcome, attempt: nat, retries: int, last: Option<Failure>)
    ensures var n := Attempts(fetch, attempt, retries);
      && (attempt <= retries + 1 ==> n <= retries + 1 - attempt)
      && (attempt <= retries ==> n >= 1)
      && (forall i :: attempt <= i < attempt + n - 1 ==> FailedRetryably(fetch(i)))
    ensures var n := Attempts(fetch, attempt, retries);
      match Retry(fetch, attempt, retries, last)
      case Succeeded(reply) => n >= 1 && AttemptResult(fetch(attempt + n - 1)) == Ok(reply)
      case Stopped(failure) =>
        n >= 1 && failure == AttemptFailure(fetch(attempt + n - 1)) && StopsRetrying(failure)
      case Exhausted(l) =>
        (attempt <= retries ==>
          n == retries + 1 - attempt && FailedRetryably(fetch(retries)) && l == Some(AttemptFailure(fetch(retries))))
        && (attempt > retries ==> n == 0 && l == last)
    decreases retries - attempt
  {
    if attempt <= retries {
      var o := fetch(attempt);
      if FailedRetryably(o) {
        RetryEnding(fetch, attempt + 1, retries, Some(AttemptFailure(o)));
      }
    }
  }

  /**
   * executeRequest: up to retries + 1 attempts; after each failed attempt
   * but the last it waits retryDelay * 2^attempt; a non-retryable ApiError
   * is rethrown at once. `Exhausted(None)` (no attempt was permitted) is
   * the generic 'All retry attempts failed' error.
   */
  method ExecuteRequest(fetch: nat -> FetchOutcome, retries: int, retryDelay: real)
    returns (e: Ending, attempts: nat, delays: seq<real>)
    ensures e == Retry(fetch, 0, retries, None)
    ensures attempts == Attempts(fetch, 0, retries)
    ensures retries >= 0 ==> attempts >= 1 && |delays| == attempts - 1
    ensures retries < 0 ==> attempts == 0 && delays == [] && e == Exhausted(None)
    ensures forall i :: 0 <= i < |delays| ==> delays[i] == retryDelay * Pow2(i) as real
  {
    var attempt: nat := 0;
    var last: Option<Failure> := None;
    attempts, delays := 0, [];
    while attempt <= retries
      invariant attempts == attempt && |delays| == MinInt(attempt, MaxInt(retries, 0))
      invariant attempt <= retries + 1 || attempt == 0
      invariant Retry(fetch, attempt, retries, last) == Retry(fetch, 0, retries, None)
      invariant Attempts(fetch, 0, retries) == attempt + Attempts(fetch, attempt, retries)
      invariant forall i :: 0 <= i < |delays| ==> delays[i] == retryDelay * Pow2(i) as real
      decreases retries - attempt
    {
      var o := fetch(attempt);
      attempts := attempts + 1;
      var result := AttemptResult(o);
      if result.Ok? {
        return Succeeded(result.value), attempts, delays;
      }
      var failure := AttemptFailure(o);
      if StopsRetrying(failure) {
        return Stopped(failure), attempts, delays;
      }
      last := Some(failure);
      if attempt < retries {
        delays := delays + [retryDelay * Pow2(attempt) as real];
      }
      attempt := attempt + 1;
    }
    return Exhausted(last), attempts, delays;
  }
}
