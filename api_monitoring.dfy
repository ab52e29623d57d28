// API monitoring: every API call is recorded (subject to sampling, in a
// bounded history); per-endpoint metrics, health, percentiles, uptime and
// trends are derived from the recorded calls over time windows; alert
// rules are evaluated against those metrics and raise alerts that can be
// resolved. The clock, the sampling draw and identifier generation are
// parameters (identifiers come from a counter).
module ApiMonitoring {
  import opened Util
  import opened HttpClient

  datatype ApiCall = ApiCall(
    id: string,
    endpoint: string,
    httpMethod: string,
    url: string,
    timestamp: int,
    duration: real,
    status: Option<int>,
    success: bool,
    errorType: Option<ErrorType>,
    cached: bool,
    retryCount: nat,
    sessionId: string)

  datatype MonitoringConfig = MonitoringConfig(
    enabled: bool,
    sampleRate: real,
    maxStoredCalls: int,
    maxStoredAlerts: int,
    healthCheckInterval: int,
    alertCheckInterval: int,
    persistMetrics: bool)

  const DefaultConfig := MonitoringConfig(true, 1.0, 10000, 1000, 30000, 15000, true)

  /** The endpoints the system health and the periodic alert check cover. */
  const MonitoredEndpoints: seq<string> := ["dictionary", "translate", "unsplash", "pexels"]

  const HourMs := 3600000
  const RecentMs := 300000
  const DayMs := 86400000
  const WeekMs := 604800000

  // ---- selecting calls ------------------------------------------------------

  /** The calls to `endpoint` at most `window` ms old at `now`, in recording order. */
  function InWindow(calls: seq<ApiCall>, endpoint: string, now: int, window: int): (r: seq<ApiCall>)
    ensures |r| <= |calls|
  {
    if calls == [] then []
    else
      var rest := InWindow(calls[1..], endpoint, now, window);
      if calls[0].endpoint == endpoint && now - calls[0].timestamp <= window then [calls[0]] + rest else rest
  }

  /** The window keeps its calls in recording order, and each selected call as often as it was recorded. */
  lemma {:induction false} InWindowKeeps(calls: seq<ApiCall>, endpoint: string, now: int, window: int)
    ensures Sublist(InWindow(calls, endpoint, now, window), calls)
    ensures forall c :: multiset(InWindow(calls, endpoint, now, window))[c]
                          == if c.endpoint == endpoint && now - c.timestamp <= window then multiset(calls)[c] else 0
  {
    if calls != [] {
      InWindowKeeps(calls[1..], endpoint, now, window);
      assert calls == [calls[0]] + calls[1..];
      var rest := InWindow(calls[1..], endpoint, now, window);
      if calls[0].endpoint == endpoint && now - calls[0].timestamp <= window {
        assert ([calls[0]] + rest)[1..] == rest;
      } else if rest != [] {
        assert multiset(rest)[rest[0]] > 0;
        assert rest[0] != calls[0];
      }
    }
  }

  /** A call is selected exactly when it was recorded for the endpoint within the window. */
  lemma {:induction false} InWindowIff(calls: seq<ApiCall>, endpoint: string, now: int, window: int, c: ApiCall)
    ensures c in InWindow(calls, endpoint, now, window) <==>
      c in calls && c.endpoint == endpoint && now - c.timestamp <= window
  {
    if calls != [] {
      InWindowIff(calls[1..], endpoint, now, window, c);
      assert calls == [calls[0]] + calls[1..];
    }
  }

  /** The calls to `endpoint` stamped in [start, end). */
  function Between(calls: seq<ApiCall>, endpoint: string, start: real, end: real): (r: seq<ApiCall>)
    ensures |r| <= |calls|
  {
    if calls == [] then []
    else
      var rest := Between(calls[1..], endpoint, start, end);
      var t := calls[0].timestamp as real;
      if calls[0].endpoint == endpoint && start <= t < end then [calls[0]] + rest else rest
  }

  function Successes(calls: seq<ApiCall>): (n: nat)
    ensures n <= |calls|
  {
    if calls == [] then 0 else (if calls[0].success then 1 else 0) + Successes(calls[1..])
  }

  /** Every call succeeded exactly when the success count is the whole list. */
  lemma {:induction false} SuccessesAll(calls: seq<ApiCall>)
    ensures Successes(calls) == |calls| <==> forall i :: 0 <= i < |calls| ==> calls[i].success
  {
    if calls != [] {
      SuccessesAll(calls[1..]);
      assert forall i :: 1 <= i < |calls| ==> calls[i] == calls[1..][i - 1];
    }
  }

  function Durations(calls: seq<ApiCall>): (r: seq<real>)
    ensures |r| == |calls|
    ensures forall i :: 0 <= i < |r| ==> r[i] == calls[i].duration
  {
    if calls == [] then [] else [calls[0].duration] + Durations(calls[1..])
  }

  /** The failures counted per error type; failures without a type are not counted. */
  function ErrorCounts(calls: seq<ApiCall>): (m: map<ErrorType, nat>)
    ensures forall t :: t in m ==> 1 <= m[t] <= |calls| - Successes(calls)
  {
    if calls == [] then map[]
    else
      var rest := ErrorCounts(calls[1..]);
      var c := calls[0];
      if !c.success && c.errorType.Some? then
        rest[c.errorType.value := (if c.errorType.value in rest then rest[c.errorType.value] else 0) + 1]
      else rest
  }

  /** Successes over calls, or 1 when there are none. */
  function SuccessRate(calls: seq<ApiCall>): (r: real)
    ensures 0.0 <= r <= 1.0
    ensures calls == [] ==> r == 1.0
    ensures r == 1.0 <==> Successes(calls) == |calls|
  {
    if calls == [] then 1.0
    else
      RatioInUnit(Successes(calls) as real, |calls| as real);
      Successes(calls) as real / |calls| as real
  }

  // ---- metrics, health --------------------------------------------------

  /** getEndpointMetrics: the metrics of the endpoint's calls within the window. */
  function EndpointMetrics(calls: seq<ApiCall>, endpoint: string, now: int, window: int, startTime: int): (m: ApiMetrics)
    ensures m.totalRequests == |InWindow(calls, endpoint, now, window)|
    ensures m.totalRequests == m.successRequests + m.failedRequests
    ensures m.successRequests == Successes(InWindow(calls, endpoint, now, window))
    ensures m.totalRequests == 0 ==> m.averageLatency == 0.0 && m.errorsByType == map[]
    ensures forall t :: t in m.errorsByType ==> 1 <= m.errorsByType[t] <= m.failedRequests
    ensures m.lastResetTime == startTime
  {
    var w := InWindow(calls, endpoint, now, window);
    ApiMetrics(|w|, Successes(w), |w| - Successes(w), MeanOrZero(Durations(w)), ErrorCounts(w), startTime)
  }

  /** The average latency is the mean duration of the calls in the window, so it lies between their extremes. */
  lemma AverageLatencyBounds(calls: seq<ApiCall>, endpoint: string, now: int, window: int, startTime: int, lo: real, hi: real)
    requires forall c :: c in InWindow(calls, endpoint, now, window) ==> lo <= c.duration <= hi
    requires InWindow(calls, endpoint, now, window) != []
    ensures lo <= EndpointMetrics(calls, endpoint, now, window, startTime).averageLatency <= hi
  {
    var w := InWindow(calls, endpoint, now, window);
    assert forall i :: 0 <= i < |w| ==> w[i] in w;
    MeanOrZeroBounds(Durations(w), lo, hi);
  }

  /** Failures over requests, 0 without requests. */
  function ErrorRate(m: ApiMetrics): (r: real)
    ensures m.totalRequests == m.successRequests + m.failedRequests ==> 0.0 <= r <= 1.0
    ensures m.totalRequests == 0 ==> r == 0.0
  {
    if m.totalRequests == 0 then 0.0
    else if m.failedRequests <= m.totalRequests then
      RatioInUnit(m.failedRequests as real, m.totalRequests as real);
      m.failedRequests as real / m.totalRequests as real
    else m.failedRequests as real / m.totalRequests as real
  }

  /** calculateUptime: the success rate of the endpoint's calls in the last hour. */
  function Uptime(calls: seq<ApiCall>, endpoint: string, now: int): (u: real)
    ensures 0.0 <= u <= 1.0
    ensures InWindow(calls, endpoint, now, HourMs) == [] ==> u == 1.0
  {
    SuccessRate(InWindow(calls, endpoint, now, HourMs))
  }

  /** The uptime and the error rate of the default (one hour) metrics window add up to one when there were calls. */
  lemma UptimeComplementsErrorRate(calls: seq<ApiCall>, endpoint: string, now: int, startTime: int)
    ensures var m := EndpointMetrics(calls, endpoint, now, HourMs, startTime);
      m.totalRequests > 0 ==> Uptime(calls, endpoint, now) + ErrorRate(m) == 1.0
    ensures var m := EndpointMetrics(calls, endpoint, now, HourMs, startTime);
      m.totalRequests == 0 ==> Uptime(calls, endpoint, now) == 1.0 && ErrorRate(m) == 0.0
  {
    var m := EndpointMetrics(calls, endpoint, now, HourMs, startTime);
    var w := InWindow(calls, endpoint, now, HourMs);
    if m.totalRequests > 0 {
      assert Uptime(calls, endpoint, now) == Successes(w) as real / |w| as real;
      assert ErrorRate(m) == m.failedRequests as real / m.totalRequests as real;
      SharesAddUp(Successes(w) as real, m.failedRequests as real, |w| as real);
    }
  }

  lemma SharesAddUp(a: real, b: real, n: real)
    requires n > 0.0 && a + b == n
    ensures a / n + b / n == 1.0
  {
    assert a / n + b / n == (a + b) / n;
  }

  datatype HealthStatus = Healthy | Degraded | Down

  /** The status rule: down beyond 50% errors or 10 s average, degraded beyond 10% or 5 s, else healthy. */
  function StatusFor(errorRate: real, avgLatency: real): (s: HealthStatus)
    ensures s == Down <==> errorRate > 0.5 || avgLatency > 10000.0
    ensures s == Healthy <==> errorRate <= 0.1 && avgLatency <= 5000.0
  {
    if errorRate > 0.5 || avgLatency > 10000.0 then Down
    else if errorRate > 0.1 || avgLatency > 5000.0 then Degraded
    else Healthy
  }

  /** More errors or a slower average never improve the status. */
  lemma StatusMonotone(e1: real, a1: real, e2: real, a2: real)
    requires e1 <= e2 && a1 <= a2
    ensures StatusFor(e2, a2) == Healthy ==> StatusFor(e1, a1) == Healthy
    ensures StatusFor(e1, a1) == Down ==> StatusFor(e2, a2) == Down
  {
  }

  // ---- percentiles ----------------------------------------------------------

  predicate SortedAsc(s: seq<real>)
  {
    forall i, j :: 0 <= i < j < |s| ==> s[i] <= s[j]
  }

  function Insert(x: real, s: seq<real>): (r: seq<real>)
    requires SortedAsc(s)
    ensures SortedAsc(r) && multiset(r) == multiset(s) + multiset{x}
    ensures |r| == |s| + 1 && (r[0] == x || (s != [] && r[0] == s[0]))
  {
    if s == [] || x <= s[0] then [x] + s
    else
      var t := Insert(x, s[1..]);
      assert s == [s[0]] + s[1..];
      assert s[0] <= t[0];
      assert forall k :: 0 <= k < |t| ==> t[0] <= t[k];
      [s[0]] + t
  }

  /** The latencies sorted numerically ascending, as `sort((a, b) => a - b)` does. */
  function SortAsc(s: seq<real>): (r: seq<real>)
    ensures SortedAsc(r) && multiset(r) == multiset(s) && |r| == |s|
  {
    if s == [] then []
    else
      assert s == [s[0]] + s[1..];
      Insert(s[0], SortAsc(s[1..]))
  }

  /** The position percentile reads: ceil(len * p) - 1, clamped at 0. */
  function Rank(len: nat, p: real): int
  {
    MaxInt(0, Ceil(len as real * p) - 1)
  }

  /** percentile: 0 without values, else the value at position ceil(n * p) - 1 (clamped at 0), 0 past the end. */
  function Percentile(values: seq<real>, p: real): (r: real)
    ensures values == [] ==> r == 0.0
  {
    if values == [] then 0.0
    else
      var k := Rank(|values|, p);
      if k < |values| then values[k] else 0.0
  }

  lemma CeilMonotone(a: real, b: real)
    requires a <= b
    ensures Ceil(a) <= Ceil(b)
  {
  }

  lemma CeilOfInt(k: int)
    ensures Ceil(k as real) == k
  {
  }

  lemma ProductsOrdered(n: real, p: real, q: real)
    requires n > 0.0 && p <= q <= 1.0
    ensures n * p <= n * q <= n
  {
    MulMonotone(p, q, n);
    MulMonotone(q, 1.0, n);
  }

  lemma ScaledOrder(len: nat, p: real, q: real) returns (a: real, b: real)
    requires len > 0 && p <= q <= 1.0
    ensures a == len as real * p && b == len as real * q && a <= b <= len as real
  {
    a, b := len as real * p, len as real * q;
    ProductsOrdered(len as real, p, q);
  }

  /** Positions ceil(a) - 1 and ceil(b) - 1, clamped at 0, keep the order of a <= b <= len and stay below len. */
  lemma CeilIndexOrder(len: nat, a: real, b: real)
    requires len > 0 && a <= b <= len as real
    ensures MaxInt(0, Ceil(a) - 1) <= MaxInt(0, Ceil(b) - 1) < len
  {
    CeilMonotone(a, b);
    CeilMonotone(b, len as real);
    CeilOfInt(len);
  }

  /** A larger p (up to 1) never moves the rank back, and the rank stays inside the list. */
  lemma RankOrder(len: nat, p: real, q: real)
    requires len > 0 && p <= q <= 1.0
    ensures 0 <= Rank(len, p) <= Rank(len, q) < len
  {
    var a, b := ScaledOrder(len, p, q);
    CeilIndexOrder(len, a, b);
  }

  /** For 0 < p <= 1 the rank is exactly ceil(len * p) - 1, without clamping. */
  lemma RankExact(len: nat, p: real)
    requires len > 0 && 0.0 < p <= 1.0
    ensures Rank(len, p) == Ceil(len as real * p) - 1
  {
    var n := len as real;
    assert n * p > 0.0 by { RatioPositive(n, 1.0); assert n > 0.0 && p > 0.0; }
  }

  /**
   * For p <= 1 the percentile of a non-empty list is one of its values,
   * read at position ceil(n * p) - 1 when p > 0.
   */
  lemma PercentileFacts(values: seq<real>, p: real)
    requires values != [] && p <= 1.0
    ensures 0 <= Rank(|values|, p) < |values| && Percentile(values, p) == values[Rank(|values|, p)]
    ensures Percentile(values, p) in values
    ensures 0.0 < p ==> Percentile(values, p) == values[Ceil(|values| as real * p) - 1]
  {
    RankOrder(|values|, p, p);
    if 0.0 < p {
      RankExact(|values|, p);
    }
  }

  /** On a sorted list a larger p (up to 1) never gives a smaller percentile. */
  lemma PercentileMonotone(values: seq<real>, p: real, q: real)
    requires SortedAsc(values) && p <= q <= 1.0
    ensures Percentile(values, p) <= Percentile(values, q)
  {
    if values != [] {
      RankOrder(|values|, p, q);
    }
  }

  // ---- lastError, trends ------------------------------------------------

  /** The failed call with the latest timestamp (the first in recording order among ties). */
  function LatestFailure(calls: seq<ApiCall>): (r: Option<ApiCall>)
    ensures r.Some? ==> r.value in calls && !r.value.success
  {
    if calls == [] then None
    else
      var rest := LatestFailure(calls[1..]);
      if !calls[0].success && (rest.None? || calls[0].timestamp >= rest.value.timestamp) then Some(calls[0])
      else rest
  }

  lemma {:induction false} LatestFailureFacts(calls: seq<ApiCall>)
    ensures LatestFailure(calls).None? <==> forall i :: 0 <= i < |calls| ==> calls[i].success
    ensures LatestFailure(calls).Some? ==>
      forall i :: 0 <= i < |calls| && !calls[i].success ==> calls[i].timestamp <= LatestFailure(calls).value.timestamp
  {
    if calls != [] {
      LatestFailureFacts(calls[1..]);
      assert forall i :: 1 <= i < |calls| ==> calls[i] == calls[1..][i - 1];
    }
  }

  datatype LastError = LastError(timestamp: int, message: string, kind: ErrorType)

  /** `${status || 'Network'} error`: a missing or zero status reads as a network error. */
  function ErrorMessage(status: Option<int>): (m: string)
    ensures status.None? || status == Some(0) ==> m == "Network error"
    ensures status.Some? && status.value != 0 ==> m == IntToString(status.value) + " error"
  {
    (if status.None? || status.value == 0 then "Network" else IntToString(status.value)) + " error"
  }

  function LastErrorOf(recent: seq<ApiCall>): (e: Option<LastError>)
    ensures e.Some? <==> LatestFailure(recent).Some?
    ensures e.Some? ==> e.value.timestamp == LatestFailure(recent).value.timestamp
    ensures e.Some? ==> e.value.kind == LatestFailure(recent).value.errorType.GetOr(UnknownError)
  {
    match LatestFailure(recent)
    case None => None
    case Some(c) => Some(LastError(c.timestamp, ErrorMessage(c.status), c.errorType.GetOr(UnknownError)))
  }

  /** Start of the i-th of `points` equal slices of the `window` ms before `now`. */
  function SliceStart(now: int, window: int, points: nat, i: nat): real
    requires points > 0
  {
    now as real - window as real + i as real * (window as real / points as real)
  }

  /** The success rate of the endpoint's calls in the i-th slice. */
  function SliceRate(calls: seq<ApiCall>, endpoint: string, now: int, window: int, points: nat, i: nat): (r: real)
    requires points > 0
    ensures 0.0 <= r <= 1.0
  {
    var start := SliceStart(now, window, points, i);
    SuccessRate(Between(calls, endpoint, start, start + window as real / points as real))
  }

  /** calculateTrend: the success rate in each of `points` equal slices of the window, oldest first. */
  method Trend(calls: seq<ApiCall>, endpoint: string, now: int, window: int, points: nat) returns (trend: seq<real>)
    ensures |trend| == points
    ensures points > 0 ==> forall i :: 0 <= i < points ==> trend[i] == SliceRate(calls, endpoint, now, window, points, i)
    ensures forall i :: 0 <= i < points ==> 0.0 <= trend[i] <= 1.0
  {
    trend := [];
    if points == 0 {
      return;
    }
    var pointDuration := window as real / points as real;
    var i: nat := 0;
    while i < points
      invariant i <= points && |trend| == i
      invariant forall k :: 0 <= k < i ==> trend[k] == SliceRate(calls, endpoint, now, window, points, k)
      invariant forall k :: 0 <= k < i ==> 0.0 <= trend[k] <= 1.0
    {
      var startTime := now as real - window as real + i as real * pointDuration;
      var endTime := startTime + pointDuration;
      var rate := SuccessRate(Between(calls, endpoint, startTime, endTime));
      assert startTime == SliceStart(now, window, points, i);
      assert rate == SliceRate(calls, endpoint, now, window, points, i);
      trend := trend + [rate];
      i := i + 1;
    }
  }

  datatype ResponseTime = ResponseTime(avg: real, p50: real, p95: real, p99: real)

  datatype EndpointHealth = EndpointHealth(
    endpoint: string,
    status: HealthStatus,
    uptime: real,
    responseTime: ResponseTime,
    errorRate: real,
    lastError: Option<LastError>,
    hour: seq<real>,
    day: seq<real>,
    week: seq<real>)

  /** convertToApiHealthStatus */
  datatype ApiHealthStatus = ApiHealthStatus(healthy: bool, latency: real, lastCheck: int, errorRate: real, availabilityScore: real)

  function ToApiHealthStatus(h: EndpointHealth, now: int): (s: ApiHealthStatus)
    ensures s.healthy <==> h.status == Healthy
    ensures s.latency == h.responseTime.avg && s.errorRate == h.errorRate && s.availabilityScore == h.uptime
  {
    ApiHealthStatus(h.status == Healthy, h.responseTime.avg, now, h.errorRate, h.uptime)
  }

  datatype SystemHealth = SystemHealth(
    dictionary: ApiHealthStatus,
    translate: ApiHealthStatus,
    unsplash: ApiHealthStatus,
    pexels: ApiHealthStatus,
    overallHealthy: bool,
    score: real,
    lastUpdate: int)

  function HealthyCount(hs: seq<ApiHealthStatus>): (n: nat)
    ensures n <= |hs|
  {
    if hs == [] then 0 else (if hs[0].healthy then 1 else 0) + HealthyCount(hs[1..])
  }

  /** The overall verdict: the share of healthy endpoints, healthy from 75% on. */
  function Overall(d: ApiHealthStatus, t: ApiHealthStatus, u: ApiHealthStatus, p: ApiHealthStatus, now: int): (s: SystemHealth)
    ensures s.score == HealthyCount([d, t, u, p]) as real / 4.0
    ensures s.overallHealthy <==> HealthyCount([d, t, u, p]) >= 3
    ensures 0.0 <= s.score <= 1.0
  {
    var score := HealthyCount([d, t, u, p]) as real / 4.0;
    SystemHealth(d, t, u, p, score >= 0.75, score, now)
  }

  // ---- alerts -----------------------------------------------------------

  datatype Condition = ErrorRateCondition | ResponseTimeCondition | AvailabilityCondition | CustomCondition

  datatype AlertRule = AlertRule(
    id: string,
    name: string,
    condition: Condition,
    threshold: real,
    duration: int,
    enabled: bool,
    endpoints: seq<string>)

  datatype Severity = Low | Medium | High | Critical

  datatype Alert = Alert(
    id: string,
    ruleId: string,
    endpoint: string,
    message: string,
    severity: Severity,
    timestamp: int,
    resolved: bool,
    resolvedAt: Option<int>)

  /** evaluateAlertRule on the metrics of the rule's window: with no requests the error rate is 0 and the availability 1. */
  function RuleFires(rule: AlertRule, m: ApiMetrics): (fires: bool)
    ensures rule.condition == CustomCondition ==> !fires
    ensures m.totalRequests == 0 && rule.condition == ErrorRateCondition ==> (fires <==> rule.threshold < 0.0)
    ensures m.totalRequests == 0 && rule.condition == AvailabilityCondition ==> (fires <==> 1.0 < rule.threshold)
    ensures rule.condition == ResponseTimeCondition ==> (fires <==> m.averageLatency > rule.threshold)
  {
    match rule.condition
    case ErrorRateCondition => ErrorRate(m) > rule.threshold
    case ResponseTimeCondition => m.averageLatency > rule.threshold
    case AvailabilityCondition =>
      (if m.totalRequests > 0 then m.successRequests as real / m.totalRequests as real else 1.0) < rule.threshold
    case CustomCondition => false
  }

  /** calculateSeverity on the default-window metrics (a request-less error rate is NaN, which is never above 0.5). */
  function SeverityFor(rule: AlertRule, m: ApiMetrics): (s: Severity)
    ensures s != Low
    ensures s == Critical <==>
      (rule.condition == ErrorRateCondition && m.totalRequests > 0 && m.failedRequests as real / m.totalRequests as real > 0.5)
    ensures s == High <==> rule.condition == ResponseTimeCondition && m.averageLatency > 10000.0
  {
    if rule.condition == ErrorRateCondition && m.totalRequests > 0 && m.failedRequests as real / m.totalRequests as real > 0.5 then Critical
    else if rule.condition == ResponseTimeCondition && m.averageLatency > 10000.0 then High
    else Medium
  }

  /** hasActiveAlert: an unresolved alert of the rule for the endpoint raised less than five minutes ago. */
  predicate HasActiveAlert(alerts: seq<Alert>, ruleId: string, endpoint: string, now: int)
  {
    exists i :: 0 <= i < |alerts| && alerts[i].ruleId == ruleId && alerts[i].endpoint == endpoint &&
      !alerts[i].resolved && now - alerts[i].timestamp < RecentMs
  }

  function AlertId(n: nat): string { "alert_" + NatToString(n) }

  function RuleId(n: nat): string { "rule_" + NatToString(n) }

  function CallId(n: nat): string { "call_" + NatToString(n) }

  /** The alert state: the alerts and the next identifier. */
  datatype AlertState = AlertState(alerts: seq<Alert>, nextId: nat)

  /**
   * One rule checked for one endpoint (the body of checkAlertsForEndpoint's
   * loop): an enabled rule covering the endpoint that fires and has no
   * active alert raises one (triggerAlert), and the alert history is cut
   * to the newest `maxAlerts`.
   */
  function CheckRule(rule: AlertRule, st: AlertState, calls: seq<ApiCall>, endpoint: string, now: int,
                     startTime: int, maxAlerts: int): (r: AlertState)
    ensures r == st || r.nextId == st.nextId + 1
  {
    if rule.enabled && endpoint in rule.endpoints &&
       RuleFires(rule, EndpointMetrics(calls, endpoint, now, rule.duration, startTime)) &&
       !HasActiveAlert(st.alerts, rule.id, endpoint, now)
    then
      var severity := SeverityFor(rule, EndpointMetrics(calls, endpoint, now, HourMs, startTime));
      var alert := Alert(AlertId(st.nextId), rule.id, endpoint, rule.name + " triggered for " + endpoint,
        severity, now, false, None);
      AlertState(KeepNewest(st.alerts + [alert], maxAlerts), st.nextId + 1)
    else st
  }

  /** checkAlertsForEndpoint: every rule checked in order. */
  function CheckRules(rules: seq<AlertRule>, st: AlertState, calls: seq<ApiCall>, endpoint: string, now: int,
                      startTime: int, maxAlerts: int): (r: AlertState)
    ensures maxAlerts >= 1 && |st.alerts| <= maxAlerts ==> |r.alerts| <= maxAlerts
  {
    if rules == [] then st
    else
      var next := CheckRule(rules[0], st, calls, endpoint, now, startTime, maxAlerts);
      CheckedBound(rules[0], st, calls, endpoint, now, startTime, maxAlerts);
      CheckRules(rules[1..], next, calls, endpoint, now, startTime, maxAlerts)
  }

  lemma CheckedBound(rule: AlertRule, st: AlertState, calls: seq<ApiCall>, endpoint: string, now: int,
                     startTime: int, maxAlerts: int)
    ensures maxAlerts >= 1 && |st.alerts| <= maxAlerts ==>
      |CheckRule(rule, st, calls, endpoint, now, startTime, maxAlerts).alerts| <= maxAlerts
  {
    var r := CheckRule(rule, st, calls, endpoint, now, startTime, maxAlerts);
    if r != st {
      var alert := Alert(AlertId(st.nextId), rule.id, endpoint, rule.name + " triggered for " + endpoint,
        SeverityFor(rule, EndpointMetrics(calls, endpoint, now, HourMs, startTime)), now, false, None);
      KeepNewestBound(st.alerts + [alert], maxAlerts);
    }
  }

  /**
   * After a rule is checked, a relevant rule that fires has an active alert
   * for the endpoint, so checking it again at once raises nothing more.
   */
  lemma CheckRuleIdempotent(rule: AlertRule, st: AlertState, calls: seq<ApiCall>, endpoint: string, now: int,
                            startTime: int, maxAlerts: int)
    requires maxAlerts >= 1
    ensures var r := CheckRule(rule, st, calls, endpoint, now, startTime, maxAlerts);
      rule.enabled && endpoint in rule.endpoints &&
      RuleFires(rule, EndpointMetrics(calls, endpoint, now, rule.duration, startTime)) ==>
      HasActiveAlert(r.alerts, rule.id, endpoint, now)
    ensures var r := CheckRule(rule, st, calls, endpoint, now, startTime, maxAlerts);
      CheckRule(rule, r, calls, endpoint, now, startTime, maxAlerts) == r
  {
    var r := CheckRule(rule, st, calls, endpoint, now, startTime, maxAlerts);
    if r != st {
      var alert := Alert(AlertId(st.nextId), rule.id, endpoint, rule.name + " triggered for " + endpoint,
        SeverityFor(rule, EndpointMetrics(calls, endpoint, now, HourMs, startTime)), now, false, None);
      KeepNewestFacts(st.alerts + [alert], maxAlerts);
      assert r.alerts[|r.alerts| - 1] == alert;
    }
  }

  lemma CheckRulesStep(rules: seq<AlertRule>, i: nat, st: AlertState, calls: seq<ApiCall>, endpoint: string, now: int,
                       startTime: int, maxAlerts: int)
    requires i < |rules|
    ensures CheckRules(rules[i..], st, calls, endpoint, now, startTime, maxAlerts) ==
      CheckRules(rules[i + 1..], CheckRule(rules[i], st, calls, endpoint, now, startTime, maxAlerts), calls, endpoint, now,
        startTime, maxAlerts)
  {
    assert rules[i..][0] == rules[i] && rules[i..][1..] == rules[i + 1..];
  }

  /** checkAlerts: every monitored endpoint checked in turn. */
  function CheckEndpoints(endpoints: seq<string>, rules: seq<AlertRule>, st: AlertState, calls: seq<ApiCall>,
                          now: int, startTime: int, maxAlerts: int): (r: AlertState)
    ensures maxAlerts >= 1 && |st.alerts| <= maxAlerts ==> |r.alerts| <= maxAlerts
  {
    if endpoints == [] then st
    else CheckEndpoints(endpoints[1..], rules, CheckRules(rules, st, calls, endpoints[0], now, startTime, maxAlerts),
      calls, now, startTime, maxAlerts)
  }

  /** getActiveAlerts: the unresolved alerts, in order. */
  function ActiveAlerts(alerts: seq<Alert>): (r: seq<Alert>)
    ensures |r| <= |alerts|
  {
    if alerts == [] then []
    else (if alerts[0].resolved then [] else [alerts[0]]) + ActiveAlerts(alerts[1..])
  }

  /** The active alerts keep their order, and each unresolved alert as often as it is stored. */
  lemma {:induction false} ActiveAlertsKeeps(alerts: seq<Alert>)
    ensures Sublist(ActiveAlerts(alerts), alerts)
    ensures forall a :: multiset(ActiveAlerts(alerts))[a] == if a.resolved then 0 else multiset(alerts)[a]
  {
    if alerts != [] {
      ActiveAlertsKeeps(alerts[1..]);
      assert alerts == [alerts[0]] + alerts[1..];
      var rest := ActiveAlerts(alerts[1..]);
      if !alerts[0].resolved {
        assert ActiveAlerts(alerts) == [alerts[0]] + rest;
        assert ([alerts[0]] + rest)[1..] == rest;
      } else {
        assert ActiveAlerts(alerts) == rest;
        if rest != [] {
          assert multiset(rest)[rest[0]] > 0;
          assert rest[0] != alerts[0];
        }
      }
    }
  }

  lemma {:induction false} ActiveAlertsIff(alerts: seq<Alert>)
    ensures forall a :: a in ActiveAlerts(alerts) <==> a in alerts && !a.resolved
  {
    if alerts != [] {
      ActiveAlertsIff(alerts[1..]);
      assert alerts == [alerts[0]] + alerts[1..];
    }
  }

  /** Resolving one unresolved alert makes the active list one shorter. */
  lemma {:induction false} ResolveShrinksActive(alerts: seq<Alert>, i: nat, a: Alert)
    requires i < |alerts| && !alerts[i].resolved && a.resolved
    ensures |ActiveAlerts(alerts[i := a])| == |ActiveAlerts(alerts)| - 1
  {
    if i > 0 {
      ResolveShrinksActive(alerts[1..], i - 1, a);
      assert alerts[i := a][1..] == alerts[1..][i - 1 := a];
    } else {
      assert alerts[i := a][1..] == alerts[1..];
    }
  }

  /** The first index holding `id`, as `find` / `findIndex` look it up. */
  function FirstAlert(alerts: seq<Alert>, id: string): (r: Option<nat>)
    ensures r.Some? ==> r.value < |alerts| && alerts[r.value].id == id
    ensures r.Some? ==> forall j :: 0 <= j < r.value ==> alerts[j].id != id
    ensures r.None? ==> forall j :: 0 <= j < |alerts| ==> alerts[j].id != id
  {
    if alerts == [] then None
    else if alerts[0].id == id then Some(0)
    else match FirstAlert(alerts[1..], id)
      case None => None
      case Some(k) => Some(k + 1)
  }

  function FirstRule(rules: seq<AlertRule>, id: string): (r: Option<nat>)
    ensures r.Some? ==> r.value < |rules| && rules[r.value].id == id
    ensures r.Some? ==> forall j :: 0 <= j < r.value ==> rules[j].id != id
    ensures r.None? ==> forall j :: 0 <= j < |rules| ==> rules[j].id != id
  {
    if rules == [] then None
    else if rules[0].id == id then Some(0)
    else match FirstRule(rules[1..], id)
      case None => None
      case Some(k) => Some(k + 1)
  }

  /** The rules setupDefaultAlerts installs (before they get their identifiers). */
  const HighErrorRate := AlertRule("", "High Error Rate", ErrorRateCondition, 0.1, 300000, true, MonitoredEndpoints)
  const SlowResponseTime := AlertRule("", "Slow Response Time", ResponseTimeCondition, 5000.0, 300000, true,
    ["dictionary", "translate"])

  /** A 5xx (500 or 503) or a network error is checked for alerts as soon as it is recorded. */
  predicate TriggersImmediateCheck(c: ApiCall)
  {
    c.status == Some(500) || c.status == Some(503) || c.errorType == Some(NetworkError)
  }

  // ---- the service ------------------------------------------------------

  /** Both histories stay within their configured bounds (a bound below 1 bounds nothing). */
  predicate WithinBounds(calls: seq<ApiCall>, alerts: seq<Alert>, config: MonitoringConfig)
  {
    && (config.maxStoredCalls >= 1 ==> |calls| <= config.maxStoredCalls)
    && (config.maxStoredAlerts >= 1 ==> |alerts| <= config.maxStoredAlerts)
  }

  class Monitor {
    const config: MonitoringConfig
    const sessionId: string
    const startTime: int
    var calls: seq<ApiCall>
    var alerts: seq<Alert>
    var alertRules: seq<AlertRule>
    var nextId: nat

    predicate Valid()
      reads this
    {
      WithinBounds(calls, alerts, config)
    }

    /** An enabled monitor starts with the two default alert rules. */
    constructor(config: MonitoringConfig, sessionId: string, now: int)
      ensures Valid()
      ensures this.config == config && this.sessionId == sessionId && startTime == now
      ensures calls == [] && alerts == []
      ensures config.enabled ==> alertRules == [HighErrorRate.(id := RuleId(0)), SlowResponseTime.(id := RuleId(1))] && nextId == 2
      ensures !config.enabled ==> alertRules == [] && nextId == 0
    {
      this.config, this.sessionId, startTime := config, sessionId, now;
      calls, alerts := [], [];
      if config.enabled {
        alertRules := [HighErrorRate.(id := RuleId(0)), SlowResponseTime.(id := RuleId(1))];
        nextId := 2;
      } else {
        alertRules := [];
        nextId := 0;
      }
    }

    /**
     * recordApiCall: unless disabled or sampled out (`draw` is the random
     * draw), the call is stamped with an identifier and the session and
     * appended, the history is cut to the newest maxStoredCalls, and a
     * failure of a critical kind triggers the alert check for its endpoint.
     */
    method RecordApiCall(call: ApiCall, draw: real, now: int)
      requires Valid()
      modifies this
      ensures Valid()
      ensures !config.enabled || draw > config.sampleRate ==>
        calls == old(calls) && alerts == old(alerts) && nextId == old(nextId)
      ensures config.enabled && draw <= config.sampleRate ==>
        var c := call.(id := CallId(old(nextId)), sessionId := sessionId);
        && calls == KeepNewest(old(calls) + [c], config.maxStoredCalls)
        && (config.maxStoredCalls >= 1 ==> calls[|calls| - 1] == c)
        && (!c.success && TriggersImmediateCheck(c) ==>
             AlertState(alerts, nextId) ==
             CheckRules(alertRules, AlertState(old(alerts), old(nextId) + 1), calls, c.endpoint, now, startTime, config.maxStoredAlerts))
        && (!(!c.success && TriggersImmediateCheck(c)) ==> alerts == old(alerts) && nextId == old(nextId) + 1)
      ensures alertRules == old(alertRules)
    {
      if !config.enabled || draw > config.sampleRate {
        return;
      }
      var c := call.(id := CallId(nextId), sessionId := sessionId);
      nextId := nextId + 1;
      KeepNewestFacts(calls + [c], config.maxStoredCalls);
      calls := KeepNewest(calls + [c], config.maxStoredCalls);
      if !c.success && TriggersImmediateCheck(c) {
        CheckAlertsForEndpoint(c.endpoint, now);
      }
    }

    /** checkAlertsForEndpoint */
    method CheckAlertsForEndpoint(endpoint: string, now: int)
      requires Valid()
      modifies this
      ensures Valid()
      ensures AlertState(alerts, nextId) ==
        CheckRules(alertRules, AlertState(old(alerts), old(nextId)), calls, endpoint, now, startTime, config.maxStoredAlerts)
      ensures calls == old(calls) && alertRules == old(alertRules)
    {
      var pending, id := alerts, nextId;
      var i := 0;
      while i < |alertRules|
        invariant 0 <= i <= |alertRules|
        invariant WithinBounds(calls, pending, config)
        invariant CheckRules(alertRules[i..], AlertState(pending, id), calls, endpoint, now, startTime, config.maxStoredAlerts) ==
          CheckRules(alertRules, AlertState(alerts, nextId), calls, endpoint, now, startTime, config.maxStoredAlerts)
        invariant unchanged(this)
      {
        var rule := alertRules[i];
        ghost var before := AlertState(pending, id);
        CheckRulesStep(alertRules, i, before, calls, endpoint, now, startTime, config.maxStoredAlerts);
        CheckedBound(rule, before, calls, endpoint, now, startTime, config.maxStoredAlerts);
        if rule.enabled && endpoint in rule.endpoints {
          var shouldAlert := RuleFires(rule, EndpointMetrics(calls, endpoint, now, rule.duration, startTime));
          if shouldAlert && !HasActiveAlert(pending, rule.id, endpoint, now) {
            var severity := SeverityFor(rule, EndpointMetrics(calls, endpoint, now, HourMs, startTime));
            var alert := Alert(AlertId(id), rule.id, endpoint, rule.name + " triggered for " + endpoint,
              severity, now, false, None);
            pending := KeepNewest(pending + [alert], config.maxStoredAlerts);
            id := id + 1;
          }
        }
        assert AlertState(pending, id) == CheckRule(rule, before, calls, endpoint, now, startTime, config.maxStoredAlerts);
        i := i + 1;
      }
      alerts, nextId := pending, id;
    }

    /** checkAlerts: the periodic check over the monitored endpoints. */
    method CheckAlerts(now: int)
      requires Valid()
      modifies this
      ensures Valid()
      ensures AlertState(alerts, nextId) ==
        CheckEndpoints(MonitoredEndpoints, alertRules, AlertState(old(alerts), old(nextId)), calls, now, startTime, config.maxStoredAlerts)
      ensures calls == old(calls) && alertRules == old(alertRules)
    {
      var i := 0;
      while i < |MonitoredEndpoints|
        invariant 0 <= i <= |MonitoredEndpoints|
        invariant Valid()
        invariant CheckEndpoints(MonitoredEndpoints[i..], alertRules, AlertState(alerts, nextId), calls, now, startTime, config.maxStoredAlerts) ==
          CheckEndpoints(MonitoredEndpoints, alertRules, AlertState(old(alerts), old(nextId)), calls, now, startTime, config.maxStoredAlerts)
        invariant calls == old(calls) && alertRules == old(alertRules)
      {
        assert MonitoredEndpoints[i..][1..] == MonitoredEndpoints[i + 1..];
        CheckAlertsForEndpoint(MonitoredEndpoints[i], now);
        i := i + 1;
      }
    }

    /** getEndpointMetrics */
    function GetEndpointMetrics(endpoint: string, now: int, window: int): (m: ApiMetrics)
      reads this
      ensures m == EndpointMetrics(calls, endpoint, now, window, startTime)
    {
      EndpointMetrics(calls, endpoint, now, window, startTime)
    }

    /**
     * getEndpointHealth: one-hour metrics, percentiles over the last five
     * minutes' durations sorted ascending, the status rule, the uptime, the
     * latest recent failure and three trends.
     */
    method GetEndpointHealth(endpoint: string, now: int) returns (h: EndpointHealth)
      ensures var m := EndpointMetrics(calls, endpoint, now, HourMs, startTime);
        && h.endpoint == endpoint
        && h.responseTime.avg == m.averageLatency
        && h.errorRate == ErrorRate(m) && 0.0 <= h.errorRate <= 1.0
        && h.status == StatusFor(h.errorRate, h.responseTime.avg)
        && h.uptime == Uptime(calls, endpoint, now)
      ensures var sorted := SortAsc(Durations(InWindow(calls, endpoint, now, RecentMs)));
        && h.responseTime.p50 == Percentile(sorted, 0.5)
        && h.responseTime.p95 == Percentile(sorted, 0.95)
        && h.responseTime.p99 == Percentile(sorted, 0.99)
      ensures h.responseTime.p50 <= h.responseTime.p95 <= h.responseTime.p99
      ensures h.lastError == LastErrorOf(InWindow(calls, endpoint, now, RecentMs))
      ensures |h.hour| == 12 && |h.day| == 24 && |h.week| == 7
    {
      var m := EndpointMetrics(calls, endpoint, now, HourMs, startTime);
      var recent := InWindow(calls, endpoint, now, RecentMs);
      var latencies := SortAsc(Durations(recent));
      PercentileMonotone(latencies, 0.5, 0.95);
      PercentileMonotone(latencies, 0.95, 0.99);
      var responseTime := ResponseTime(m.averageLatency, Percentile(latencies, 0.5), Percentile(latencies, 0.95),
        Percentile(latencies, 0.99));
      var errorRate := ErrorRate(m);
      var status := StatusFor(errorRate, responseTime.avg);
      var uptime := Uptime(calls, endpoint, now);
      var hour := Trend(calls, endpoint, now, HourMs, 12);
      var day := Trend(calls, endpoint, now, DayMs, 24);
      var week := Trend(calls, endpoint, now, WeekMs, 7);
      h := EndpointHealth(endpoint, status, uptime, responseTime, errorRate, LastErrorOf(recent), hour, day, week);
    }

    /** getSystemHealth: the four monitored endpoints and the overall 75% verdict. */
    method GetSystemHealth(now: int) returns (s: SystemHealth)
      ensures s.overallHealthy <==> HealthyCount([s.dictionary, s.translate, s.unsplash, s.pexels]) >= 3
      ensures 0.0 <= s.score <= 1.0
      ensures s.dictionary.healthy <==>
        StatusFor(ErrorRate(EndpointMetrics(calls, "dictionary", now, HourMs, startTime)),
          EndpointMetrics(calls, "dictionary", now, HourMs, startTime).averageLatency) == Healthy
    {
      var d := GetEndpointHealth("dictionary", now);
      var t := GetEndpointHealth("translate", now);
      var u := GetEndpointHealth("unsplash", now);
      var p := GetEndpointHealth("pexels", now);
      s := Overall(ToApiHealthStatus(d, now), ToApiHealthStatus(t, now), ToApiHealthStatus(u, now),
        ToApiHealthStatus(p, now), now);
    }

    /** addAlertRule: the rule gets a fresh identifier and is appended. */
    method AddAlertRule(rule: AlertRule) returns (id: string)
      modifies this
      ensures id == RuleId(old(nextId)) && nextId == old(nextId) + 1
      ensures alertRules == old(alertRules) + [rule.(id := id)]
      ensures calls == old(calls) && alerts == old(alerts)
    {
      id := RuleId(nextId);
      nextId := nextId + 1;
      alertRules := alertRules + [rule.(id := id)];
    }

    /** removeAlertRule: the first rule with the identifier is removed; false when there is none. */
    method RemoveAlertRule(ruleId: string) returns (removed: bool)
      modifies this
      ensures removed <==> exists j :: 0 <= j < |old(alertRules)| && old(alertRules)[j].id == ruleId
      ensures removed ==> var i := FirstRule(old(alertRules), ruleId).value;
        alertRules == old(alertRules)[..i] + old(alertRules)[i + 1..]
      ensures !removed ==> alertRules == old(alertRules)
      ensures calls == old(calls) && alerts == old(alerts) && nextId == old(nextId)
    {
      match FirstRule(alertRules, ruleId)
      case None =>
        return false;
      case Some(i) =>
        alertRules := alertRules[..i] + alertRules[i + 1..];
        return true;
    }

    /** getActiveAlerts */
    function GetActiveAlerts(): (r: seq<Alert>)
      reads this
      ensures forall a :: a in r <==> a in alerts && !a.resolved
    {
      ActiveAlertsIff(alerts);
      ActiveAlerts(alerts)
    }

    /**
     * resolveAlert: the first alert with the identifier, when it is still
     * unresolved, becomes resolved at `now`; otherwise nothing changes and
     * the answer is false.
     */
    method ResolveAlert(alertId: string, now: int) returns (ok: bool)
      requires Valid()
      modifies this
      ensures Valid()
      ensures var f := FirstAlert(old(alerts), alertId);
        ok <==> f.Some? && !old(alerts)[f.value].resolved
      ensures ok ==> var i := FirstAlert(old(alerts), alertId).value;
        alerts == old(alerts)[i := old(alerts)[i].(resolved := true, resolvedAt := Some(now))]
        && |ActiveAlerts(alerts)| == |ActiveAlerts(old(alerts))| - 1
      ensures !ok ==> alerts == old(alerts)
      ensures calls == old(calls) && alertRules == old(alertRules) && nextId == old(nextId)
    {
      match FirstAlert(alerts, alertId)
      case None =>
        return false;
      case Some(i) =>
        if alerts[i].resolved {
          return false;
        }
        var a := alerts[i].(resolved := true, resolvedAt := Some(now));
        ResolveShrinksActive(alerts, i, a);
        alerts := alerts[i := a];
        return true;
    }
  }
}
