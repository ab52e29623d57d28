/**
 * The front end's performance monitor: render tracking per component,
 * slow-render issues, the global performance score, bundle-size warnings,
 * error tracking, the error/performance correlation report and age-based
 * cleanup. The two clocks the monitor reads (`performance.now()`, in
 * milliseconds since page load, and `Date.now()`, in epoch milliseconds)
 * and the browser's heap reading are parameters.
 */
module PerfMonitor {
  import opened Util

  datatype IssueType = SlowRender | MemoryLeak | BundleSize | ErrorRate
  datatype Severity = Low | Medium | High | Critical

  datatype PerformanceIssue = PerformanceIssue(
    issueType: IssueType,
    component: string,
    duration: Option<real>,
    severity: Severity,
    timestamp: int)

  datatype PerformanceMetrics = PerformanceMetrics(
    renderTime: real, startTime: real, endTime: real, memoryAtStart: nat, memoryAtEnd: nat)

  datatype BundleMetrics = BundleMetrics(size: int, loadTime: real, timestamp: int)

  datatype WarningType = BundleSizeExceeded | MemoryHigh | RenderSlow

  datatype PerformanceWarning = PerformanceWarning(
    warningType: WarningType, bundle: string, size: int, limit: int, timestamp: int)

  datatype ErrorInfo = ErrorInfo(component: string, error: string, timestamp: int, stack: string)

  datatype CorrelationLevel = LowCorrelation | MediumCorrelation | HighCorrelation

  datatype PerformanceCorrelation = PerformanceCorrelation(
    component: string, hasPerformanceIssue: bool, hasError: bool, correlation: CorrelationLevel)

  /** `performance.memory`, in bytes. */
  datatype HeapReading = HeapReading(usedJSHeapSize: nat, totalJSHeapSize: nat, jsHeapSizeLimit: nat)

  const SlowRenderThreshold: real := 100.0
  const CriticalRenderThreshold: real := 1000.0
  const MaxBundleSize: int := 500000
  const HighMemoryThreshold: real := 0.8
  const CriticalMemoryThreshold: real := 0.89
  const DefaultMaxAge: int := 300000
  const NoStackTrace: string := "No stack trace available"

  /** Browsers without `performance.memory` report an all-zero heap. */
  function HeapOf(memory: Option<HeapReading>): (h: HeapReading)
    ensures memory.Some? ==> h == memory.value
    ensures memory.None? ==> h.usedJSHeapSize == 0 && h.totalJSHeapSize == 0
  {
    if memory.Some? then memory.value else HeapReading(0, 0, 0)
  }

  // ---------------------------------------------------------------------------
  // Slow renders (checkForIssues)
  // ---------------------------------------------------------------------------

  /** The issue a finished render raises, if any. */
  function RenderIssue(component: string, renderTime: real, now: int): (r: Option<PerformanceIssue>)
    ensures r.Some? <==> renderTime > SlowRenderThreshold
    ensures r.Some? ==> r.value.issueType == SlowRender && r.value.component == component
    ensures r.Some? ==> r.value.duration == Some(renderTime) && r.value.timestamp == now
    ensures r.Some? ==> (r.value.severity == Critical <==> renderTime > CriticalRenderThreshold)
    ensures r.Some? ==> (r.value.severity == Medium <==> renderTime <= CriticalRenderThreshold)
  {
    if renderTime > CriticalRenderThreshold then
      Some(PerformanceIssue(SlowRender, component, Some(renderTime), Critical, now))
    else if renderTime > SlowRenderThreshold then
      Some(PerformanceIssue(SlowRender, component, Some(renderTime), Medium, now))
    else
      None
  }

  /** The issue list after `checkForIssues`: at most one issue more. */
  function WithRenderIssue(issues: seq<PerformanceIssue>, component: string, renderTime: real, now: int)
    : (r: seq<PerformanceIssue>)
    ensures |r| == |issues| + (if renderTime > SlowRenderThreshold then 1 else 0)
    ensures r[..|issues|] == issues
  {
    var found := RenderIssue(component, renderTime, now);
    if found.Some? then issues + [found.value] else issues
  }

  // ---------------------------------------------------------------------------
  // The performance score (getPerformanceScore)
  // ---------------------------------------------------------------------------

  function Penalty(s: Severity): (p: nat)
    ensures 5 <= p <= 30
  {
    match s
    case Critical => 30
    case High => 20
    case Medium => 10
    case Low => 5
  }

  /** The severity penalties of all issues, in list order. */
  function Penalties(issues: seq<PerformanceIssue>): (p: nat)
  {
    if issues == [] then 0
    else Penalties(issues[..|issues| - 1]) + Penalty(issues[|issues| - 1].severity)
  }

  lemma {:induction false} PenaltiesAtLeast(issues: seq<PerformanceIssue>)
    ensures Penalties(issues) >= 5 * |issues|
    ensures Penalties(issues) <= 30 * |issues|
  {
    if issues != [] {
      PenaltiesAtLeast(issues[..|issues| - 1]);
    }
  }

  lemma PenaltiesSnoc(issues: seq<PerformanceIssue>, i: PerformanceIssue)
    ensures Penalties(issues + [i]) == Penalties(issues) + Penalty(i.severity)
  {
    assert (issues + [i])[..|issues|] == issues;
  }

  /**
   * The heap penalty. `used / total` is NaN for an all-zero heap, so no
   * threshold is passed, and +Infinity for a zero total with a used heap, so
   * both are.
   */
  function MemoryPenalty(h: HeapReading): (p: nat)
    ensures p == 0 || p == 15 || p == 25
    ensures h.totalJSHeapSize > 0 ==>
              (p == 25 <==> h.usedJSHeapSize as real > CriticalMemoryThreshold * h.totalJSHeapSize as real)
    ensures h.totalJSHeapSize > 0 ==>
              (p == 0 <==> h.usedJSHeapSize as real <= HighMemoryThreshold * h.totalJSHeapSize as real)
    ensures h.totalJSHeapSize == 0 ==> (p == 25 <==> h.usedJSHeapSize > 0) && p != 15
  {
    if h.totalJSHeapSize == 0 then
      (if h.usedJSHeapSize > 0 then 25 else 0)
    else
      var usage := h.usedJSHeapSize as real / h.totalJSHeapSize as real;
      UsageScaled(h.usedJSHeapSize as real, h.totalJSHeapSize as real, CriticalMemoryThreshold);
      UsageScaled(h.usedJSHeapSize as real, h.totalJSHeapSize as real, HighMemoryThreshold);
      if usage > CriticalMemoryThreshold then 25
      else if usage > HighMemoryThreshold then 15
      else 0
  }

  lemma UsageScaled(used: real, total: real, t: real)
    requires total > 0.0
    ensures used / total > t <==> used > t * total
  {
    assert used == (used / total) * total;
  }

  /** The global score: 100 less every penalty, floored at 0. */
  function PerformanceScore(issues: seq<PerformanceIssue>, h: HeapReading): (score: int)
    ensures 0 <= score <= 100
    ensures score == 100 <==> issues == [] && MemoryPenalty(h) == 0
    ensures score == 0 <==> Penalties(issues) + MemoryPenalty(h) >= 100
    ensures score > 0 ==> score == 100 - Penalties(issues) - MemoryPenalty(h)
  {
    PenaltiesAtLeast(issues);
    MaxInt(0, 100 - Penalties(issues) - MemoryPenalty(h))
  }

  /** One issue more costs its penalty, never more, and the floor still holds. */
  lemma ScoreWithIssue(issues: seq<PerformanceIssue>, i: PerformanceIssue, h: HeapReading)
    ensures PerformanceScore(issues + [i], h) == MaxInt(0, PerformanceScore(issues, h) - Penalty(i.severity))
    ensures PerformanceScore(issues + [i], h) <= PerformanceScore(issues, h)
  {
    PenaltiesSnoc(issues, i);
  }

  /** More heap in use, out of the same total, never lowers the penalty. */
  lemma MemoryPenaltyMonotone(h: HeapReading, g: HeapReading)
    requires h.totalJSHeapSize == g.totalJSHeapSize && h.usedJSHeapSize <= g.usedJSHeapSize
    ensures MemoryPenalty(h) <= MemoryPenalty(g)
  {
    if h.totalJSHeapSize > 0 {
      var t := h.totalJSHeapSize as real;
      assert CriticalMemoryThreshold * t > HighMemoryThreshold * t;
    }
  }

  // ---------------------------------------------------------------------------
  // Bundles, errors
  // ---------------------------------------------------------------------------

  /** The warning a loaded bundle raises, if any. */
  function BundleWarning(bundle: string, size: int, now: int): (r: Option<PerformanceWarning>)
    ensures r.Some? <==> size > MaxBundleSize
    ensures r.Some? ==> r.value == PerformanceWarning(BundleSizeExceeded, bundle, size, MaxBundleSize, now)
  {
    if size > MaxBundleSize then Some(PerformanceWarning(BundleSizeExceeded, bundle, size, MaxBundleSize, now))
    else None
  }

  /** `error.stack || default`: a missing or empty stack becomes the default text. */
  function StackOrDefault(stack: Option<string>): (r: string)
    ensures r != []
    ensures stack.Some? && stack.value != [] ==> r == stack.value
  {
    if stack.Some? && stack.value != [] then stack.value else NoStackTrace
  }

  /** The issue every tracked error adds. */
  function ErrorIssue(component: string, now: int): (r: PerformanceIssue)
    ensures r.issueType == ErrorRate && r.severity == High && r.component == component
    ensures r.duration.None? && r.timestamp == now
  {
    PerformanceIssue(ErrorRate, component, None, High, now)
  }

  /** A tracked error costs 20 points, floored at 0. */
  lemma ErrorLowersScore(issues: seq<PerformanceIssue>, component: string, now: int, h: HeapReading)
    ensures PerformanceScore(issues + [ErrorIssue(component, now)], h)
            == MaxInt(0, PerformanceScore(issues, h) - 20)
  {
    ScoreWithIssue(issues, ErrorIssue(component, now), h);
  }

  // ---------------------------------------------------------------------------
  // Correlations (getPerformanceErrorCorrelations)
  // ---------------------------------------------------------------------------

  function IssueComponents(issues: seq<PerformanceIssue>): (r: seq<string>)
    ensures |r| == |issues|
    ensures forall i :: 0 <= i < |issues| ==> r[i] == issues[i].component
  {
    seq(|issues|, i requires 0 <= i < |issues| => issues[i].component)
  }

  function ErrorComponents(errors: seq<ErrorInfo>): (r: seq<string>)
    ensures |r| == |errors|
    ensures forall i :: 0 <= i < |errors| ==> r[i] == errors[i].component
  {
    seq(|errors|, i requires 0 <= i < |errors| => errors[i].component)
  }

  function Level(hasIssue: bool, hasError: bool): (l: CorrelationLevel)
    ensures l == HighCorrelation <==> hasIssue && hasError
    ensures l == MediumCorrelation <==> hasIssue != hasError
    ensures l == LowCorrelation <==> !hasIssue && !hasError
  {
    if hasIssue && hasError then HighCorrelation
    else if hasIssue || hasError then MediumCorrelation
    else LowCorrelation
  }

  /** The report line of one component. */
  function CorrelationOf(component: string, issues: seq<PerformanceIssue>, errors: seq<ErrorInfo>)
    : (r: PerformanceCorrelation)
    ensures r.component == component
    ensures r.hasPerformanceIssue <==> exists i :: 0 <= i < |issues| && issues[i].component == component
    ensures r.hasError <==> exists i :: 0 <= i < |errors| && errors[i].component == component
    ensures r.correlation == HighCorrelation <==> r.hasPerformanceIssue && r.hasError
    ensures r.correlation == MediumCorrelation <==> r.hasPerformanceIssue != r.hasError
  {
    var hasIssue := component in IssueComponents(issues);
    var hasError := component in ErrorComponents(errors);
    PerformanceCorrelation(component, hasIssue, hasError, Level(hasIssue, hasError))
  }

  /**
   * The components a report covers: every component with metrics, in the
   * order they were first measured, then every component with an error, each
   * once.
   */
  function ReportedComponents(measured: seq<string>, errors: seq<ErrorInfo>): (r: seq<string>)
    ensures forall c :: c in r <==> c in measured || c in ErrorComponents(errors)
  {
    Dedup(measured + ErrorComponents(errors))
  }

  lemma ReportedComponentsDistinct(measured: seq<string>, errors: seq<ErrorInfo>)
    ensures Distinct(ReportedComponents(measured, errors))
  {
    DedupDistinct(measured + ErrorComponents(errors));
  }

  // ---------------------------------------------------------------------------
  // Cleanup
  // ---------------------------------------------------------------------------

  /** `!issue.timestamp || issue.timestamp > cutoff`: a zero timestamp is falsy and kept. */
  predicate IssueKept(i: PerformanceIssue, cutoff: int)
  {
    i.timestamp == 0 || i.timestamp > cutoff
  }

  function KeepIssues(s: seq<PerformanceIssue>, cutoff: int): (r: seq<PerformanceIssue>)
    ensures |r| <= |s|
  {
    if s == [] then []
    else (if IssueKept(s[0], cutoff) then [s[0]] else []) + KeepIssues(s[1..], cutoff)
  }

  function KeepWarnings(s: seq<PerformanceWarning>, cutoff: int): (r: seq<PerformanceWarning>)
    ensures |r| <= |s|
  {
    if s == [] then []
    else (if s[0].timestamp > cutoff then [s[0]] else []) + KeepWarnings(s[1..], cutoff)
  }

  function KeepErrors(s: seq<ErrorInfo>, cutoff: int): (r: seq<ErrorInfo>)
    ensures |r| <= |s|
  {
    if s == [] then []
    else (if s[0].timestamp > cutoff then [s[0]] else []) + KeepErrors(s[1..], cutoff)
  }

  /** An issue survives cleanup exactly when it carries no timestamp or a newer one. */
  lemma {:induction false} KeepIssuesIff(s: seq<PerformanceIssue>, cutoff: int, x: PerformanceIssue)
    ensures x in KeepIssues(s, cutoff) <==> x in s && IssueKept(x, cutoff)
  {
    if s != [] {
      KeepIssuesIff(s[1..], cutoff, x);
      assert x in s <==> x == s[0] || x in s[1..];
    }
  }

  lemma {:induction false} KeepWarningsIff(s: seq<PerformanceWarning>, cutoff: int, x: PerformanceWarning)
    ensures x in KeepWarnings(s, cutoff) <==> x in s && x.timestamp > cutoff
  {
    if s != [] {
      KeepWarningsIff(s[1..], cutoff, x);
      assert x in s <==> x == s[0] || x in s[1..];
    }
  }

  lemma {:induction false} KeepErrorsIff(s: seq<ErrorInfo>, cutoff: int, x: ErrorInfo)
    ensures x in KeepErrors(s, cutoff) <==> x in s && x.timestamp > cutoff
  {
    if s != [] {
      KeepErrorsIff(s[1..], cutoff, x);
      assert x in s <==> x == s[0] || x in s[1..];
    }
  }

  /** A second cleanup with the same cutoff removes nothing more. */
  lemma {:induction false} KeepIssuesIdempotent(s: seq<PerformanceIssue>, cutoff: int)
    ensures KeepIssues(KeepIssues(s, cutoff), cutoff) == KeepIssues(s, cutoff)
  {
    if s != [] {
      KeepIssuesIdempotent(s[1..], cutoff);
      var t := KeepIssues(s[1..], cutoff);
      if IssueKept(s[0], cutoff) {
        assert KeepIssues(s, cutoff) == [s[0]] + t;
        assert ([s[0]] + t)[0] == s[0] && ([s[0]] + t)[1..] == t;
      } else {
        assert KeepIssues(s, cutoff) == [] + t == t;
      }
    }
  }

  /** A list of issues all newer than the cutoff comes through cleanup whole and in order. */
  lemma {:induction false} KeepIssuesAllNewer(s: seq<PerformanceIssue>, cutoff: int)
    requires forall i :: 0 <= i < |s| ==> s[i].timestamp > cutoff
    ensures KeepIssues(s, cutoff) == s
  {
    if s != [] {
      KeepIssuesAllNewer(s[1..], cutoff);
    }
  }

  // ---------------------------------------------------------------------------
  // The monitor
  // ---------------------------------------------------------------------------

  /** Whether `endTracking` finds a start time: a missing one, or a zero (falsy) one, is ignored. */
  predicate Started(active: map<string, real>, component: string)
  {
    component in active && active[component] != 0.0
  }

  class PerformanceMonitor {
    var metrics: map<string, PerformanceMetrics>
    var measuredOrder: seq<string>
    var bundleMetrics: map<string, BundleMetrics>
    var issues: seq<PerformanceIssue>
    var warnings: seq<PerformanceWarning>
    var errors: seq<ErrorInfo>
    var activeTracking: map<string, real>

    /** The metrics map remembers insertion order, kept here beside it. */
    predicate Valid()
      reads this
    {
      OrderOf(measuredOrder, metrics)
    }

    constructor()
      ensures Valid()
      ensures metrics == map[] && measuredOrder == [] && bundleMetrics == map[]
      ensures issues == [] && warnings == [] && errors == [] && activeTracking == map[]
    {
      metrics := map[];
      measuredOrder := [];
      bundleMetrics := map[];
      issues := [];
      warnings := [];
      errors := [];
      activeTracking := map[];
    }

    /** Starts (or restarts) a component's render clock at `clock`. */
    method StartTracking(component: string, clock: real)
      modifies this
      ensures activeTracking == old(activeTracking)[component := clock]
      ensures metrics == old(metrics) && measuredOrder == old(measuredOrder)
      ensures bundleMetrics == old(bundleMetrics) && issues == old(issues)
      ensures warnings == old(warnings) && errors == old(errors)
    {
      activeTracking := activeTracking[component := clock];
    }

    /**
     * Stops a component's render clock at `clock`: without a start nothing
     * changes; otherwise its metrics are recorded, its clock is removed and a
     * slow render raises an issue stamped `now`.
     */
    method EndTracking(component: string, clock: real, now: int, memory: Option<HeapReading>)
      requires Valid()
      modifies this
      ensures Valid()
      ensures !Started(old(activeTracking), component) ==>
                metrics == old(metrics) && activeTracking == old(activeTracking) && issues == old(issues)
      ensures Started(old(activeTracking), component) ==>
                var start := old(activeTracking)[component];
                var used := HeapOf(memory).usedJSHeapSize;
                && metrics == old(metrics)[component := PerformanceMetrics(clock - start, start, clock, used, used)]
                && activeTracking == old(activeTracking) - {component}
                && issues == WithRenderIssue(old(issues), component, clock - start, now)
      ensures measuredOrder == (if Started(old(activeTracking), component)
                                then Remember(old(measuredOrder), component) else old(measuredOrder))
      ensures bundleMetrics == old(bundleMetrics) && warnings == old(warnings) && errors == old(errors)
    {
      if Started(activeTracking, component) {
        var start := activeTracking[component];
        var used := HeapOf(memory).usedJSHeapSize;
        RememberOrder(measuredOrder, metrics, component, PerformanceMetrics(clock - start, start, clock, used, used));
        metrics := metrics[component := PerformanceMetrics(clock - start, start, clock, used, used)];
        measuredOrder := Remember(measuredOrder, component);
        activeTracking := activeTracking - {component};
        issues := WithRenderIssue(issues, component, clock - start, now);
      }
    }

    function GetMetrics(component: string): (r: Option<PerformanceMetrics>)
      reads this
      ensures r.Some? <==> component in metrics
      ensures r.Some? ==> r.value == metrics[component]
    {
      if component in metrics then Some(metrics[component]) else None
    }

    /** Records a loaded bundle; one larger than the limit also raises a warning. */
    method TrackBundleLoad(bundle: string, size: int, clock: real, now: int)
      modifies this
      ensures bundleMetrics == old(bundleMetrics)[bundle := BundleMetrics(size, clock, now)]
      ensures size > MaxBundleSize ==>
                warnings == old(warnings) + [PerformanceWarning(BundleSizeExceeded, bundle, size, MaxBundleSize, now)]
      ensures size <= MaxBundleSize ==> warnings == old(warnings)
      ensures metrics == old(metrics) && measuredOrder == old(measuredOrder) && activeTracking == old(activeTracking)
      ensures issues == old(issues) && errors == old(errors)
    {
      bundleMetrics := bundleMetrics[bundle := BundleMetrics(size, clock, now)];
      var w := BundleWarning(bundle, size, now);
      if w.Some? {
        warnings := warnings + [w.value];
      }
    }

    /** Records an error; every error also counts as a high-severity issue. */
    method TrackError(component: string, message: string, stack: Option<string>, now: int)
      modifies this
      ensures errors == old(errors) + [ErrorInfo(component, message, now, StackOrDefault(stack))]
      ensures issues == old(issues) + [ErrorIssue(component, now)]
      ensures metrics == old(metrics) && measuredOrder == old(measuredOrder) && activeTracking == old(activeTracking)
      ensures bundleMetrics == old(bundleMetrics) && warnings == old(warnings)
    {
      errors := errors + [ErrorInfo(component, message, now, StackOrDefault(stack))];
      issues := issues + [ErrorIssue(component, now)];
    }

    /** The running total over the issues, then the heap penalty and the floor. */
    method GetPerformanceScore(memory: Option<HeapReading>) returns (score: int)
      ensures score == PerformanceScore(issues, HeapOf(memory))
    {
      score := 100;
      var i := 0;
      while i < |issues|
        invariant 0 <= i <= |issues|
        invariant score == 100 - Penalties(issues[..i])
      {
        assert issues[..i + 1][..i] == issues[..i];
        score := score - Penalty(issues[i].severity);
        i := i + 1;
      }
      assert issues[..i] == issues;
      score := score - MemoryPenalty(HeapOf(memory));
      score := MaxInt(0, score);
    }

    /** One report line per reported component, in their order. */
    method GetPerformanceErrorCorrelations() returns (r: seq<PerformanceCorrelation>)
      ensures var names := ReportedComponents(measuredOrder, errors);
              |r| == |names| && forall i :: 0 <= i < |r| ==> r[i] == CorrelationOf(names[i], issues, errors)
    {
      var names := ReportedComponents(measuredOrder, errors);
      r := [];
      var i := 0;
      while i < |names|
        invariant 0 <= i <= |names|
        invariant |r| == i
        invariant forall k :: 0 <= k < i ==> r[k] == CorrelationOf(names[k], issues, errors)
      {
        r := r + [CorrelationOf(names[i], issues, errors)];
        i := i + 1;
      }
    }

    /**
     * Forgets issues, warnings and errors older than `maxAge` milliseconds
     * before `now`; an omitted `maxAge` is `DefaultMaxAge`.
     */
    method Cleanup(maxAge: Option<int>, now: int)
      modifies this
      ensures var cutoff := now - (if maxAge.Some? then maxAge.value else DefaultMaxAge);
              && issues == KeepIssues(old(issues), cutoff)
              && warnings == KeepWarnings(old(warnings), cutoff)
              && errors == KeepErrors(old(errors), cutoff)
      ensures metrics == old(metrics) && measuredOrder == old(measuredOrder) && activeTracking == old(activeTracking)
      ensures bundleMetrics == old(bundleMetrics)
    {
      var cutoff := now - (if maxAge.Some? then maxAge.value else DefaultMaxAge);
      issues := KeepIssues(issues, cutoff);
      warnings := KeepWarnings(warnings, cutoff);
      errors := KeepErrors(errors, cutoff);
    }
  }

  /** A render of 1500 ms is one critical issue and costs 30 points. */
  method SlowRenderScenario() returns (score: int)
    ensures score == 70
  {
    var m := new PerformanceMonitor();
    m.StartTracking("Game", 10.0);
    m.EndTracking("Game", 1510.0, 1000, None);
    var critical := PerformanceIssue(SlowRender, "Game", Some(1500.0), Critical, 1000);
    assert m.issues == [critical];
    assert [critical][..0] == [];
    assert Penalties([critical]) == 30;
    score := m.GetPerformanceScore(None);
  }
}
