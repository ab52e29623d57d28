/**
 * The cognitive optimiser: it classifies a learner's state from brainwave
 * and reaction-time readings, estimates fatigue and learning momentum, and
 * picks a feedback line. The hour of the day and the `Math.random` draw
 * that picks among a strategy's phrasings are parameters.
 */
module Cognitive {
  import opened Util

  /**
   * The fields of a user profile the optimiser reads. A list or a number
   * whose `|| default` is `[]` or 0 is stored with that value in place of
   * `undefined`; the others keep 0 for "absent" and get their default below.
   */
  datatype UserProfile = UserProfile(
    id: Option<string>,
    brainwaveData: seq<real>,
    reactionTimes: seq<real>,
    errorRate: real,
    currentSessionDuration: real,
    completionRate: real,
    difficultyPreference: Option<string>,
    learningStyle: Option<string>,
    consecutiveSessions: real,
    recentPerformance: seq<real>,
    recentScores: seq<real>,
    sessionConsistency: real,
    engagementLevel: real,
    averageSessionDuration: real,
    performanceByDuration: seq<DurationScore>,
    currentTasks: nat,
    multitaskingLevel: real)

  /** One entry of `performanceByDuration`: a session length in seconds and how well it went. */
  datatype DurationScore = DurationScore(duration: int, performance: real)

  datatype CognitiveState = Focused | Stressed | Fatigued | Distracted | Relaxed
  datatype SessionLength = Short | MediumLength | Long | Extended
  datatype Performance = Excellent | Good | Moderate | NeedsImprovement

  datatype LearningPattern = LearningPattern(
    sessionLength: SessionLength,
    performance: Performance,
    preferredDifficulty: string,
    learningStyle: string,
    momentum: real)

  /** `s || fallback` on a string: `undefined` and the empty string are falsy. */
  function StringOr(s: Option<string>, fallback: string): (r: string)
    ensures s.Some? && s.value != [] ==> r == s.value
    ensures s.None? || s.value == [] ==> r == fallback
  {
    if s.Some? && s.value != [] then s.value else fallback
  }

  /** The mean of a list, or `fallback` when it is empty. */
  function MeanOr(s: seq<real>, fallback: real): (m: real)
    ensures s == [] ==> m == fallback
    ensures s != [] ==> m == MeanOrZero(s)
  {
    if |s| > 0 then MeanOrZero(s) else fallback
  }

  // ---------------------------------------------------------------------------
  // analyzeCognitiveState
  // ---------------------------------------------------------------------------

  /**
   * `analyzeCognitiveState`: brainwave activity defaults to 0.5 and
   * reaction time to 1000 ms when no readings exist; the tests run in the
   * order focused, stressed, fatigued, distracted, relaxed.
   */
  function AnalyzeCognitiveState(p: UserProfile): (s: CognitiveState)
  {
    var brain := MeanOr(p.brainwaveData, 0.5);
    var reaction := MeanOr(p.reactionTimes, 1000.0);
    if brain > 0.7 && reaction < 800.0 then Focused
    else if brain > 0.8 || p.errorRate > 0.3 then Stressed
    else if brain < 0.3 || reaction > 1500.0 then Fatigued
    else if p.errorRate > 0.2 && reaction > 1200.0 then Distracted
    else Relaxed
  }

  /**
   * Each state in terms of the readings: a state is reported exactly when
   * its own test passes and every earlier test fails.
   */
  lemma CognitiveStateIff(p: UserProfile)
    ensures var brain := MeanOr(p.brainwaveData, 0.5);
            var reaction := MeanOr(p.reactionTimes, 1000.0);
            var focused := brain > 0.7 && reaction < 800.0;
            var stressed := brain > 0.8 || p.errorRate > 0.3;
            var fatigued := brain < 0.3 || reaction > 1500.0;
            var distracted := p.errorRate > 0.2 && reaction > 1200.0;
            var s := AnalyzeCognitiveState(p);
            && (s == Focused <==> focused)
            && (s == Stressed <==> !focused && stressed)
            && (s == Fatigued <==> !focused && !stressed && fatigued)
            && (s == Distracted <==> !focused && !stressed && !fatigued && distracted)
            && (s == Relaxed <==> !focused && !stressed && !fatigued && !distracted)
  {
  }

  /**
   * Without readings the defaults (0.5 and 1000 ms) decide, and the learner
   * is relaxed unless the error rate says stressed or distracted; a
   * learner without readings is never focused.
   */
  lemma NoReadingsDefaults(p: UserProfile)
    requires p.brainwaveData == [] && p.reactionTimes == []
    ensures AnalyzeCognitiveState(p) == (if p.errorRate > 0.3 then Stressed else Relaxed)
  {
  }

  /** Focus wins over every other reading: high activity with quick reactions is focused whatever the error rate. */
  lemma FocusFirst(p: UserProfile)
    requires MeanOr(p.brainwaveData, 0.5) > 0.8 && MeanOr(p.reactionTimes, 1000.0) < 800.0
    requires p.errorRate > 0.3
    ensures AnalyzeCognitiveState(p) == Focused
  {
  }

  // ---------------------------------------------------------------------------
  // analyzeLearningPattern and its parts
  // ---------------------------------------------------------------------------

  function CategorizeSessionLength(duration: real): (l: SessionLength)
    ensures l == Short <==> duration < 900.0
    ensures l == Extended <==> duration >= 5400.0
  {
    if duration < 900.0 then Short
    else if duration < 2700.0 then MediumLength
    else if duration < 5400.0 then Long
    else Extended
  }

  function CategorizePerformance(completionRate: real): (c: Performance)
    ensures c == Excellent <==> completionRate > 0.8
    ensures c == NeedsImprovement <==> completionRate <= 0.4
  {
    if completionRate > 0.8 then Excellent
    else if completionRate > 0.6 then Good
    else if completionRate > 0.4 then Moderate
    else NeedsImprovement
  }

  /**
   * `calculatePerformanceTrend`: the mean of the second half of the scores
   * minus the mean of the first, split at `floor(n / 2)`; 0 for fewer than
   * two scores.
   */
  function PerformanceTrend(scores: seq<real>): (t: real)
  {
    if |scores| < 2 then 0.0
    else
      var half := |scores| / 2;
      MeanOrZero(scores[half..]) - MeanOrZero(scores[..half])
  }

  /** With every score in [lo, hi], the trend is within the spread of the scores. */
  lemma TrendBounds(scores: seq<real>, lo: real, hi: real)
    requires lo <= hi
    requires forall i :: 0 <= i < |scores| ==> lo <= scores[i] <= hi
    ensures lo - hi <= PerformanceTrend(scores) <= hi - lo
  {
    if |scores| >= 2 {
      var half := |scores| / 2;
      MeanOrZeroBounds(scores[half..], lo, hi);
      MeanOrZeroBounds(scores[..half], lo, hi);
    }
  }

  /** Scores that never drop from the first half to the second give a trend of at least 0. */
  lemma TrendOfImprovement(scores: seq<real>, mid: real)
    requires |scores| >= 2
    requires forall i :: 0 <= i < |scores| / 2 ==> scores[i] <= mid
    requires forall i :: |scores| / 2 <= i < |scores| ==> mid <= scores[i]
    ensures PerformanceTrend(scores) >= 0.0
  {
    var half := |scores| / 2;
    var first, second := scores[..half], scores[half..];
    assert forall i :: 0 <= i < |first| ==> first[i] == scores[i];
    assert forall i :: 0 <= i < |second| ==> second[i] == scores[half + i];
    MeanOrZeroBounds(first, MinOf(first), mid);
    MeanOrZeroBounds(second, mid, MaxOf(second));
  }

  /** The smallest entry of a non-empty list. */
  function MinOf(s: seq<real>): (m: real)
    requires s != []
    ensures forall i :: 0 <= i < |s| ==> m <= s[i]
  {
    if |s| == 1 then s[0] else MinReal(s[0], MinOf(s[1..]))
  }

  /** The largest entry of a non-empty list. */
  function MaxOf(s: seq<real>): (m: real)
    requires s != []
    ensures forall i :: 0 <= i < |s| ==> s[i] <= m
  {
    if |s| == 1 then s[0] else MaxReal(s[0], MaxOf(s[1..]))
  }

  /**
   * `calculateLearningMomentum`: 0.5 without recent scores, otherwise the
   * average of the score trend, the session consistency and the engagement,
   * clamped to [0, 1].
   */
  function LearningMomentum(p: UserProfile): (m: real)
    ensures 0.0 <= m <= 1.0
    ensures p.recentScores == [] ==> m == 0.5
  {
    if |p.recentScores| == 0 then 0.5
    else
      var trend := PerformanceTrend(p.recentScores);
      MaxReal(0.0, MinReal(1.0, (trend + p.sessionConsistency + p.engagementLevel) / 3.0))
  }

  /** Inside the clamp the momentum is exactly the average of its three parts. */
  lemma MomentumIsAverage(p: UserProfile)
    requires p.recentScores != []
    requires var a := (PerformanceTrend(p.recentScores) + p.sessionConsistency + p.engagementLevel) / 3.0;
             0.0 <= a <= 1.0
    ensures LearningMomentum(p) * 3.0 == PerformanceTrend(p.recentScores) + p.sessionConsistency + p.engagementLevel
  {
  }

  function AnalyzeLearningPattern(p: UserProfile): (lp: LearningPattern)
    ensures lp.sessionLength == CategorizeSessionLength(p.currentSessionDuration)
    ensures lp.performance == CategorizePerformance(p.completionRate)
    ensures lp.preferredDifficulty == StringOr(p.difficultyPreference, "medium")
    ensures lp.learningStyle == StringOr(p.learningStyle, "visual")
    ensures lp.momentum == LearningMomentum(p)
  {
    LearningPattern(CategorizeSessionLength(p.currentSessionDuration), CategorizePerformance(p.completionRate),
                    StringOr(p.difficultyPreference, "medium"), StringOr(p.learningStyle, "visual"),
                    LearningMomentum(p))
  }

  // ---------------------------------------------------------------------------
  // detectFatigueLevel
  // ---------------------------------------------------------------------------

  /** The hour's share of fatigue: the 14:00-16:00 dip and the late night. */
  function HourFatigue(hour: int): (f: real)
    ensures 0.0 <= f <= 0.3
  {
    (if 14 <= hour <= 16 then 0.1 else 0.0) + (if hour >= 22 || hour <= 6 then 0.2 else 0.0)
  }

  /**
   * `detectFatigueLevel`: long sessions, consecutive sessions, the hour and
   * a dropping trend over at least three recent results add up, capped at 1.
   */
  function FatigueLevel(p: UserProfile, hour: int): (f: real)
    ensures f <= 1.0
    ensures p.consecutiveSessions >= 0.0 ==> 0.0 <= f
  {
    var duration := (if p.currentSessionDuration > 3600.0 then 0.3 else 0.0)
                  + (if p.currentSessionDuration > 7200.0 then 0.2 else 0.0);
    var sessions := MinReal(0.3, p.consecutiveSessions * 0.1);
    var trend := if |p.recentPerformance| >= 3 && PerformanceTrend(p.recentPerformance) < -0.1 then 0.2 else 0.0;
    MinReal(1.0, duration + sessions + HourFatigue(hour) + trend)
  }

  /** A fresh learner (short session, no earlier session, steady results) at midday has no fatigue. */
  lemma RestedLearner(p: UserProfile, hour: int)
    requires p.currentSessionDuration <= 3600.0 && p.consecutiveSessions == 0.0
    requires |p.recentPerformance| < 3
    requires 7 <= hour <= 13
    ensures FatigueLevel(p, hour) == 0.0
  {
  }

  /** Over two hours in a row, with three sessions behind them, a learner is past the 0.7 break threshold. */
  lemma MarathonNeedsBreak(p: UserProfile, hour: int)
    requires p.currentSessionDuration > 7200.0 && p.consecutiveSessions >= 3.0
    ensures FatigueLevel(p, hour) > 0.7
  {
  }

  // ---------------------------------------------------------------------------
  // generateAdaptiveFeedback
  // ---------------------------------------------------------------------------

  const BreakOptions: seq<string> := ["Take a short break", "Rest for 5-10 minutes", "Step away from learning"]
  const RefocusOptions: seq<string> := ["Try a breathing exercise", "Clear your workspace", "Set a specific goal"]
  const EnergizeOptions: seq<string> := ["Do light physical activity", "Drink water", "Change your environment"]
  const ChallengeOptions: seq<string> := ["Try more difficult content", "Set a time challenge", "Add gamification"]

  const HighLoadSuffix: string := " Your cognitive load is high."
  const InTheZoneSuffix: string := " You're in the zone!"
  const GreatFocus: string := "Great focus! Keep up the excellent work."
  const StressedSuffix: string := " Let's reduce the pressure."
  const FatiguedSuffix: string := " Your energy levels seem low."
  const DistractedSuffix: string := " Let's get back on track."
  const MoreChallengeSuffix: string := " Ready for more challenge?"
  const GoodState: string := "You're in a good learning state. Continue at your pace."

  /** `getRandomFeedback`: the phrasing at `floor(draw * length)`. */
  function Pick(options: seq<string>, draw: real): (r: string)
    requires |options| > 0 && 0.0 <= draw < 1.0
    ensures r in options
  {
    DrawIndex(draw, |options|);
    options[Floor(draw * |options| as real)]
  }

  /**
   * JavaScript's `<` between a performance category and a number: the
   * category strings are not numerals, so they convert to NaN.
   */
  function CategoryAsNumber(c: Performance): (n: Option<real>)
    ensures n.None?
  {
    None
  }

  /** `learningPattern.performance < 0.6` as JavaScript evaluates it. */
  predicate CategoryBelow(c: Performance, bound: real)
  {
    var n := CategoryAsNumber(c);
    n.Some? && n.value < bound
  }

  /**
   * `generateAdaptiveFeedback` as written: the relaxed branch compares the
   * performance category (a string) with 0.6.
   */
  function AdaptiveFeedbackAsWritten(state: CognitiveState, pattern: LearningPattern, fatigue: real,
                                     p: UserProfile, draw: real): (r: string)
    requires 0.0 <= draw < 1.0
  {
    if fatigue > 0.7 then Pick(BreakOptions, draw) + HighLoadSuffix
    else match state
      case Focused => if pattern.momentum > 0.8 then Pick(ChallengeOptions, draw) + InTheZoneSuffix else GreatFocus
      case Stressed => Pick(RefocusOptions, draw) + StressedSuffix
      case Fatigued => Pick(EnergizeOptions, draw) + FatiguedSuffix
      case Distracted => Pick(RefocusOptions, draw) + DistractedSuffix
      case Relaxed => if CategoryBelow(pattern.performance, 0.6) then Pick(ChallengeOptions, draw) + MoreChallengeSuffix else GoodState
  }

  /** As written, a relaxed learner is never offered more challenge, whatever their completion rate. */
  lemma RelaxedNeverChallengedAsWritten(pattern: LearningPattern, fatigue: real, p: UserProfile, draw: real)
    requires 0.0 <= draw < 1.0 && fatigue <= 0.7
    ensures AdaptiveFeedbackAsWritten(Relaxed, pattern, fatigue, p, draw) == GoodState
  {
  }

  /**
   * `generateAdaptiveFeedback` with the relaxed branch comparing the
   * numeric completion rate, the value the category was computed from.
   */
  function AdaptiveFeedback(state: CognitiveState, pattern: LearningPattern, fatigue: real,
                            p: UserProfile, draw: real): (r: string)
    requires 0.0 <= draw < 1.0
  {
    if fatigue > 0.7 then Pick(BreakOptions, draw) + HighLoadSuffix
    else match state
      case Focused => if pattern.momentum > 0.8 then Pick(ChallengeOptions, draw) + InTheZoneSuffix else GreatFocus
      case Stressed => Pick(RefocusOptions, draw) + StressedSuffix
      case Fatigued => Pick(EnergizeOptions, draw) + FatiguedSuffix
      case Distracted => Pick(RefocusOptions, draw) + DistractedSuffix
      case Relaxed => if p.completionRate < 0.6 then Pick(ChallengeOptions, draw) + MoreChallengeSuffix else GoodState
  }

  /** A relaxed learner below a 0.6 completion rate is offered more challenge; above it, told to carry on. */
  lemma RelaxedChallenge(pattern: LearningPattern, fatigue: real, p: UserProfile, draw: real)
    requires 0.0 <= draw < 1.0 && fatigue <= 0.7
    ensures p.completionRate < 0.6 ==>
              AdaptiveFeedback(Relaxed, pattern, fatigue, p, draw) == Pick(ChallengeOptions, draw) + MoreChallengeSuffix
    ensures p.completionRate >= 0.6 ==> AdaptiveFeedback(Relaxed, pattern, fatigue, p, draw) == GoodState
  {
  }

  /** The two agree everywhere except on relaxed learners below a 0.6 completion rate. */
  lemma FeedbackDiffersOnlyWhenRelaxed(state: CognitiveState, pattern: LearningPattern, fatigue: real,
                                       p: UserProfile, draw: real)
    requires 0.0 <= draw < 1.0
    ensures (AdaptiveFeedback(state, pattern, fatigue, p, draw) != AdaptiveFeedbackAsWritten(state, pattern, fatigue, p, draw))
              <==> (fatigue <= 0.7 && state == Relaxed && p.completionRate < 0.6)
  {
    if fatigue <= 0.7 && state == Relaxed && p.completionRate < 0.6 {
      var r := Pick(ChallengeOptions, draw) + MoreChallengeSuffix;
      assert |r| != |GoodState| || r[|r| - 1] != GoodState[|GoodState| - 1] by {
        assert r[|r| - 1] == '?';
      }
    }
  }

  /** Fatigue above 0.7 overrides every state: the learner is told to take a break. */
  lemma FatigueOverrides(state: CognitiveState, pattern: LearningPattern, fatigue: real, p: UserProfile, draw: real)
    requires 0.0 <= draw < 1.0 && fatigue > 0.7
    ensures AdaptiveFeedback(state, pattern, fatigue, p, draw) == Pick(BreakOptions, draw) + HighLoadSuffix
    ensures AdaptiveFeedback(state, pattern, fatigue, p, draw) == AdaptiveFeedback(Focused, pattern, fatigue, p, draw)
  {
  }

  /** `generateFeedback`: a profile without an id is rejected; otherwise state, pattern and fatigue decide. */
  function GenerateFeedback(profile: Option<UserProfile>, hour: int, draw: real): (r: Result<string>)
    requires 0.0 <= draw < 1.0
    ensures r.Err? <==> profile.None? || profile.value.id.None? || profile.value.id.value == []
    ensures r.Err? ==> r.msg == "Invalid user profile"
  {
    if profile.None? || profile.value.id.None? || profile.value.id.value == [] then Err("Invalid user profile")
    else
      var p := profile.value;
      Ok(AdaptiveFeedback(AnalyzeCognitiveState(p), AnalyzeLearningPattern(p), FatigueLevel(p, hour), p, draw))
  }

  /** An exhausted learner is sent on a break whatever their readings say. */
  lemma ExhaustedLearnerRests(p: UserProfile, hour: int, draw: real)
    requires 0.0 <= draw < 1.0 && p.id.Some? && p.id.value != []
    requires FatigueLevel(p, hour) > 0.7
    ensures GenerateFeedback(Some(p), hour, draw) == Ok(Pick(BreakOptions, draw) + HighLoadSuffix)
  {
  }

  // ---------------------------------------------------------------------------
  // recommendSessionDuration / calculateCurrentCognitiveLoad
  // ---------------------------------------------------------------------------

  /**
   * The duration the `forEach` settles on: the first entry with the
   * highest performance above 0, or the fallback when none is above 0.
   */
  function BestDuration(entries: seq<DurationScore>, fallback: int): (r: (int, real))
    ensures r.1 >= 0.0
  {
    if entries == [] then (fallback, 0.0)
    else
      var prev := BestDuration(entries[..|entries| - 1], fallback);
      var e := entries[|entries| - 1];
      if e.performance > prev.1 then (e.duration, e.performance) else prev
  }

  /**
   * The chosen entry is at least as good as every entry, is the first entry
   * with that performance, and is the fallback only when nothing scored above 0.
   */
  lemma {:induction false} BestDurationFacts(entries: seq<DurationScore>, fallback: int)
    ensures var r := BestDuration(entries, fallback);
            && (forall i :: 0 <= i < |entries| ==> entries[i].performance <= r.1)
            && (r.1 == 0.0 ==> r.0 == fallback)
            && (r.1 > 0.0 ==> exists i :: 0 <= i < |entries| && entries[i] == DurationScore(r.0, r.1)
                                          && forall j :: 0 <= j < i ==> entries[j].performance < r.1)
  {
    if entries != [] {
      var init := entries[..|entries| - 1];
      BestDurationFacts(init, fallback);
      assert forall i :: 0 <= i < |init| ==> init[i] == entries[i];
      var prev := BestDuration(init, fallback);
      var last := |entries| - 1;
      if entries[last].performance > prev.1 {
        assert forall j :: 0 <= j < last ==> entries[j].performance < entries[last].performance;
      } else if prev.1 > 0.0 {
        var i :| 0 <= i < |init| && init[i] == DurationScore(prev.0, prev.1)
                 && forall j :: 0 <= j < i ==> init[j].performance < prev.1;
        assert entries[i] == DurationScore(prev.0, prev.1);
      }
    }
  }

  /**
   * `Object.entries` walks integer keys in ascending order, so the
   * durations of a profile's record come strictly ascending.
   */
  predicate AscendingDurations(entries: seq<DurationScore>)
  {
    forall i, j :: 0 <= i < j < |entries| ==> entries[i].duration < entries[j].duration
  }

  /** Over ascending durations, a tie for the best performance goes to the shortest duration. */
  lemma BestDurationShortestTie(entries: seq<DurationScore>, fallback: int)
    requires AscendingDurations(entries)
    ensures var r := BestDuration(entries, fallback);
            r.1 > 0.0 ==> forall k :: 0 <= k < |entries| && entries[k].performance == r.1 ==> r.0 <= entries[k].duration
  {
    BestDurationFacts(entries, fallback);
    var r := BestDuration(entries, fallback);
    if r.1 > 0.0 {
      var i :| 0 <= i < |entries| && entries[i] == DurationScore(r.0, r.1)
               && forall j :: 0 <= j < i ==> entries[j].performance < r.1;
      forall k | 0 <= k < |entries| && entries[k].performance == r.1
        ensures r.0 <= entries[k].duration
      {
        if i < k {
          assert entries[i].duration < entries[k].duration;
        }
      }
    }
  }

  /** `averageSessionDuration || 1800`. */
  function AverageDuration(p: UserProfile): int
  {
    if p.averageSessionDuration == 0.0 then 1800 else Floor(p.averageSessionDuration)
  }

  /**
   * `recommendSessionDuration`: the duration that went best, falling back
   * to the average session, kept between 15 minutes and an hour.
   */
  method RecommendSessionDuration(p: UserProfile) returns (seconds: int)
    requires AscendingDurations(p.performanceByDuration)
    ensures 900 <= seconds <= 3600
    ensures seconds == MinInt(3600, MaxInt(900, BestDuration(p.performanceByDuration, AverageDuration(p)).0))
  {
    var entries := p.performanceByDuration;
    var optimalDuration := AverageDuration(p);
    var bestPerformance := 0.0;
    var i := 0;
    while i < |entries|
      invariant 0 <= i <= |entries|
      invariant (optimalDuration, bestPerformance) == BestDuration(entries[..i], AverageDuration(p))
    {
      if entries[i].performance > bestPerformance {
        bestPerformance := entries[i].performance;
        optimalDuration := entries[i].duration;
      }
      assert entries[..i + 1][..i] == entries[..i];
      i := i + 1;
    }
    assert entries[..i] == entries;
    seconds := MinInt(3600, MaxInt(900, optimalDuration));
  }

  /** `calculateCurrentCognitiveLoad`: 0.2 per task plus 0.3 per unit of multitasking, capped at 1. */
  function CurrentCognitiveLoad(taskCount: nat, multitaskingLevel: real): (load: real)
    ensures load <= 1.0
    ensures multitaskingLevel >= 0.0 ==> load >= 0.0
    ensures load < 1.0 ==> load == taskCount as real * 0.2 + multitaskingLevel * 0.3
  {
    MinReal(1.0, taskCount as real * 0.2 + multitaskingLevel * 0.3)
  }

  /** Five tasks at once saturate the load. */
  lemma FiveTasksSaturate(taskCount: nat, multitaskingLevel: real)
    requires taskCount >= 5 && multitaskingLevel >= 0.0
    ensures CurrentCognitiveLoad(taskCount, multitaskingLevel) == 1.0
  {
  }
}
