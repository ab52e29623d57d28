// The rules of the educational content service: lesson prerequisites and
// progress, answer checking and exercise scoring, hints, the dictionary's
// recent searches and favourites, the spaced-repetition review step, course
// progress and certificates, skill analysis and the engagement score. Every
// rule returns a new value; the clock is a parameter.
module Education {
  import opened Util

  const DayMs := 86400000

  /** SPACED_REPETITION_CONFIG: review intervals in days, ease bounds and the pass mark. */
  const Intervals: seq<int> := [1, 3, 7, 14, 30, 90, 180, 365]
  const EaseMin := 1.3
  const EaseDefault := 2.5
  const QualityThreshold := 3

  /** The passing score of a course certificate. */
  const MinCertificateScore := 70
  const MaxRecentSearches := 10

  datatype Skill = Speaking | Listening | Reading | Writing | Grammar | Vocabulary | Pronunciation | Comprehension

  /** An exercise's expected answer: one string or a list of strings. */
  datatype CorrectAnswer = Single(answer: string) | Several(answers: seq<string>)

  datatype Exercise = Exercise(
    id: string,
    correctAnswer: CorrectAnswer,
    acceptableAnswers: Option<seq<string>>,
    hints: seq<string>,
    points: int,
    timeLimit: Option<real>)

  datatype Lesson = Lesson(
    id: string,
    prerequisiteIds: seq<string>,
    exercises: seq<Exercise>,
    isUnlocked: bool,
    isCompleted: bool)

  datatype Dictionary = Dictionary(
    id: string,
    favorites: seq<string>,
    recentSearches: seq<string>)

  datatype ReviewEntry = ReviewEntry(date: int, quality: int, timeSpent: real)

  datatype Card = Card(
    id: string,
    interval: int,
    repetitions: nat,
    easeFactor: real,
    nextReviewDate: int,
    lastReviewDate: int,
    quality: int,
    history: seq<ReviewEntry>,
    isActive: bool)

  datatype Course = Course(id: string, lessons: seq<string>, certificateAwarded: bool)

  // ---- lessons ------------------------------------------------------------

  /** canAccessLesson: every prerequisite has been completed. */
  function CanAccessLesson(prerequisiteIds: seq<string>, completed: seq<string>): (r: bool)
  {
    if prerequisiteIds == [] then true
    else prerequisiteIds[0] in completed && CanAccessLesson(prerequisiteIds[1..], completed)
  }

  lemma {:induction false} CanAccessLessonIff(prerequisiteIds: seq<string>, completed: seq<string>)
    ensures CanAccessLesson(prerequisiteIds, completed) <==> forall i :: 0 <= i < |prerequisiteIds| ==> prerequisiteIds[i] in completed
  {
    if prerequisiteIds != [] {
      CanAccessLessonIff(prerequisiteIds[1..], completed);
      assert forall i :: 1 <= i < |prerequisiteIds| ==> prerequisiteIds[i] == prerequisiteIds[1..][i - 1];
    }
  }

  /** How many of `ids` occur in `done`, the `filter(... includes ...).length` idiom. */
  function CountDone(ids: seq<string>, done: seq<string>): (n: nat)
    ensures n <= |ids|
  {
    if ids == [] then 0 else (if ids[0] in done then 1 else 0) + CountDone(ids[1..], done)
  }

  lemma {:induction false} CountDoneAll(ids: seq<string>, done: seq<string>)
    ensures CountDone(ids, done) == |ids| <==> forall i :: 0 <= i < |ids| ==> ids[i] in done
  {
    if ids != [] {
      CountDoneAll(ids[1..], done);
      assert forall i :: 1 <= i < |ids| ==> ids[i] == ids[1..][i - 1];
    }
  }

  /** completed / total, or 0 for nothing to complete. */
  function Progress(ids: seq<string>, done: seq<string>): real
  {
    if |ids| == 0 then 0.0 else CountDone(ids, done) as real / |ids| as real
  }

  /** Progress is 0 for an empty list, lies in [0, 1], and is 1 exactly when everything is done. */
  lemma ProgressFacts(ids: seq<string>, done: seq<string>)
    ensures ids == [] ==> Progress(ids, done) == 0.0
    ensures 0.0 <= Progress(ids, done) <= 1.0
    ensures Progress(ids, done) >= 1.0 <==> ids != [] && forall i :: 0 <= i < |ids| ==> ids[i] in done
  {
    CountDoneAll(ids, done);
    if ids != [] {
      var c, n := CountDone(ids, done) as real, |ids| as real;
      RatioInUnit(c, n);
      if c < n {
        assert c / n < 1.0 by {
          assert c / n * n == c;
        }
      }
    }
  }

  function ExerciseIds(exercises: seq<Exercise>): (r: seq<string>)
    ensures |r| == |exercises|
  {
    if exercises == [] then [] else [exercises[0].id] + ExerciseIds(exercises[1..])
  }

  /** calculateLessonProgress: the share of the lesson's exercises that were completed. */
  function LessonProgress(lesson: Lesson, completedExercises: seq<string>): real
  {
    Progress(ExerciseIds(lesson.exercises), completedExercises)
  }

  /** calculateCourseProgress: the share of the course's lessons that were completed. */
  function CourseProgress(course: Course, completedLessons: seq<string>): real
  {
    Progress(course.lessons, completedLessons)
  }

  /** unlockNextLessons: unlock each lesson that lists the completed lesson as a prerequisite. */
  function UnlockNextLessons(lessons: seq<Lesson>, completedId: string): (r: seq<Lesson>)
    ensures |r| == |lessons|
  {
    if lessons == [] then []
    else
      var l := lessons[0];
      [if completedId in l.prerequisiteIds then l.(isUnlocked := true) else l] + UnlockNextLessons(lessons[1..], completedId)
  }

  /** Order and length are kept; only lessons depending on the completed one change, and only in isUnlocked. */
  lemma {:induction false} UnlockNextLessonsAt(lessons: seq<Lesson>, completedId: string)
    ensures forall i :: 0 <= i < |lessons| ==>
      UnlockNextLessons(lessons, completedId)[i] == (if completedId in lessons[i].prerequisiteIds then lessons[i].(isUnlocked := true) else lessons[i])
  {
    if lessons != [] {
      UnlockNextLessonsAt(lessons[1..], completedId);
    }
  }

  // ---- exercises ----------------------------------------------------------

  /** Whether some entry of `candidates` normalises to `normalized`. */
  function MatchesAny(candidates: seq<string>, normalized: string): (r: bool)
  {
    if candidates == [] then false
    else Normalize(candidates[0]) == normalized || MatchesAny(candidates[1..], normalized)
  }

  lemma {:induction false} MatchesAnyIff(candidates: seq<string>, normalized: string)
    ensures MatchesAny(candidates, normalized) <==> exists i :: 0 <= i < |candidates| && Normalize(candidates[i]) == normalized
  {
    if candidates != [] {
      MatchesAnyIff(candidates[1..], normalized);
      assert forall i :: 1 <= i < |candidates| ==> candidates[i] == candidates[1..][i - 1];
    }
  }

  /**
   * validateAnswer: the lower-cased, trimmed answer equals a lower-cased,
   * trimmed correct answer (one string or any of a list), or else one of
   * the acceptable answers when that list is present.
   */
  function ValidateAnswer(exercise: Exercise, answer: string): bool
  {
    var user := Normalize(answer);
    var correct := match exercise.correctAnswer
      case Single(c) => Normalize(c) == user
      case Several(cs) => MatchesAny(cs, user);
    correct || (exercise.acceptableAnswers.Some? && MatchesAny(exercise.acceptableAnswers.value, user))
  }

  /** The answers an exercise accepts, before normalisation. */
  function Accepted(exercise: Exercise): seq<string>
  {
    (match exercise.correctAnswer
      case Single(c) => [c]
      case Several(cs) => cs)
    + exercise.acceptableAnswers.GetOr([])
  }

  lemma {:induction false} MatchesAnyAppend(a: seq<string>, b: seq<string>, normalized: string)
    ensures MatchesAny(a + b, normalized) == (MatchesAny(a, normalized) || MatchesAny(b, normalized))
  {
    if a != [] {
      assert (a + b)[0] == a[0] && (a + b)[1..] == a[1..] + b;
      MatchesAnyAppend(a[1..], b, normalized);
    } else {
      assert a + b == b;
    }
  }

  /** An answer passes exactly when it normalises like one of the accepted answers. */
  lemma ValidateAnswerIff(exercise: Exercise, answer: string)
    ensures ValidateAnswer(exercise, answer) <==>
      exists i :: 0 <= i < |Accepted(exercise)| && Normalize(Accepted(exercise)[i]) == Normalize(answer)
  {
    var user := Normalize(answer);
    var first := match exercise.correctAnswer case Single(c) => [c] case Several(cs) => cs;
    var rest := exercise.acceptableAnswers.GetOr([]);
    assert Accepted(exercise) == first + rest;
    MatchesAnyAppend(first, rest, user);
    assert MatchesAny([], user) == false;
    if exercise.correctAnswer.Single? {
      assert MatchesAny(first, user) == (Normalize(exercise.correctAnswer.answer) == user) by {
        assert first[1..] == [];
      }
    }
    assert ValidateAnswer(exercise, answer) == MatchesAny(Accepted(exercise), user);
    MatchesAnyIff(Accepted(exercise), user);
  }

  /** Letter case does not matter: an answer and its lower-case form are judged alike. */
  lemma ValidateAnswerIgnoresCase(exercise: Exercise, answer: string)
    ensures ValidateAnswer(exercise, ToLower(answer)) == ValidateAnswer(exercise, answer)
  {
    ToLowerIdempotent(answer);
  }

  /**
   * calculateExerciseScore: 0 for a wrong answer; otherwise the points less
   * 10 per hint, plus a speed bonus of up to 20% of the points when a
   * (non-zero) time limit was beaten, and never below 0.
   */
  function ExerciseScore(exercise: Exercise, correct: bool, timeSpent: real, hintsUsed: int): (r: int)
    ensures r >= 0
    ensures !correct ==> r == 0
  {
    if !correct then 0 else MaxInt(0, exercise.points - hintsUsed * 10 + TimeBonus(exercise, timeSpent))
  }

  /** The speed bonus in points: round(points * rate) when a non-zero time limit was beaten, else 0. */
  function TimeBonus(exercise: Exercise, timeSpent: real): int
  {
    if exercise.timeLimit.Some? && exercise.timeLimit.value != 0.0 && timeSpent < exercise.timeLimit.value
    then Round(exercise.points as real * SpeedBonus(timeSpent, exercise.timeLimit.value))
    else 0
  }

  /** max(0, (1 - timeSpent / timeLimit) * 0.2) */
  function SpeedBonus(timeSpent: real, timeLimit: real): (b: real)
    requires timeLimit != 0.0
    ensures b >= 0.0
  {
    MaxReal(0.0, (1.0 - timeSpent / timeLimit) * 0.2)
  }

  /** For a positive limit and a non-negative time, the bonus rate is at most 20% (and positive when the limit was beaten). */
  lemma SpeedBonusBound(timeSpent: real, timeLimit: real)
    requires timeLimit > 0.0 && timeSpent >= 0.0
    ensures SpeedBonus(timeSpent, timeLimit) <= 0.2
    ensures timeSpent < timeLimit ==> SpeedBonus(timeSpent, timeLimit) > 0.0
  {
    RatioInUnitOrAbove(timeSpent, timeLimit);
  }

  lemma RatioInUnitOrAbove(x: real, y: real)
    requires y > 0.0 && x >= 0.0
    ensures x / y >= 0.0
    ensures x < y ==> x / y < 1.0
  {
    assert x / y * y == x;
    if x / y >= 1.0 {
      MulMonotone(1.0, x / y, y);
    }
  }

  lemma RoundMonotone(x: real, y: real)
    requires x <= y
    ensures Round(x) <= Round(y)
  {
  }

  /** With non-negative points and time, the bonus is between 0 and round(20% of the points), and 0 without a limit. */
  lemma TimeBonusBounds(exercise: Exercise, timeSpent: real)
    requires exercise.points >= 0 && timeSpent >= 0.0
    ensures 0 <= TimeBonus(exercise, timeSpent) <= Round(exercise.points as real * 0.2)
    ensures exercise.timeLimit.None? ==> TimeBonus(exercise, timeSpent) == 0
    ensures exercise.timeLimit.Some? && timeSpent >= exercise.timeLimit.value ==> TimeBonus(exercise, timeSpent) == 0
    ensures exercise.timeLimit == Some(0.0) ==> TimeBonus(exercise, timeSpent) == 0
  {
    var p := exercise.points as real;
    RoundMonotone(0.0, p * 0.2);
    if exercise.timeLimit.Some? && exercise.timeLimit.value != 0.0 && timeSpent < exercise.timeLimit.value {
      SpeedBonusBound(timeSpent, exercise.timeLimit.value);
      RoundScaledBound(p, SpeedBonus(timeSpent, exercise.timeLimit.value));
    }
  }

  lemma RoundScaledBound(p: real, b: real)
    requires p >= 0.0 && 0.0 <= b <= 0.2
    ensures 0 <= Round(p * b) <= Round(p * 0.2)
  {
    MulMonotone(b, 0.2, p);
    MulMonotone(0.0, b, p);
    RoundMonotone(0.0, p * b);
    RoundMonotone(p * b, p * 0.2);
  }

  /**
   * The score is the hint-reduced points with no time limit, and with a
   * time limit it exceeds them by at most round(20% of the points).
   */
  lemma ExerciseScoreBounds(exercise: Exercise, timeSpent: real, hintsUsed: int)
    requires exercise.points >= 0 && timeSpent >= 0.0
    ensures exercise.timeLimit.None? ==> ExerciseScore(exercise, true, timeSpent, hintsUsed) == MaxInt(0, exercise.points - 10 * hintsUsed)
    ensures exercise.timeLimit.Some? && (exercise.timeLimit.value == 0.0 || timeSpent >= exercise.timeLimit.value) ==>
              ExerciseScore(exercise, true, timeSpent, hintsUsed) == MaxInt(0, exercise.points - 10 * hintsUsed)
    ensures ExerciseScore(exercise, true, timeSpent, hintsUsed) >= MaxInt(0, exercise.points - 10 * hintsUsed)
    ensures ExerciseScore(exercise, true, timeSpent, hintsUsed) <= MaxInt(0, exercise.points - 10 * hintsUsed + Round(exercise.points as real * 0.2))
  {
    TimeBonusBounds(exercise, timeSpent);
  }

  /** getNextHint: the hint at that index, none past the end (nor before the start, where JavaScript yields undefined). */
  function NextHint(exercise: Exercise, hintIndex: int): (r: Option<string>)
    ensures r.Some? <==> 0 <= hintIndex < |exercise.hints|
    ensures r.Some? ==> r.value == exercise.hints[hintIndex]
  {
    if hintIndex >= |exercise.hints| || hintIndex < 0 then None else Some(exercise.hints[hintIndex])
  }

  // ---- dictionary ---------------------------------------------------------


  /** addRecentSearch: the query first, without its earlier occurrences, at most ten entries. */
  function AddRecentSearch(d: Dictionary, query: string): (r: Dictionary)
    ensures 1 <= |r.recentSearches| <= MaxRecentSearches
    ensures r.recentSearches[0] == query
  {
    var recent := [query] + Without(d.recentSearches, query);
    d.(recentSearches := if |recent| > MaxRecentSearches then recent[..MaxRecentSearches] else recent)
  }

  /**
   * The query appears once, everything listed came from the query or the
   * old list, the list keeps only distinct entries if it had only
   * distinct entries, and repeating the same search changes nothing more.
   */
  lemma AddRecentSearchFacts(d: Dictionary, query: string)
    ensures var r := AddRecentSearch(d, query).recentSearches;
            var w := Without(d.recentSearches, query);
      && AddRecentSearch(d, query) == d.(recentSearches := r)
      && |r| == MinInt(MaxRecentSearches, 1 + |w|)
      && r[1..] == w[..|r| - 1]
      && Sublist(w, d.recentSearches)
      && query !in r[1..]
      && (forall x :: x in r ==> x == query || x in d.recentSearches)
      && AddRecentSearch(AddRecentSearch(d, query), query) == AddRecentSearch(d, query)
  {
    var w := Without(d.recentSearches, query);
    WithoutFacts(d.recentSearches, query);
    WithoutSublist(d.recentSearches, query);
    var recent := [query] + w;
    var r := AddRecentSearch(d, query).recentSearches;
    assert r == recent[..|r|];
    assert r[1..] == w[..|r| - 1];
    assert forall x :: x in r[1..] ==> x in w;
    var r2 := AddRecentSearch(AddRecentSearch(d, query), query).recentSearches;
    WithoutFacts(r, query);
    assert Without(r, query) == r[1..] by {
      assert r == [query] + r[1..];
      WithoutHead(query, r[1..]);
    }
    assert ([query] + r[1..]) == r;
  }

  lemma WithoutHead(v: string, s: seq<string>)
    requires v !in s
    ensures Without([v] + s, v) == s
  {
    assert ([v] + s)[1..] == s;
    WithoutFacts(s, v);
  }


  /** A list without duplicates stays without duplicates. */
  lemma AddRecentSearchDistinct(d: Dictionary, query: string)
    requires Distinct(d.recentSearches)
    ensures Distinct(AddRecentSearch(d, query).recentSearches)
  {
    var w := Without(d.recentSearches, query);
    WithoutDistinct(d.recentSearches, query);
    WithoutFacts(d.recentSearches, query);
    var recent := [query] + w;
    assert recent[1..] == w;
    assert Distinct(recent);
    if |recent| > MaxRecentSearches {
      DistinctPrefix(recent, MaxRecentSearches);
    }
  }

  /** toggleDictionaryFavorite: append the entry, or drop every occurrence of it. */
  function ToggleFavorite(d: Dictionary, entryId: string, isFavorite: bool): (r: Dictionary)
    ensures r.id == d.id && r.recentSearches == d.recentSearches
  {
    d.(favorites := if isFavorite then d.favorites + [entryId] else Without(d.favorites, entryId))
  }

  /** Marking makes the entry a favourite and unmarking removes it, all other favourites staying as they were. */
  lemma ToggleFavoriteFacts(d: Dictionary, entryId: string, isFavorite: bool)
    ensures isFavorite <==> entryId in ToggleFavorite(d, entryId, isFavorite).favorites
    ensures forall x :: x != entryId ==> (x in ToggleFavorite(d, entryId, isFavorite).favorites <==> x in d.favorites)
  {
    WithoutFacts(d.favorites, entryId);
  }

  // ---- spaced repetition ---------------------------------------------------

  /** The ease update for a passing grade: max(1.3, ease + 0.1 - (5 - q)(0.08 + (5 - q) 0.02)). */
  function NextEase(ease: real, quality: int): (r: real)
    ensures r >= EaseMin
  {
    var d := (5 - quality) as real;
    MaxReal(EaseMin, ease + (0.1 - d * (0.08 + d * 0.02)))
  }

  /** For grades 3 to 5 the ease grows by at most 0.1, and grade 5 is the one that grows it by that much. */
  lemma NextEaseBound(ease: real, quality: int)
    requires QualityThreshold <= quality <= 5
    ensures NextEase(ease, quality) <= MaxReal(EaseMin, ease + 0.1)
    ensures quality == 5 ==> NextEase(ease, quality) == MaxReal(EaseMin, ease + 0.1)
  {
  }

  /**
   * processReview: a grade below 3 restarts the card (no repetitions, the
   * first interval, ease kept); a passing grade counts one more
   * repetition, updates the ease and scales the next interval of the
   * schedule by it. The review is appended to the history.
   */
  function ProcessReview(card: Card, quality: int, timeSpent: real, now: int): (r: Card)
    ensures r.id == card.id && r.isActive == card.isActive
    ensures r.history == card.history + [ReviewEntry(now, quality, timeSpent)]
    ensures r.nextReviewDate == now + r.interval * DayMs && r.lastReviewDate == now && r.quality == quality
    ensures quality < QualityThreshold ==> r.repetitions == 0 && r.interval == Intervals[0] && r.easeFactor == card.easeFactor
    ensures quality >= QualityThreshold ==>
      && r.repetitions == card.repetitions + 1
      && r.easeFactor == NextEase(card.easeFactor, quality)
      && r.interval == Round(Intervals[MinInt(r.repetitions, |Intervals| - 1)] as real * r.easeFactor)
  {
    var passed := quality >= QualityThreshold;
    var reps: nat := if passed then card.repetitions + 1 else 0;
    var ease := if passed then NextEase(card.easeFactor, quality) else card.easeFactor;
    var interval := if passed then Round(Intervals[MinInt(reps, |Intervals| - 1)] as real * ease) else Intervals[0];
    card.(repetitions := reps, easeFactor := ease, interval := interval,
      nextReviewDate := now + interval * DayMs, lastReviewDate := now, quality := quality,
      history := card.history + [ReviewEntry(now, quality, timeSpent)])
  }

  /** calculateNextReviewDate: the first interval after a failure, else the next interval of the schedule, unscaled. */
  function NextReviewDate(card: Card, quality: int, now: int): (r: int)
    ensures quality < QualityThreshold ==> r == now + Intervals[0] * DayMs
    ensures quality >= QualityThreshold ==> r >= now + DayMs
  {
    if quality < QualityThreshold then now + Intervals[0] * DayMs
    else now + Intervals[MinInt(card.repetitions + 1, |Intervals| - 1)] * DayMs
  }

  /**
   * The two schedules agree after a failure; after a pass the scaled
   * interval of processReview (ease at least 1.3) is never sooner than the
   * plain one, and the interval is at least a day.
   */
  lemma ReviewSchedulesAgree(card: Card, quality: int, timeSpent: real, now: int)
    ensures quality < QualityThreshold ==> ProcessReview(card, quality, timeSpent, now).nextReviewDate == NextReviewDate(card, quality, now)
    ensures quality >= QualityThreshold ==>
      && ProcessReview(card, quality, timeSpent, now).nextReviewDate >= NextReviewDate(card, quality, now)
      && ProcessReview(card, quality, timeSpent, now).interval >= 1
  {
    if quality >= QualityThreshold {
      var r := ProcessReview(card, quality, timeSpent, now);
      var k := Intervals[MinInt(card.repetitions + 1, |Intervals| - 1)];
      assert k >= 1;
      assert k as real * r.easeFactor >= k as real;
      RoundMonotone(k as real, k as real * r.easeFactor);
      assert r.interval >= k;
    }
  }

  /** A card is due when it is active and its review date has come. */
  predicate IsDue(card: Card, now: int)
  {
    card.isActive && card.nextReviewDate <= now
  }

  /** getCardsDueForReview, in their original order. */
  function CardsDue(cards: seq<Card>, now: int): (r: seq<Card>)
    ensures |r| <= |cards|
    ensures forall c :: c in r ==> IsDue(c, now)
    ensures Sublist(r, cards)
    ensures forall c :: multiset(r)[c] == if IsDue(c, now) then multiset(cards)[c] else 0
  {
    if cards == [] then []
    else
      var rest := CardsDue(cards[1..], now);
      assert cards == [cards[0]] + cards[1..];
      if IsDue(cards[0], now) then
        assert ([cards[0]] + rest)[1..] == rest;
        [cards[0]] + rest
      else
        assert rest != [] ==> rest[0] in rest && rest[0] != cards[0];
        rest
  }

  lemma {:induction false} CardsDueIff(cards: seq<Card>, now: int)
    ensures forall c :: c in CardsDue(cards, now) <==> c in cards && IsDue(c, now)
  {
    if cards != [] {
      CardsDueIff(cards[1..], now);
      assert forall c :: c in cards <==> c == cards[0] || c in cards[1..];
    }
  }

  // ---- courses, assessment and engagement ---------------------------------

  datatype Eligibility = Eligibility(eligible: bool, reason: string)

  const PassingReason := "Course completed with passing grade"

  /**
   * checkCertificateEligibility: a certificate course, fully completed,
   * with a score of at least 70; otherwise the reason says how much
   * completion and how many points are missing.
   */
  function CertificateEligibility(course: Course, completedLessons: seq<string>, score: int): (r: Eligibility)
  {
    var rate := CourseProgress(course, completedLessons);
    var eligible := course.certificateAwarded && rate >= 1.0 && score >= MinCertificateScore;
    var reason := if eligible then PassingReason else
      "Need " + IntToString(Round((1.0 - rate) * 100.0)) + "% more completion and "
        + IntToString(MaxInt(0, MinCertificateScore - score)) + " more points";
    Eligibility(eligible, reason)
  }

  /** Eligible exactly for a certificate course with every lesson completed (and at least one lesson) and a passing score. */
  lemma CertificateEligibilityIff(course: Course, completedLessons: seq<string>, score: int)
    ensures CertificateEligibility(course, completedLessons, score).eligible <==>
      && course.certificateAwarded && course.lessons != []
      && (forall i :: 0 <= i < |course.lessons| ==> course.lessons[i] in completedLessons)
      && score >= MinCertificateScore
    ensures CertificateEligibility(course, completedLessons, score).eligible <==>
      CertificateEligibility(course, completedLessons, score).reason == PassingReason
  {
    ProgressFacts(course.lessons, completedLessons);
    var r := CertificateEligibility(course, completedLessons, score);
    if !r.eligible {
      assert r.reason[..5] == "Need ";
    }
  }

  function SumScores(entries: seq<(Skill, real)>): real
  {
    if entries == [] then 0.0 else SumScores(entries[..|entries| - 1]) + entries[|entries| - 1].1
  }

  /** The skills whose score lies above `bound` (`above`) or below it. */
  function SkillsBeyond(entries: seq<(Skill, real)>, bound: real, above: bool): (r: seq<Skill>)
    ensures |r| <= |entries|
  {
    if entries == [] then []
    else
      var e := entries[0];
      (if (above && e.1 > bound) || (!above && e.1 < bound) then [e.0] else []) + SkillsBeyond(entries[1..], bound, above)
  }

  lemma {:induction false} SkillsBeyondIff(entries: seq<(Skill, real)>, bound: real, above: bool)
    ensures forall s :: s in SkillsBeyond(entries, bound, above) <==>
      exists i :: 0 <= i < |entries| && entries[i].0 == s && (if above then entries[i].1 > bound else entries[i].1 < bound)
  {
    if entries != [] {
      SkillsBeyondIff(entries[1..], bound, above);
      assert forall i :: 1 <= i < |entries| ==> entries[i] == entries[1..][i - 1];
      forall s | exists i :: 0 <= i < |entries| && entries[i].0 == s && (if above then entries[i].1 > bound else entries[i].1 < bound)
        ensures s in SkillsBeyond(entries, bound, above)
      {
        var i :| 0 <= i < |entries| && entries[i].0 == s && (if above then entries[i].1 > bound else entries[i].1 < bound);
        if i > 0 {
          assert entries[1..][i - 1] == entries[i];
        }
      }
    }
  }

  /** The average is not a number for an empty record (0 / 0); nothing then passes either filter. */
  datatype SkillAnalysis = SkillAnalysis(strengths: seq<Skill>, weaknesses: seq<Skill>, average: Option<real>)

  /** analyzeSkillPerformance: skills more than 10 above the average are strengths, more than 10 below are weaknesses. */
  function AnalyzeSkills(entries: seq<(Skill, real)>): (r: SkillAnalysis)
    ensures entries == [] <==> r.average.None?
    ensures r.average.None? ==> r.strengths == [] && r.weaknesses == []
  {
    if entries == [] then SkillAnalysis([], [], None)
    else
      var average := SumScores(entries) / |entries| as real;
      SkillAnalysis(SkillsBeyond(entries, average + 10.0, true), SkillsBeyond(entries, average - 10.0, false), Some(average))
  }

  /** With distinct skills, no skill is both a strength and a weakness. */
  lemma AnalyzeSkillsDisjoint(entries: seq<(Skill, real)>)
    requires forall i, j :: 0 <= i < j < |entries| ==> entries[i].0 != entries[j].0
    ensures var r := AnalyzeSkills(entries); forall s :: s in r.strengths ==> s !in r.weaknesses
  {
    if entries != [] {
      var r := AnalyzeSkills(entries);
      var a := r.average.value;
      SkillsBeyondIff(entries, a + 10.0, true);
      SkillsBeyondIff(entries, a - 10.0, false);
      forall s | s in r.strengths
        ensures s !in r.weaknesses
      {
        var i :| 0 <= i < |entries| && entries[i].0 == s && entries[i].1 > a + 10.0;
        assert forall j :: 0 <= j < |entries| && entries[j].0 == s ==> j == i;
      }
    }
  }

  /**
   * calculateEngagementScore: streak (5 per day, at most 30), performance
   * (0.3 per point, at most 30), lessons (2 each, at most 25) and time
   * (3 per hour, at most 15), capped at 100.
   */
  function EngagementScore(streakDays: real, averageScore: real, lessonsCompleted: real, totalTimeSpentMs: real): (r: real)
    ensures r <= 100.0
  {
    var score := MinReal(streakDays * 5.0, 30.0) + MinReal(averageScore * 0.3, 30.0)
      + MinReal(lessonsCompleted * 2.0, 25.0) + MinReal(totalTimeSpentMs / 3600000.0 * 3.0, 15.0);
    MinReal(score, 100.0)
  }

  /** The four caps add up to 100, so the final cap never binds; with non-negative inputs the score is non-negative. */
  lemma EngagementScoreRange(streakDays: real, averageScore: real, lessonsCompleted: real, totalTimeSpentMs: real)
    ensures EngagementScore(streakDays, averageScore, lessonsCompleted, totalTimeSpentMs) ==
      MinReal(streakDays * 5.0, 30.0) + MinReal(averageScore * 0.3, 30.0)
      + MinReal(lessonsCompleted * 2.0, 25.0) + MinReal(totalTimeSpentMs / 3600000.0 * 3.0, 15.0)
    ensures streakDays >= 0.0 && averageScore >= 0.0 && lessonsCompleted >= 0.0 && totalTimeSpentMs >= 0.0 ==>
      EngagementScore(streakDays, averageScore, lessonsCompleted, totalTimeSpentMs) >= 0.0
  {
  }
}
