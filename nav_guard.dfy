/**
 * The skip-ahead rule of the lesson navigation guard: given the lesson a
 * learner wants to open, what they have completed and the lessons on
 * offer, the guard either lets them through or warns, naming a reason, a
 * confidence and the lessons it recommends first.
 */
module NavGuard {
  import opened Util

  datatype Level = Beginner | Intermediate | Advanced
  datatype Status = Completed | Current | Locked | Available

  datatype Lesson = Lesson(
    id: string,
    title: string,
    difficulty: Level,
    status: Status,
    prerequisiteIds: Option<seq<string>>)

  datatype UserProgress = UserProgress(
    completedLessons: seq<string>,
    currentLevel: int,
    streakDays: int,
    totalXP: int,
    preferredDifficulty: Level)

  datatype SkipReason = DifficultyJump | MissingPrerequisites | OptimalPath | NoSkip

  datatype Recommendation = Recommendation(
    recommendedLessons: seq<Lesson>,
    skipReason: SkipReason,
    confidenceScore: real,
    motivationalMessage: string)

  const MissingPrerequisitesEncouragement: string := "Each lesson teaches skills you'll need for the next one. Trust the journey!"
  const DifficultyJumpEncouragement: string := "Building a strong foundation will make advanced concepts much easier to grasp!"
  const OptimalPathEncouragement: string := "The most successful learners follow the recommended path. You're doing great!"
  const NoSkipEncouragement: string := "Great job staying on track with your learning goals!"

  // ---------------------------------------------------------------------------
  // the filters analyzeNavigation is made of
  // ---------------------------------------------------------------------------

  /** The prerequisites not yet completed, in their listed order. */
  function MissingPrereqs(prereqs: seq<string>, completed: seq<string>): (r: seq<string>)
    ensures |r| <= |prereqs|
  {
    if prereqs == [] then []
    else (if prereqs[0] in completed then [] else [prereqs[0]]) + MissingPrereqs(prereqs[1..], completed)
  }

  lemma {:induction false} MissingPrereqsIff(prereqs: seq<string>, completed: seq<string>)
    ensures forall x :: x in MissingPrereqs(prereqs, completed) <==> x in prereqs && x !in completed
  {
    if prereqs != [] {
      MissingPrereqsIff(prereqs[1..], completed);
      assert forall x :: x in prereqs <==> x == prereqs[0] || x in prereqs[1..];
    }
  }

  /** The lessons whose id is listed, in the order of the lesson list. */
  function LessonsWithIds(lessons: seq<Lesson>, ids: seq<string>): (r: seq<Lesson>)
    ensures |r| <= |lessons|
  {
    if lessons == [] then []
    else (if lessons[0].id in ids then [lessons[0]] else []) + LessonsWithIds(lessons[1..], ids)
  }

  lemma {:induction false} LessonsWithIdsIff(lessons: seq<Lesson>, ids: seq<string>)
    ensures forall l :: l in LessonsWithIds(lessons, ids) <==> l in lessons && l.id in ids
  {
    if lessons != [] {
      LessonsWithIdsIff(lessons[1..], ids);
      assert forall l :: l in lessons <==> l == lessons[0] || l in lessons[1..];
    }
  }

  /** The difficulty of each listed lesson the learner has completed, one entry per lesson. */
  function CompletedDifficulties(lessons: seq<Lesson>, completed: seq<string>): (r: seq<Level>)
    ensures |r| == |LessonsWithIds(lessons, completed)|
  {
    if lessons == [] then []
    else (if lessons[0].id in completed then [lessons[0].difficulty] else []) + CompletedDifficulties(lessons[1..], completed)
  }

  lemma {:induction false} CompletedDifficultiesIff(lessons: seq<Lesson>, completed: seq<string>, d: Level)
    ensures d in CompletedDifficulties(lessons, completed) <==>
              exists l :: l in lessons && l.id in completed && l.difficulty == d
  {
    if lessons != [] {
      CompletedDifficultiesIff(lessons[1..], completed, d);
      assert forall l :: l in lessons <==> l == lessons[0] || l in lessons[1..];
      if lessons[0].id in completed && lessons[0].difficulty == d {
        assert lessons[0] in lessons;
      }
    }
  }

  /**
   * The lessons of a level that are open to the learner: not locked and,
   * when `skipCompleted` holds, not completed either.
   */
  function OpenLessons(lessons: seq<Lesson>, level: Level, skipCompleted: bool): (r: seq<Lesson>)
    ensures |r| <= |lessons|
  {
    if lessons == [] then []
    else
      var l := lessons[0];
      var keep := l.difficulty == level && l.status != Locked && !(skipCompleted && l.status == Completed);
      (if keep then [l] else []) + OpenLessons(lessons[1..], level, skipCompleted)
  }

  lemma {:induction false} OpenLessonsIff(lessons: seq<Lesson>, level: Level, skipCompleted: bool)
    ensures forall l :: l in OpenLessons(lessons, level, skipCompleted) <==>
              l in lessons && l.difficulty == level && l.status != Locked && !(skipCompleted && l.status == Completed)
  {
    if lessons != [] {
      OpenLessonsIff(lessons[1..], level, skipCompleted);
      assert forall l :: l in lessons <==> l == lessons[0] || l in lessons[1..];
    }
  }

  // ---------------------------------------------------------------------------
  // analyzeNavigation
  // ---------------------------------------------------------------------------

  /** The prerequisites of the target the learner still lacks; none when it lists none. */
  function Missing(target: Lesson, progress: UserProgress): seq<string>
  {
    match target.prerequisiteIds
    case None => []
    case Some(ids) => MissingPrereqs(ids, progress.completedLessons)
  }

  /**
   * `analyzeNavigation`: missing prerequisites first, then a jump to an
   * advanced lesson without intermediate experience, then an intermediate
   * lesson with fewer than two completed lessons, else no warning.
   */
  function AnalyzeNavigation(target: Lesson, progress: UserProgress, lessons: seq<Lesson>): (r: Recommendation)
  {
    var missing := Missing(target, progress);
    if |missing| > 0 then
      Recommendation(LessonsWithIds(lessons, missing), MissingPrerequisites, 0.9, MissingPrerequisitesEncouragement)
    else
      var done := CompletedDifficulties(lessons, progress.completedLessons);
      if target.difficulty == Advanced && Intermediate !in done then
        Recommendation(OpenLessons(lessons, Intermediate, false), DifficultyJump, 0.8, DifficultyJumpEncouragement)
      else if target.difficulty == Intermediate && |done| < 2 then
        Recommendation(OpenLessons(lessons, Beginner, true), OptimalPath, 0.7, OptimalPathEncouragement)
      else
        Recommendation([], NoSkip, 1.0, NoSkipEncouragement)
  }

  /** The learner has completed every prerequisite the target lists. */
  predicate PrerequisitesMet(target: Lesson, progress: UserProgress)
  {
    target.prerequisiteIds.Some? ==> forall x :: x in target.prerequisiteIds.value ==> x in progress.completedLessons
  }

  lemma MissingIff(target: Lesson, progress: UserProgress)
    ensures |Missing(target, progress)| > 0 <==> !PrerequisitesMet(target, progress)
    ensures forall x :: x in Missing(target, progress) <==>
              target.prerequisiteIds.Some? && x in target.prerequisiteIds.value && x !in progress.completedLessons
  {
    if target.prerequisiteIds.Some? {
      var ids := target.prerequisiteIds.value;
      MissingPrereqsIff(ids, progress.completedLessons);
      if !PrerequisitesMet(target, progress) {
        var x :| x in ids && x !in progress.completedLessons;
        assert x in Missing(target, progress);
      }
      if |Missing(target, progress)| > 0 {
        assert Missing(target, progress)[0] in Missing(target, progress);
      }
    }
  }

  /** Missing prerequisites come first: they are recommended, with confidence 0.9. */
  lemma MissingPrerequisitesFirst(target: Lesson, progress: UserProgress, lessons: seq<Lesson>)
    requires !PrerequisitesMet(target, progress)
    ensures var r := AnalyzeNavigation(target, progress, lessons);
            && r.skipReason == MissingPrerequisites && r.confidenceScore == 0.9
            && (forall l :: l in r.recommendedLessons <==>
                  l in lessons && l.id in target.prerequisiteIds.value && l.id !in progress.completedLessons)
  {
    MissingIff(target, progress);
    LessonsWithIdsIff(lessons, Missing(target, progress));
  }

  /** The learner has completed some listed lesson of this level. */
  predicate HasExperience(lessons: seq<Lesson>, progress: UserProgress, level: Level)
  {
    exists l :: l in lessons && l.id in progress.completedLessons && l.difficulty == level
  }

  /**
   * An advanced target without completed intermediate lessons is a
   * difficulty jump, with confidence 0.8, recommending the intermediate
   * lessons that are not locked.
   */
  lemma AdvancedNeedsIntermediate(target: Lesson, progress: UserProgress, lessons: seq<Lesson>)
    requires PrerequisitesMet(target, progress)
    requires target.difficulty == Advanced && !HasExperience(lessons, progress, Intermediate)
    ensures var r := AnalyzeNavigation(target, progress, lessons);
            && r.skipReason == DifficultyJump && r.confidenceScore == 0.8
            && (forall l :: l in r.recommendedLessons <==>
                  l in lessons && l.difficulty == Intermediate && l.status != Locked)
  {
    MissingIff(target, progress);
    CompletedDifficultiesIff(lessons, progress.completedLessons, Intermediate);
    OpenLessonsIff(lessons, Intermediate, false);
  }

  /**
   * An intermediate target with fewer than two completed listed lessons
   * asks for the optimal path, with confidence 0.7, recommending the open
   * beginner lessons not yet completed.
   */
  lemma IntermediateNeedsTwoLessons(target: Lesson, progress: UserProgress, lessons: seq<Lesson>)
    requires PrerequisitesMet(target, progress)
    requires target.difficulty == Intermediate && |LessonsWithIds(lessons, progress.completedLessons)| < 2
    ensures var r := AnalyzeNavigation(target, progress, lessons);
            && r.skipReason == OptimalPath && r.confidenceScore == 0.7
            && (forall l :: l in r.recommendedLessons <==>
                  l in lessons && l.difficulty == Beginner && l.status != Locked && l.status != Completed)
  {
    MissingIff(target, progress);
    OpenLessonsIff(lessons, Beginner, true);
  }

  /** In every other case the guard lets the learner through, fully confident and recommending nothing. */
  lemma OtherwiseNoWarning(target: Lesson, progress: UserProgress, lessons: seq<Lesson>)
    requires PrerequisitesMet(target, progress)
    requires target.difficulty == Advanced ==> HasExperience(lessons, progress, Intermediate)
    requires target.difficulty == Intermediate ==> |LessonsWithIds(lessons, progress.completedLessons)| >= 2
    ensures AnalyzeNavigation(target, progress, lessons) == Recommendation([], NoSkip, 1.0, NoSkipEncouragement)
  {
    MissingIff(target, progress);
    CompletedDifficultiesIff(lessons, progress.completedLessons, Intermediate);
  }

  /** A beginner lesson whose prerequisites are met never warns. */
  lemma BeginnerLessonsOpen(target: Lesson, progress: UserProgress, lessons: seq<Lesson>)
    requires PrerequisitesMet(target, progress) && target.difficulty == Beginner
    ensures !ShouldWarn(AnalyzeNavigation(target, progress, lessons))
  {
    OtherwiseNoWarning(target, progress, lessons);
  }

  /** A warning always comes with less than full confidence. */
  lemma WarningConfidence(target: Lesson, progress: UserProgress, lessons: seq<Lesson>)
    ensures var r := AnalyzeNavigation(target, progress, lessons);
            && (ShouldWarn(r) <==> r.confidenceScore < 1.0)
            && (!ShouldWarn(r) ==> r.recommendedLessons == [])
  {
  }

  // ---------------------------------------------------------------------------
  // the dialog
  // ---------------------------------------------------------------------------

  /** The dialog shows a warning for every reason except `none`. */
  function ShouldWarn(r: Recommendation): (warn: bool)
    ensures warn <==> r.skipReason != NoSkip
  {
    r.skipReason != NoSkip
  }

  /** The three beginner lessons the dialog analyses against. */
  const MockLessons: seq<Lesson> := [
    Lesson("basics-1", "Greetings", Beginner, Completed, None),
    Lesson("basics-2", "Numbers", Beginner, Current, None),
    Lesson("basics-3", "Family", Beginner, Available, None)]

  /**
   * The dialog's lesson list has no intermediate lesson, so every advanced
   * target warns of a difficulty jump once its prerequisites are met.
   */
  lemma DialogAdvancedAlwaysWarns(target: Lesson, progress: UserProgress)
    requires PrerequisitesMet(target, progress) && target.difficulty == Advanced
    ensures AnalyzeNavigation(target, progress, MockLessons).skipReason == DifficultyJump
    ensures AnalyzeNavigation(target, progress, MockLessons).recommendedLessons == []
  {
    assert !HasExperience(MockLessons, progress, Intermediate);
    AdvancedNeedsIntermediate(target, progress, MockLessons);
  }
}
