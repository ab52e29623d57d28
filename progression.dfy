/**
 * The progression service: the player level and the per-skill levels that
 * follow from XP, the XP a finished game earns, achievements, the daily
 * streak and the stored history of games.
 *
 * The key-value store is split by key prefix into three maps: profiles
 * (`profile_<id>`), last-active days (`last_active_<id>`) and game histories
 * (`sessions_<id>`). The values are kept as values, not as JSON text. The
 * clock is a parameter: `now` is the millisecond time of a call, and `today`
 * is that call's calendar day as a day number, so the day before is `today - 1`.
 */
module Progression {
  import opened Util

  datatype SkillProgress = SkillProgress(
    level: int,
    currentXP: int,
    totalXP: int,
    xpToNextLevel: int,
    masteredConcepts: seq<string>,
    weakConcepts: seq<string>,
    lastPracticed: int)

  datatype Achievement = Achievement(
    id: string,
    name: string,
    description: string,
    category: string,
    xpReward: int,
    badgeIcon: string,
    badgeColor: string,
    rarity: string,
    unlockedAt: Option<int>,
    progress: Option<int>)

  datatype UserProfile = UserProfile(
    id: string,
    username: string,
    level: int,
    totalXP: int,
    currentStreak: int,
    longestStreak: int,
    totalGamesPlayed: nat,
    totalTimeSpent: int,
    averageScore: real,
    bestScore: int,
    achievements: seq<Achievement>,
    skillLevels: map<string, SkillProgress>)

  datatype LevelReward = LevelReward(
    level: int, rewardType: string, name: string, description: string,
    icon: Option<string>, unlocks: Option<seq<string>>)

  /** A level gained; `skill` is `None` for the player level. */
  datatype LevelUp = LevelUp(
    skill: Option<string>, previousLevel: int, newLevel: int, xpRequired: int, rewards: seq<LevelReward>)

  /** A game; `skillXP` lists the record's entries in insertion order. */
  datatype GameSession = GameSession(
    id: string,
    userId: string,
    startTime: int,
    endTime: Option<int>,
    duration: Option<int>,
    gameMode: string,
    difficulty: string,
    score: int,
    maxScore: int,
    accuracy: real,
    questionsAnswered: int,
    correctAnswers: int,
    xpEarned: int,
    skillXP: seq<(string, int)>,
    levelUps: seq<LevelUp>,
    achievementsUnlocked: seq<Achievement>,
    streakMaintained: bool,
    newBestScore: bool,
    perfectGame: bool)

  const NoUserError: string := "Aucun utilisateur connecté"
  const NoSessionError: string := "Aucune session active"

  // ---------------------------------------------------------------------------
  // Levels
  // ---------------------------------------------------------------------------

  /** The total XP at which each level starts; level `l` starts at `XPLevels[l - 1]`. */
  const XPLevels: seq<int> := [0, 100, 250, 500, 1000, 2000, 3500, 5500, 8000, 12000, 17000]

  /** `level` is the least level in 1..10 whose next threshold `xp` has not reached, else 11. */
  predicate IsLevel(xp: int, level: int)
  {
    && 1 <= level <= |XPLevels|
    && (forall l :: 1 <= l < level ==> XPLevels[l] <= xp)
    && (level < |XPLevels| ==> xp < XPLevels[level])
  }

  function LevelFrom(xp: int, level: int): int
    requires 1 <= level <= |XPLevels|
    decreases |XPLevels| - level
  {
    if level == |XPLevels| || xp < XPLevels[level] then level else LevelFrom(xp, level + 1)
  }

  /** The level for a total XP, as a value for the lemmas. */
  function LevelOf(xp: int): int
  {
    LevelFrom(xp, 1)
  }

  lemma {:induction false} LevelFromIsLevel(xp: int, level: int)
    requires 1 <= level <= |XPLevels|
    requires forall l :: 1 <= l < level ==> XPLevels[l] <= xp
    ensures IsLevel(xp, LevelFrom(xp, level))
    decreases |XPLevels| - level
  {
    if level < |XPLevels| && xp >= XPLevels[level] {
      LevelFromIsLevel(xp, level + 1);
    }
  }

  /** `LevelOf` is the least-level reading of the table, and no other level fits it. */
  lemma LevelOfLeast(xp: int)
    ensures IsLevel(xp, LevelOf(xp))
    ensures forall l :: IsLevel(xp, l) ==> l == LevelOf(xp)
  {
    LevelFromIsLevel(xp, 1);
    forall l | IsLevel(xp, l)
      ensures l == LevelOf(xp)
    {
    }
  }

  /** More XP never gives a lower level. */
  lemma LevelMonotone(x: int, y: int)
    requires x <= y
    ensures LevelOf(x) <= LevelOf(y)
  {
    LevelOfLeast(x);
    LevelOfLeast(y);
  }

  /** `calculateLevel`: the loop over the thresholds with an early return. */
  method CalculateLevel(totalXP: int) returns (level: int)
    ensures IsLevel(totalXP, level)
    ensures level == LevelOf(totalXP)
  {
    level := 1;
    while level < |XPLevels|
      invariant 1 <= level <= |XPLevels|
      invariant forall l :: 1 <= l < level ==> XPLevels[l] <= totalXP
    {
      if totalXP < XPLevels[level] {
        LevelOfLeast(totalXP);
        return;
      }
      level := level + 1;
    }
    LevelOfLeast(totalXP);
  }

  /** `getXPForLevel`: the threshold of a level, 0 outside the table. */
  function XPForLevel(level: int): int
  {
    if 1 <= level <= |XPLevels| then XPLevels[level - 1] else 0
  }

  /** A non-negative total lies between the threshold of its level and that of the next. */
  lemma LevelThresholds(xp: int)
    requires xp >= 0
    ensures XPForLevel(LevelOf(xp)) <= xp
    ensures LevelOf(xp) < |XPLevels| ==> xp < XPForLevel(LevelOf(xp) + 1)
  {
    LevelOfLeast(xp);
    var l := LevelOf(xp);
    if l > 1 {
      assert XPLevels[l - 1] <= xp;
    }
  }

  /** `calculateSkillLevel`: one skill level per 80 XP, starting at level 1. */
  function SkillLevel(xp: int): (level: int)
    ensures XPForSkillLevel(level) <= xp < XPForSkillLevel(level + 1)
  {
    xp / 80 + 1
  }

  /** `getXPForSkillLevel`. */
  function XPForSkillLevel(level: int): int
  {
    (level - 1) * 80
  }

  lemma SkillLevelMonotone(x: int, y: int)
    requires x <= y
    ensures SkillLevel(x) <= SkillLevel(y)
  {
  }

  /** `getLevelRewards`: a content pack at every fifth level, nothing otherwise. */
  function LevelRewards(level: int): (r: seq<LevelReward>)
    ensures |r| <= 1
    ensures |r| == 1 <==> level % 5 == 0
    ensures |r| == 1 ==> r[0].level == level && r[0].rewardType == "content"
  {
    if level % 5 == 0 then
      var n := IntToString(level);
      [LevelReward(level, "content", "Pack Niveau " + n, "Nouveau contenu débloqué",
                   Some("🎁"), Some(["level_" + n + "_content"]))]
    else []
  }

  // ---------------------------------------------------------------------------
  // Awarding XP
  // ---------------------------------------------------------------------------

  datatype Awarded = Awarded(user: UserProfile, levelUps: seq<LevelUp>)

  datatype SkillsAwarded = SkillsAwarded(skillLevels: map<string, SkillProgress>, levelUps: seq<LevelUp>)

  datatype SkillGained = SkillGained(progress: SkillProgress, levelUps: seq<LevelUp>)

  /** The player-level half of `awardXP`: add the XP, then raise the level if it went up. */
  function PlayerAward(u: UserProfile, xp: int): Awarded
  {
    var total := u.totalXP + xp;
    var newLevel := LevelOf(total);
    if newLevel > u.level then
      Awarded(u.(totalXP := total, level := newLevel),
              [LevelUp(None, u.level, newLevel, XPForLevel(newLevel), LevelRewards(newLevel))])
    else
      Awarded(u.(totalXP := total), [])
  }

  /** One skill's update in `awardXP`'s loop over the skill XP record. */
  function SkillGain(skill: string, p: SkillProgress, xp: int, now: int): SkillGained
  {
    var q := p.(currentXP := p.currentXP + xp, totalXP := p.totalXP + xp, lastPracticed := now);
    var newLevel := SkillLevel(q.totalXP);
    if newLevel > p.level then
      SkillGained(q.(level := newLevel, xpToNextLevel := XPForSkillLevel(newLevel + 1) - q.totalXP),
                  [LevelUp(Some(skill), p.level, newLevel, XPForSkillLevel(newLevel), [])])
    else
      SkillGained(q.(xpToNextLevel := XPForSkillLevel(p.level + 1) - q.totalXP), [])
  }

  /** The skill records after the entries in order, and the skill level-ups they produced. */
  function SkillsAfter(levels: map<string, SkillProgress>, entries: seq<(string, int)>, now: int): SkillsAwarded
    decreases |entries|
  {
    if entries == [] then SkillsAwarded(levels, [])
    else
      var prev := SkillsAfter(levels, entries[..|entries| - 1], now);
      var skill := entries[|entries| - 1].0;
      if skill in prev.skillLevels then
        var g := SkillGain(skill, prev.skillLevels[skill], entries[|entries| - 1].1, now);
        SkillsAwarded(prev.skillLevels[skill := g.progress], prev.levelUps + g.levelUps)
      else prev
  }

  lemma SkillsAfterSnoc(levels: map<string, SkillProgress>, entries: seq<(string, int)>, i: nat, now: int)
    requires i < |entries|
    ensures var before := SkillsAfter(levels, entries[..i], now);
            var skill := entries[i].0;
            SkillsAfter(levels, entries[..i + 1], now) ==
              if skill in before.skillLevels then
                var g := SkillGain(skill, before.skillLevels[skill], entries[i].1, now);
                SkillsAwarded(before.skillLevels[skill := g.progress], before.levelUps + g.levelUps)
              else before
  {
    assert entries[..i + 1][..i] == entries[..i];
  }

  /** `awardXP` on a signed-in profile: the new profile and the level-ups it records. */
  function Award(u: UserProfile, xp: int, entries: seq<(string, int)>, now: int): Awarded
  {
    var a := PlayerAward(u, xp);
    var s := SkillsAfter(a.user.skillLevels, entries, now);
    Awarded(a.user.(skillLevels := s.skillLevels), a.levelUps + s.levelUps)
  }

  /** Every level-up entry records a rise. */
  predicate Rises(ups: seq<LevelUp>)
  {
    forall k :: 0 <= k < |ups| ==> ups[k].previousLevel < ups[k].newLevel
  }

  /** Every entry is a skill's. */
  predicate AllSkillUps(ups: seq<LevelUp>)
  {
    forall k :: 0 <= k < |ups| ==> ups[k].skill.Some?
  }

  /** A skill record whose level and distance to the next level agree with its XP. */
  predicate SkillInSync(p: SkillProgress)
  {
    p.level == SkillLevel(p.totalXP) && p.xpToNextLevel == XPForSkillLevel(p.level + 1) - p.totalXP
  }

  predicate SkillsInSync(levels: map<string, SkillProgress>)
  {
    forall k :: k in levels ==> SkillInSync(levels[k])
  }

  function Keys(entries: seq<(string, int)>): (r: seq<string>)
    ensures |r| == |entries| && forall j :: 0 <= j < |r| ==> r[j] == entries[j].0
  {
    seq(|entries|, j requires 0 <= j < |entries| => entries[j].0)
  }

  lemma SkillsAfterFacts(levels: map<string, SkillProgress>, entries: seq<(string, int)>, now: int)
    ensures var s := SkillsAfter(levels, entries, now);
            && s.skillLevels.Keys == levels.Keys
            && Rises(s.levelUps) && AllSkillUps(s.levelUps)
            && (forall k :: k in levels && k !in Keys(entries) ==> s.skillLevels[k] == levels[k])
    ensures (forall j :: 0 <= j < |entries| ==> entries[j].1 >= 0) && SkillsInSync(levels) ==>
              SkillsInSync(SkillsAfter(levels, entries, now).skillLevels)
  {
    SkillsAfterFrame(levels, entries, now);
    SkillsAfterRises(levels, entries, now);
    if (forall j :: 0 <= j < |entries| ==> entries[j].1 >= 0) && SkillsInSync(levels) {
      SkillsAfterSync(levels, entries, now);
    }
  }

  lemma {:induction false} SkillsAfterFrame(levels: map<string, SkillProgress>, entries: seq<(string, int)>, now: int)
    ensures var s := SkillsAfter(levels, entries, now);
            && s.skillLevels.Keys == levels.Keys
            && (forall k :: k in levels && k !in Keys(entries) ==> s.skillLevels[k] == levels[k])
    decreases |entries|
  {
    if entries != [] {
      var init := entries[..|entries| - 1];
      SkillsAfterFrame(levels, init, now);
      assert forall k :: k in Keys(init) ==> k in Keys(entries) by {
        forall k | k in Keys(init) ensures k in Keys(entries) {
          var j :| 0 <= j < |init| && Keys(init)[j] == k;
          assert Keys(entries)[j] == k;
        }
      }
      assert entries[|entries| - 1].0 in Keys(entries) by {
        assert Keys(entries)[|entries| - 1] == entries[|entries| - 1].0;
      }
    }
  }

  lemma {:induction false} SkillsAfterRises(levels: map<string, SkillProgress>, entries: seq<(string, int)>, now: int)
    ensures var s := SkillsAfter(levels, entries, now);
            Rises(s.levelUps) && AllSkillUps(s.levelUps)
    decreases |entries|
  {
    if entries != [] {
      var init := entries[..|entries| - 1];
      SkillsAfterRises(levels, init, now);
      var prev := SkillsAfter(levels, init, now);
      var skill := entries[|entries| - 1].0;
      if skill in prev.skillLevels {
        var g := SkillGain(skill, prev.skillLevels[skill], entries[|entries| - 1].1, now);
        assert SkillsAfter(levels, entries, now).levelUps == prev.levelUps + g.levelUps;
      }
    }
  }

  lemma {:induction false} SkillsAfterSync(levels: map<string, SkillProgress>, entries: seq<(string, int)>, now: int)
    requires forall j :: 0 <= j < |entries| ==> entries[j].1 >= 0
    requires SkillsInSync(levels)
    ensures SkillsInSync(SkillsAfter(levels, entries, now).skillLevels)
    decreases |entries|
  {
    if entries != [] {
      var init := entries[..|entries| - 1];
      assert forall j :: 0 <= j < |init| ==> init[j].1 >= 0 by {
        forall j | 0 <= j < |init| ensures init[j].1 >= 0 {
          assert init[j] == entries[j];
        }
      }
      SkillsAfterSync(levels, init, now);
      var prev := SkillsAfter(levels, init, now);
      var skill := entries[|entries| - 1].0;
      if skill in prev.skillLevels {
        var p := prev.skillLevels[skill];
        assert SkillInSync(p);
        SkillLevelMonotone(p.totalXP, p.totalXP + entries[|entries| - 1].1);
      }
    }
  }


  /**
   * With distinct skill keys, every listed skill the profile tracks gains
   * exactly its entry's XP, in both its current and its total XP.
   */
  lemma {:induction false} SkillsGainTheirXP(levels: map<string, SkillProgress>, entries: seq<(string, int)>, now: int)
    requires Distinct(Keys(entries))
    ensures var s := SkillsAfter(levels, entries, now);
            forall j :: 0 <= j < |entries| && entries[j].0 in levels ==>
              && entries[j].0 in s.skillLevels
              && s.skillLevels[entries[j].0].totalXP == levels[entries[j].0].totalXP + entries[j].1
              && s.skillLevels[entries[j].0].currentXP == levels[entries[j].0].currentXP + entries[j].1
              && s.skillLevels[entries[j].0].lastPracticed == now
    decreases |entries|
  {
    if entries != [] {
      var n := |entries| - 1;
      var init := entries[..n];
      assert Keys(init) == Keys(entries)[..n];
      DistinctPrefix(Keys(entries), n);
      DistinctLast(Keys(entries));
      SkillsAfterFacts(levels, init, now);
      SkillsGainTheirXP(levels, init, now);
      var prev := SkillsAfter(levels, init, now);
      var s := SkillsAfter(levels, entries, now);
      var skill := entries[n].0;
      assert skill !in Keys(init);
      forall j | 0 <= j < |entries| && entries[j].0 in levels
        ensures entries[j].0 in s.skillLevels
        ensures s.skillLevels[entries[j].0].totalXP == levels[entries[j].0].totalXP + entries[j].1
        ensures s.skillLevels[entries[j].0].currentXP == levels[entries[j].0].currentXP + entries[j].1
        ensures s.skillLevels[entries[j].0].lastPracticed == now
      {
        if j == n {
          assert prev.skillLevels[skill] == levels[skill];
        } else {
          assert init[j] == entries[j];
          assert Keys(init)[j] == entries[j].0;
          assert entries[j].0 != skill;
        }
      }
    }
  }

  /**
   * `awardXP` adds the XP to the total and changes nothing but the total, the
   * level and the skill records; the level never goes down, it becomes the
   * table's level exactly when that is higher, and a player level-up entry is
   * recorded exactly then. Every entry recorded is a rise.
   */
  lemma AwardFacts(u: UserProfile, xp: int, entries: seq<(string, int)>, now: int)
    ensures var a := Award(u, xp, entries, now);
            && a.user == u.(totalXP := u.totalXP + xp, level := a.user.level, skillLevels := a.user.skillLevels)
            && a.user.level == MaxInt(u.level, LevelOf(u.totalXP + xp))
            && a.user.skillLevels.Keys == u.skillLevels.Keys
            && (entries == [] ==> a.user.skillLevels == u.skillLevels)
            && Rises(a.levelUps)
            && ((exists k :: 0 <= k < |a.levelUps| && a.levelUps[k].skill.None?) <==> LevelOf(u.totalXP + xp) > u.level)
  {
    var p := PlayerAward(u, xp);
    SkillsAfterFacts(p.user.skillLevels, entries, now);
    var s := SkillsAfter(p.user.skillLevels, entries, now);
    var a := Award(u, xp, entries, now);
    assert a.levelUps == p.levelUps + s.levelUps;
    if LevelOf(u.totalXP + xp) > u.level {
      assert a.levelUps[0].skill.None?;
    } else {
      assert p.levelUps == [];
      assert a.levelUps == s.levelUps;
    }
  }

  /** With non-negative XP, a profile whose levels agree with its XP keeps them in agreement. */
  lemma AwardKeepsLevelsInSync(u: UserProfile, xp: int, entries: seq<(string, int)>, now: int)
    requires u.level == LevelOf(u.totalXP) && SkillsInSync(u.skillLevels)
    requires xp >= 0 && forall j :: 0 <= j < |entries| ==> entries[j].1 >= 0
    ensures Award(u, xp, entries, now).user.level == LevelOf(u.totalXP + xp)
    ensures SkillsInSync(Award(u, xp, entries, now).user.skillLevels)
  {
    LevelMonotone(u.totalXP, u.totalXP + xp);
    AwardFacts(u, xp, entries, now);
    SkillsAfterFacts(u.skillLevels, entries, now);
  }

  // ---------------------------------------------------------------------------
  // XP for a finished game
  // ---------------------------------------------------------------------------

  const BaseXP: real := 10.0
  const PerfectBonus: int := 50
  const DailyXPCap: int := 1000
  const KeptSessions: nat := 100

  /** The difficulty multiplier; an unknown difficulty falls back to 1. */
  function DifficultyMultiplier(difficulty: string): (m: real)
    ensures 1.0 <= m <= 2.0
    ensures difficulty !in ["beginner", "intermediate", "advanced"] ==> m == 1.0
  {
    if difficulty == "intermediate" then 1.5 else if difficulty == "advanced" then 2.0 else 1.0
  }

  /** The streak multiplier: a tenth more per streak day, capped at double. */
  function StreakMultiplier(streak: int): (m: real)
    ensures m <= 2.0
    ensures streak >= 0 ==> m >= 1.0
    ensures streak >= 10 <==> m == 2.0
  {
    MinReal(1.0 + streak as real * 0.1, 2.0)
  }

  /** `accuracy`: the share of correct answers, 0 when none were answered. */
  function SessionAccuracy(questionsAnswered: int, correctAnswers: int): real
  {
    if questionsAnswered > 0 then correctAnswers as real / questionsAnswered as real else 0.0
  }

  function PerfectGame(questionsAnswered: int, correctAnswers: int): bool
  {
    SessionAccuracy(questionsAnswered, correctAnswers) == 1.0 && questionsAnswered > 0
  }

  /** A perfect game is exactly one with answers, all of them right. */
  lemma PerfectIff(questionsAnswered: int, correctAnswers: int)
    ensures PerfectGame(questionsAnswered, correctAnswers) <==>
              questionsAnswered > 0 && correctAnswers == questionsAnswered
    ensures 0 <= correctAnswers <= questionsAnswered ==>
              0.0 <= SessionAccuracy(questionsAnswered, correctAnswers) <= 1.0
  {
    if questionsAnswered > 0 {
      var n := questionsAnswered as real;
      assert correctAnswers as real / n * n == correctAnswers as real;
      if 0 <= correctAnswers <= questionsAnswered {
        RatioInUnit(correctAnswers as real, n);
      }
    }
  }

  /** The XP each practised skill earns in one game. */
  function SkillXP(difficulty: string, accuracy: real, perfect: bool, streak: int): int
  {
    Streaked(BaseSkillXP(difficulty, accuracy) + (if perfect then PerfectBonus else 0), streak)
  }

  /** The XP before the bonus and the streak: the base times the difficulty multiplier times one plus the accuracy, floored. */
  function BaseSkillXP(difficulty: string, accuracy: real): int
  {
    Floor(BaseXP * DifficultyMultiplier(difficulty) * (1.0 + accuracy))
  }

  /** XP times the streak multiplier, floored. */
  function Streaked(xp: int, streak: int): int
  {
    Floor(xp as real * StreakMultiplier(streak))
  }

  /** For an accuracy in [0, 1] and a non-negative streak, a skill earns between 10 and 180 XP. */
  lemma SkillXPBounds(difficulty: string, accuracy: real, perfect: bool, streak: int)
    requires 0.0 <= accuracy <= 1.0 && streak >= 0
    ensures 10 <= SkillXP(difficulty, accuracy, perfect, streak) <= 180
  {
    BaseXPBounds(difficulty, accuracy);
    StreakedBounds(BaseSkillXP(difficulty, accuracy) + (if perfect then PerfectBonus else 0), streak);
  }

  lemma BaseXPBounds(difficulty: string, accuracy: real)
    requires 0.0 <= accuracy <= 1.0
    ensures 10 <= BaseSkillXP(difficulty, accuracy) <= 40
  {
    var m := DifficultyMultiplier(difficulty);
    MulMonotone(1.0, 1.0 + accuracy, BaseXP * m);
    MulMonotone(1.0 + accuracy, 2.0, BaseXP * m);
    var x := BaseXP * m * (1.0 + accuracy);
    assert x == (1.0 + accuracy) * (BaseXP * m);
    assert 1.0 * (BaseXP * m) <= x <= 2.0 * (BaseXP * m);
    assert 10.0 <= BaseXP * m <= 20.0;
    assert 10.0 <= x <= 40.0;
    FloorBetween(x, 10, 40);
  }

  lemma StreakedBounds(w: int, streak: int)
    requires 10 <= w <= 90 && streak >= 0
    ensures 10 <= Streaked(w, streak) <= 180
  {
    var sm := StreakMultiplier(streak);
    var r := w as real;
    ScaledBounds(r, sm);
    FloorBetween(r * sm, 10, 180);
  }

  lemma ScaledBounds(r: real, m: real)
    requires 10.0 <= r <= 90.0 && 1.0 <= m <= 2.0
    ensures 10.0 <= r * m <= 180.0
  {
    MulMonotone(1.0, m, r);
    MulMonotone(m, 2.0, r);
    assert r * 1.0 == r && r * 2.0 == r + r;
    assert r * m <= r + r;
  }

  lemma FloorBetween(x: real, lo: int, hi: int)
    requires lo as real <= x <= hi as real
    ensures lo <= Floor(x) <= hi
  {
  }

  /** For a non-negative streak, a perfect game earns each skill at least the 50-point bonus more. */
  lemma PerfectGameEarnsBonus(difficulty: string, accuracy: real, streak: int)
    requires streak >= 0
    ensures SkillXP(difficulty, accuracy, true, streak) >= SkillXP(difficulty, accuracy, false, streak) + PerfectBonus
  {
    var b := BaseSkillXP(difficulty, accuracy);
    var sm := StreakMultiplier(streak);
    var r := b as real;
    assert (b + PerfectBonus) as real * sm == r * sm + 50.0 * sm;
    MulMonotone(1.0, sm, 50.0);
    assert Streaked(b + PerfectBonus, streak) == Floor(r * sm + 50.0 * sm);
  }

  /** The session's skill record: each skill once, in first-use order, with the per-skill XP. */
  function SkillXPEntries(skills: seq<string>, xp: int): (r: seq<(string, int)>)
    ensures Keys(r) == Dedup(skills)
    ensures forall j :: 0 <= j < |r| ==> r[j].1 == xp
  {
    var d := Dedup(skills);
    seq(|d|, j requires 0 <= j < |d| => (d[j], xp))
  }

  /** `xpEarned`: the per-skill XP summed over the skills as listed (repeats included), capped at 1000. */
  function EarnedXP(skills: seq<string>, xp: int): (r: int)
    ensures r <= DailyXPCap
    ensures xp >= 0 ==> r >= 0
    ensures |skills| * xp <= DailyXPCap ==> r == |skills| * xp
  {
    MinInt(|skills| * xp, DailyXPCap)
  }

  // ---------------------------------------------------------------------------
  // Achievements
  // ---------------------------------------------------------------------------

  const Catalogue: seq<Achievement> := [
    Achievement("first_game", "Premier Pas", "Terminez votre premier jeu", "progression", 50,
                "🎮", "#4CAF50", "common", None, None),
    Achievement("games_10", "Joueur Dévoué", "Jouez 10 parties", "progression", 100,
                "🏆", "#FF9800", "uncommon", None, None),
    Achievement("perfect_score", "Perfectionniste", "Obtenez un score parfait", "mastery", 150,
                "💯", "#9C27B0", "rare", None, None),
    Achievement("streak_3", "En Forme", "Maintenez une série de 3 jours", "streak", 75,
                "🔥", "#F44336", "common", None, None),
    Achievement("xp_1000", "Millionnaire", "Gagnez 1000 XP au total", "progression", 100,
                "💰", "#FFD700", "uncommon", None, None)
  ]

  function Ids(achievements: seq<Achievement>): (r: seq<string>)
    ensures |r| == |achievements| && forall j :: 0 <= j < |r| ==> r[j] == achievements[j].id
  {
    seq(|achievements|, j requires 0 <= j < |achievements| => achievements[j].id)
  }

  /** The condition each achievement of the catalogue checks. */
  function Qualifies(a: Achievement, u: UserProfile, s: GameSession): bool
  {
    if a.id == "first_game" then u.totalGamesPlayed >= 1
    else if a.id == "games_10" then u.totalGamesPlayed >= 10
    else if a.id == "perfect_score" then s.perfectGame
    else if a.id == "streak_3" then u.currentStreak >= 3
    else if a.id == "xp_1000" then u.totalXP >= 1000
    else false
  }

  datatype Progress = Progress(user: UserProfile, session: GameSession)

  /** `unlockAchievement`: stamp it, add it to the profile and the game, then award its XP. */
  function Unlocked(p: Progress, a: Achievement, now: int): Progress
  {
    var stamped := a.(unlockedAt := Some(now), progress := Some(1));
    var aw := Award(p.user.(achievements := p.user.achievements + [stamped]), a.xpReward, [], now);
    Progress(aw.user, p.session.(achievementsUnlocked := p.session.achievementsUnlocked + [stamped],
                                 levelUps := p.session.levelUps + aw.levelUps))
  }

  /** One turn of `checkAchievements`: skip one already held, unlock one whose condition holds. */
  function UnlockStep(p: Progress, a: Achievement, now: int): Progress
  {
    if a.id in Ids(p.user.achievements) || !Qualifies(a, p.user, p.session) then p
    else Unlocked(p, a, now)
  }

  function Unlocks(p: Progress, catalogue: seq<Achievement>, now: int): Progress
    decreases |catalogue|
  {
    if catalogue == [] then p
    else UnlockStep(Unlocks(p, catalogue[..|catalogue| - 1], now), catalogue[|catalogue| - 1], now)
  }

  lemma CatalogueFacts()
    ensures Pairwise(Ids(Catalogue))
    ensures forall j :: 0 <= j < |Catalogue| ==> Catalogue[j].xpReward >= 0
  {
  }

  /**
   * `checkAchievements` only appends achievements: the held ones stay first
   * and in order; each appended one comes from the catalogue and was not held
   * before, so a list without repeats stays without repeats. It only adds XP
   * (the rewards are non-negative), never lowers the level, and changes
   * nothing else of the profile; of the game it changes only the unlocked
   * achievements and the level-ups.
   */
  lemma UnlocksFacts(p: Progress, n: nat, now: int)
    requires n <= |Catalogue|
    ensures var r := Unlocks(p, Catalogue[..n], now);
            && r.user == p.user.(totalXP := r.user.totalXP, level := r.user.level, achievements := r.user.achievements)
            && r.session == p.session.(achievementsUnlocked := r.session.achievementsUnlocked, levelUps := r.session.levelUps)
            && r.user.totalXP >= p.user.totalXP && r.user.level >= p.user.level
            && p.user.achievements <= r.user.achievements
            && (forall j :: |p.user.achievements| <= j < |r.user.achievements| ==>
                  r.user.achievements[j].id in Ids(Catalogue[..n]) && r.user.achievements[j].id !in Ids(p.user.achievements))
            && (Pairwise(Ids(p.user.achievements)) ==> Pairwise(Ids(r.user.achievements)))
  {
    UnlocksFrame(p, n, now);
    UnlocksNew(p, n, now);
    if Pairwise(Ids(p.user.achievements)) {
      UnlocksPairwise(p, n, now);
    }
  }

  /** The first `n` turns change only XP, level and achievements, never lowering the first two nor dropping one held. */
  lemma {:induction false} UnlocksFrame(p: Progress, n: nat, now: int)
    requires n <= |Catalogue|
    ensures var r := Unlocks(p, Catalogue[..n], now);
            && r.user == p.user.(totalXP := r.user.totalXP, level := r.user.level, achievements := r.user.achievements)
            && r.session == p.session.(achievementsUnlocked := r.session.achievementsUnlocked, levelUps := r.session.levelUps)
            && r.user.totalXP >= p.user.totalXP && r.user.level >= p.user.level
            && p.user.achievements <= r.user.achievements
  {
    if n > 0 {
      UnlocksFrame(p, n - 1, now);
      assert Catalogue[..n][..n - 1] == Catalogue[..n - 1];
      CatalogueFacts();
      UnlockStepFacts(Unlocks(p, Catalogue[..n - 1], now), Catalogue[n - 1], now);
    }
  }

  /** What the first `n` turns add comes from those `n` achievements and was not held before. */
  lemma {:induction false} UnlocksNew(p: Progress, n: nat, now: int)
    requires n <= |Catalogue|
    ensures var r := Unlocks(p, Catalogue[..n], now);
            forall j :: |p.user.achievements| <= j < |r.user.achievements| ==>
              r.user.achievements[j].id in Ids(Catalogue[..n]) && r.user.achievements[j].id !in Ids(p.user.achievements)
  {
    if n > 0 {
      UnlocksNew(p, n - 1, now);
      UnlocksFrame(p, n - 1, now);
      assert Catalogue[..n][..n - 1] == Catalogue[..n - 1];
      var q := Unlocks(p, Catalogue[..n - 1], now);
      var a := Catalogue[n - 1];
      CatalogueFacts();
      UnlockStepFacts(q, a, now);
      var r := Unlocks(p, Catalogue[..n], now);
      assert r == UnlockStep(q, a, now);
      IdsOfPrefix(Catalogue[..n - 1], Catalogue[..n]);
      if r.user.achievements != q.user.achievements {
        IdsOfPrefix(p.user.achievements, q.user.achievements);
        assert a.id in Ids(Catalogue[..n]) by {
          assert Ids(Catalogue[..n])[n - 1] == a.id;
        }
      }
    }
  }

  /** The first `n` turns never hold one achievement twice. */
  lemma {:induction false} UnlocksPairwise(p: Progress, n: nat, now: int)
    requires n <= |Catalogue|
    requires Pairwise(Ids(p.user.achievements))
    ensures Pairwise(Ids(Unlocks(p, Catalogue[..n], now).user.achievements))
  {
    if n > 0 {
      UnlocksPairwise(p, n - 1, now);
      assert Catalogue[..n][..n - 1] == Catalogue[..n - 1];
      var q := Unlocks(p, Catalogue[..n - 1], now);
      var a := Catalogue[n - 1];
      CatalogueFacts();
      UnlockStepFacts(q, a, now);
      if Unlocks(p, Catalogue[..n], now).user.achievements != q.user.achievements {
        PairwiseIdsSnoc(q.user.achievements, a.(unlockedAt := Some(now), progress := Some(1)));
      }
    }
  }


  lemma UnlocksKeepId(p: Progress, now: int)
    ensures Unlocks(p, Catalogue, now).user.id == p.user.id
  {
    UnlocksFacts(p, |Catalogue|, now);
    assert Catalogue[..|Catalogue|] == Catalogue;
  }

  lemma UnlocksSnoc(p: Progress, i: nat, now: int)
    requires i < |Catalogue|
    ensures Unlocks(p, Catalogue[..i + 1], now) == UnlockStep(Unlocks(p, Catalogue[..i], now), Catalogue[i], now)
  {
    assert Catalogue[..i + 1][..i] == Catalogue[..i];
  }

  /** One turn of `checkAchievements` appends at most the stamped achievement, and only one not held. */
  lemma UnlockStepFacts(q: Progress, a: Achievement, now: int)
    requires a.xpReward >= 0
    ensures var r := UnlockStep(q, a, now);
            && r.user == q.user.(totalXP := r.user.totalXP, level := r.user.level, achievements := r.user.achievements)
            && r.session == q.session.(achievementsUnlocked := r.session.achievementsUnlocked, levelUps := r.session.levelUps)
            && r.user.totalXP >= q.user.totalXP && r.user.level >= q.user.level
            && (r.user.achievements == q.user.achievements
                || (a.id !in Ids(q.user.achievements)
                    && r.user.achievements == q.user.achievements + [a.(unlockedAt := Some(now), progress := Some(1))]))
  {
    if !(a.id in Ids(q.user.achievements) || !Qualifies(a, q.user, q.session)) {
      var stamped := a.(unlockedAt := Some(now), progress := Some(1));
      AwardFacts(q.user.(achievements := q.user.achievements + [stamped]), a.xpReward, [], now);
    }
  }

  lemma IdsOfPrefix(xs: seq<Achievement>, ys: seq<Achievement>)
    requires xs <= ys
    ensures forall x :: x in Ids(xs) ==> x in Ids(ys)
  {
    forall x | x in Ids(xs) ensures x in Ids(ys) {
      var j :| 0 <= j < |xs| && Ids(xs)[j] == x;
      assert Ids(ys)[j] == x;
    }
  }

  lemma PairwiseIdsSnoc(held: seq<Achievement>, b: Achievement)
    requires Pairwise(Ids(held)) && b.id !in Ids(held)
    ensures Pairwise(Ids(held + [b]))
  {
    var ids := Ids(held + [b]);
    forall i, j | 0 <= i < j < |ids| ensures ids[i] != ids[j] {
      assert ids[i] == Ids(held)[i];
      if j < |held| {
        assert ids[j] == Ids(held)[j];
      }
    }
  }

  // ---------------------------------------------------------------------------
  // Games played, streak, history
  // ---------------------------------------------------------------------------

  /** The running mean after one more score. */
  function MeanAfter(mean: real, games: nat, score: int): real
  {
    (mean * games as real + score as real) / (games + 1) as real
  }

  /** `updateUserStats`: count the game, add its time, fold its score into the mean and the best. */
  function StatsAfter(u: UserProfile, s: GameSession): (r: UserProfile)
    ensures r.bestScore == MaxInt(u.bestScore, s.score)
  {
    u.(totalGamesPlayed := u.totalGamesPlayed + 1,
       totalTimeSpent := u.totalTimeSpent + s.duration.GetOr(0),
       averageScore := MeanAfter(u.averageScore, u.totalGamesPlayed, s.score),
       bestScore := if s.score > u.bestScore then s.score else u.bestScore)
  }

  function RunningMean(scores: seq<int>): real
    decreases |scores|
  {
    if scores == [] then 0.0
    else MeanAfter(RunningMean(scores[..|scores| - 1]), |scores| - 1, scores[|scores| - 1])
  }

  /** From a new profile, the stored average is the mean of all scores so far. */
  lemma {:induction false} RunningMeanIsMean(scores: seq<int>)
    ensures RunningMean(scores) * |scores| as real == SumInt(scores) as real
    decreases |scores|
  {
    if scores != [] {
      var init := scores[..|scores| - 1];
      RunningMeanIsMean(init);
      var total := RunningMean(init) * |init| as real + scores[|scores| - 1] as real;
      var n := |scores| as real;
      assert total / n * n == total;
    }
  }

  /** `updateStreak` on the profile: the new profile and whether the streak was kept. */
  function StreakAfter(u: UserProfile, lastActive: Option<int>, today: int): (UserProfile, bool)
  {
    if lastActive == Some(today) then (u, true)
    else if lastActive == Some(today - 1) then
      var streak := u.currentStreak + 1;
      (u.(currentStreak := streak, longestStreak := MaxInt(u.longestStreak, streak)), true)
    else (u.(currentStreak := 1), false)
  }

  /**
   * A second game the same day keeps the streak as it is; a game the day
   * after extends it by one and lifts the longest streak to it; any other day
   * starts it over at 1. Only the two streak fields may change, and the
   * longest streak never goes down.
   */
  lemma StreakRules(u: UserProfile, lastActive: Option<int>, today: int)
    ensures var (r, kept) := StreakAfter(u, lastActive, today);
            && r == u.(currentStreak := r.currentStreak, longestStreak := r.longestStreak)
            && r.longestStreak >= u.longestStreak
            && (kept <==> lastActive == Some(today) || lastActive == Some(today - 1))
            && (lastActive == Some(today) ==> r == u)
            && (lastActive == Some(today - 1) ==>
                  r.currentStreak == u.currentStreak + 1 && r.longestStreak >= r.currentStreak)
            && (!kept ==> r.currentStreak == 1 && r.longestStreak == u.longestStreak)
  {
  }

  /**
   * A restart does not lift the longest streak: a new profile's first game
   * leaves the current streak at 1 and the longest at 0.
   */
  lemma FirstGameLeavesLongestBehind(userId: string, today: int)
    ensures var (r, kept) := StreakAfter(NewProfile(userId), None, today);
            !kept && r.currentStreak == 1 && r.longestStreak == 0
  {
  }

  /** `saveSession`: append the game and keep only the latest 100. */
  function SavedSessions(log: seq<GameSession>, s: GameSession): (r: seq<GameSession>)
    ensures |r| == MinInt(|log| + 1, KeptSessions)
    ensures r[|r| - 1] == s
    ensures r == (log + [s])[|log| + 1 - |r|..]
  {
    KeepLast(log + [s], KeptSessions)
  }

  // ---------------------------------------------------------------------------
  // Profiles and the whole end of a game
  // ---------------------------------------------------------------------------

  function NewSkill(): SkillProgress
  {
    SkillProgress(1, 0, 0, 80, [], [], 0)
  }

  /** `createNewProfile`: level 1, nothing earned, the four skills at level 1. */
  function NewProfile(userId: string): UserProfile
  {
    UserProfile(userId, "Joueur_" + KeepLast(userId, 4), 1, 0, 0, 0, 0, 0, 0.0, 0, [],
                map["vocabulary" := NewSkill(), "grammar" := NewSkill(),
                    "pronunciation" := NewSkill(), "listening" := NewSkill()])
  }

  /** A new profile's level and skill records agree with its XP, and it holds no achievement. */
  lemma NewProfileInSync(userId: string)
    ensures NewProfile(userId).level == LevelOf(0)
    ensures SkillsInSync(NewProfile(userId).skillLevels)
    ensures NewProfile(userId).achievements == []
    ensures |NewProfile(userId).username| <= 11
  {
  }

  function NewSession(userId: string, gameMode: string, difficulty: string, now: int): GameSession
  {
    GameSession("session_" + IntToString(now), userId, now, None, None, gameMode, difficulty,
                0, 100, 0.0, 0, 0, 0, [], [], [], false, false, false)
  }

  /** The first step of `endGameSession`: the game's own results. */
  function Finished(u: UserProfile, s: GameSession, score: int, questionsAnswered: int, correctAnswers: int, now: int): GameSession
  {
    s.(endTime := Some(now), duration := Some(now - s.startTime), score := score,
       questionsAnswered := questionsAnswered, correctAnswers := correctAnswers,
       accuracy := SessionAccuracy(questionsAnswered, correctAnswers),
       perfectGame := PerfectGame(questionsAnswered, correctAnswers),
       newBestScore := score > u.bestScore)
  }

  /** The game with its earned XP and its skill record filled in. */
  function Scored(u: UserProfile, s: GameSession, skills: seq<string>): GameSession
  {
    var xp := SkillXP(s.difficulty, s.accuracy, s.perfectGame, u.currentStreak);
    s.(xpEarned := EarnedXP(skills, xp), skillXP := SkillXPEntries(skills, xp))
  }

  /**
   * `endGameSession` on a signed-in profile with a live game: results, XP,
   * statistics, achievements, streak, in that order.
   */
  function FinishGame(u: UserProfile, s: GameSession, score: int, questionsAnswered: int, correctAnswers: int,
                      skills: seq<string>, now: int, lastActive: Option<int>, today: int): Progress
  {
    var p := ScoredGame(u, s, score, questionsAnswered, correctAnswers, skills, now);
    StreakDone(Unlocks(p, Catalogue, now), lastActive, today)
  }

  /** The game's results and XP awarded, and the profile's statistics updated. */
  function ScoredGame(u: UserProfile, s: GameSession, score: int, questionsAnswered: int, correctAnswers: int,
                      skills: seq<string>, now: int): Progress
  {
    var s2 := Scored(u, Finished(u, s, score, questionsAnswered, correctAnswers, now), skills);
    var a := Award(u, s2.xpEarned, s2.skillXP, now);
    var s3 := s2.(levelUps := s2.levelUps + a.levelUps);
    Progress(StatsAfter(a.user, s3), s3)
  }

  function StreakDone(p: Progress, lastActive: Option<int>, today: int): Progress
  {
    var (user, kept) := StreakAfter(p.user, lastActive, today);
    Progress(user, p.session.(streakMaintained := kept))
  }

  /**
   * What a finished game promises: one more game counted, the best score
   * kept, at least the earned XP added, the level never lowered, the held
   * achievements kept with no repeat added, and the game's accuracy,
   * perfect-game flag and capped XP as computed from its answers.
   */
  lemma FinishGameFacts(u: UserProfile, s: GameSession, score: int, questionsAnswered: int, correctAnswers: int,
                        skills: seq<string>, now: int, lastActive: Option<int>, today: int)
    ensures var r := FinishGame(u, s, score, questionsAnswered, correctAnswers, skills, now, lastActive, today);
            && r.user.id == u.id && r.session.id == s.id && r.session.userId == s.userId
            && r.user.totalGamesPlayed == u.totalGamesPlayed + 1
            && r.user.bestScore == MaxInt(u.bestScore, score)
            && r.user.totalXP >= u.totalXP + r.session.xpEarned
            && r.user.level >= u.level
            && r.user.longestStreak >= u.longestStreak
            && u.achievements <= r.user.achievements
            && (Pairwise(Ids(u.achievements)) ==> Pairwise(Ids(r.user.achievements)))
            && r.session.score == score
            && r.session.accuracy == SessionAccuracy(questionsAnswered, correctAnswers)
            && (r.session.perfectGame <==> questionsAnswered > 0 && correctAnswers == questionsAnswered)
            && r.session.xpEarned <= DailyXPCap
            && Keys(r.session.skillXP) == Dedup(skills)
  {
    var s2 := Scored(u, Finished(u, s, score, questionsAnswered, correctAnswers, now), skills);
    AwardFacts(u, s2.xpEarned, s2.skillXP, now);
    var p0 := ScoredGame(u, s, score, questionsAnswered, correctAnswers, skills, now);
    UnlocksFacts(p0, |Catalogue|, now);
    assert Catalogue[..|Catalogue|] == Catalogue;
    StreakRules(Unlocks(p0, Catalogue, now).user, lastActive, today);
    PerfectIff(questionsAnswered, correctAnswers);
  }

  function WithLevelUps(s: Option<GameSession>, ups: seq<LevelUp>): Option<GameSession>
  {
    if s.Some? then Some(s.value.(levelUps := s.value.levelUps + ups)) else None
  }

  lemma WithLevelUpsStep(s: Option<GameSession>, a: seq<LevelUp>, b: seq<LevelUp>, c: seq<LevelUp>)
    ensures WithLevelUps(WithLevelUps(s, a + b), c) == WithLevelUps(s, a + (b + c))
  {
    WithLevelUpsAppend(s, a + b, c);
    assert a + b + c == a + (b + c);
  }

  lemma WithLevelUpsAppend(s: Option<GameSession>, a: seq<LevelUp>, b: seq<LevelUp>)
    ensures WithLevelUps(WithLevelUps(s, a), b) == WithLevelUps(s, a + b)
    ensures WithLevelUps(s, []) == s
  {
    if s.Some? {
      assert s.value.levelUps + a + b == s.value.levelUps + (a + b);
      assert s.value.levelUps + [] == s.value.levelUps;
    }
  }

  lemma Overwrite<K, V>(m: map<K, V>, k: K, a: V, b: V)
    ensures m[k := a][k := b] == m[k := b]
  {
  }

  function LastActive(days: map<string, int>, id: string): Option<int>
  {
    if id in days then Some(days[id]) else None
  }

  function StoredSessions(logs: map<string, seq<GameSession>>, id: string): seq<GameSession>
  {
    if id in logs then logs[id] else []
  }

  // ---------------------------------------------------------------------------
  // The service
  // ---------------------------------------------------------------------------

  class ProgressionService {
    var currentUser: Option<UserProfile>
    var currentSession: Option<GameSession>
    var profiles: map<string, UserProfile>
    var lastActive: map<string, int>
    var sessionLog: map<string, seq<GameSession>>

    constructor ()
      ensures currentUser.None? && currentSession.None?
      ensures profiles == map[] && lastActive == map[] && sessionLog == map[]
    {
      currentUser := None;
      currentSession := None;
      profiles := map[];
      lastActive := map[];
      sessionLog := map[];
    }

    /** `getAchievements`: the catalogue. */
    function Achievements(): seq<Achievement>
    {
      Catalogue
    }

    /** `saveProfile`: store the signed-in profile under its id. */
    method SaveProfile()
      modifies this`profiles
      ensures currentUser.Some? ==> profiles == old(profiles)[currentUser.value.id := currentUser.value]
      ensures currentUser.None? ==> profiles == old(profiles)
    {
      if currentUser.Some? {
        profiles := profiles[currentUser.value.id := currentUser.value];
      }
    }

    method CreateNewProfile(userId: string) returns (profile: UserProfile)
      modifies this`currentUser, this`profiles
      ensures profile == NewProfile(userId)
      ensures currentUser == Some(profile) && profiles == old(profiles)[userId := profile]
    {
      profile := NewProfile(userId);
      currentUser := Some(profile);
      SaveProfile();
    }

    method StartGameSession(gameMode: string, difficulty: string, now: int) returns (r: Result<GameSession>)
      modifies this`currentSession
      ensures r.Err? <==> old(currentUser).None?
      ensures r.Err? ==> r.msg == NoUserError && currentSession == old(currentSession)
      ensures r.Ok? ==> r.value == NewSession(old(currentUser).value.id, gameMode, difficulty, now)
                        && currentSession == Some(r.value)
    {
      if currentUser.None? {
        return Err(NoUserError);
      }
      var session := NewSession(currentUser.value.id, gameMode, difficulty, now);
      currentSession := Some(session);
      r := Ok(session);
    }

    /** Record level-ups in the live game, if there is one. */
    method PushLevelUps(ups: seq<LevelUp>)
      modifies this`currentSession
      ensures currentSession == WithLevelUps(old(currentSession), ups)
    {
      if currentSession.Some? {
        currentSession := Some(currentSession.value.(levelUps := currentSession.value.levelUps + ups));
      }
    }

    /** The body of `awardXP`'s loop: one skill's entry, ignored when the profile does not track the skill. */
    method GainSkillXP(skill: string, xp: int, now: int)
      requires currentUser.Some?
      modifies this`currentUser, this`currentSession
      ensures var levels := old(currentUser).value.skillLevels;
              var g := if skill in levels then SkillGain(skill, levels[skill], xp, now) else SkillGained(NewSkill(), []);
              && currentUser == Some(old(currentUser).value.(skillLevels :=
                   if skill in levels then levels[skill := g.progress] else levels))
              && currentSession == WithLevelUps(old(currentSession), g.levelUps)
    {
      var user := currentUser.value;
      if skill !in user.skillLevels {
        PushLevelUps([]);
        return;
      }
      var progress := user.skillLevels[skill];
      var oldSkillLevel := progress.level;
      progress := progress.(currentXP := progress.currentXP + xp, totalXP := progress.totalXP + xp, lastPracticed := now);
      var newSkillLevel := SkillLevel(progress.totalXP);
      if newSkillLevel > oldSkillLevel {
        progress := progress.(level := newSkillLevel,
                              xpToNextLevel := XPForSkillLevel(newSkillLevel + 1) - progress.totalXP);
        PushLevelUps([LevelUp(Some(skill), oldSkillLevel, newSkillLevel, XPForSkillLevel(newSkillLevel), [])]);
      } else {
        progress := progress.(xpToNextLevel := XPForSkillLevel(progress.level + 1) - progress.totalXP);
        PushLevelUps([]);
      }
      currentUser := Some(user.(skillLevels := user.skillLevels[skill := progress]));
    }

    /** `awardXP`: a level-up goes into the live game, if any; without a profile nothing happens. */
    method AwardXP(totalXP: int, skillXP: seq<(string, int)>, now: int)
      modifies this`currentUser, this`currentSession, this`profiles
      ensures old(currentUser).None? ==>
                currentUser == old(currentUser) && currentSession == old(currentSession) && profiles == old(profiles)
      ensures old(currentUser).Some? ==>
                var a := Award(old(currentUser).value, totalXP, skillXP, now);
                && currentUser == Some(a.user)
                && currentSession == WithLevelUps(old(currentSession), a.levelUps)
                && profiles == old(profiles)[a.user.id := a.user]
    {
      if currentUser.None? {
        return;
      }
      var u := currentUser.value;
      ghost var first := PlayerAward(u, totalXP);
      var oldLevel := u.level;
      u := u.(totalXP := u.totalXP + totalXP);
      var newLevel := CalculateLevel(u.totalXP);
      if newLevel > oldLevel {
        var levelUp := LevelUp(None, oldLevel, newLevel, XPForLevel(newLevel), LevelRewards(newLevel));
        u := u.(level := newLevel);
        PushLevelUps([levelUp]);
        assert first.levelUps == [levelUp];
      } else {
        PushLevelUps([]);
        assert first.levelUps == [];
      }
      currentUser := Some(u);
      assert u == first.user;
      assert skillXP[..0] == [];
      assert first.levelUps + SkillsAfter(first.user.skillLevels, skillXP[..0], now).levelUps == first.levelUps;
      var i := 0;
      while i < |skillXP|
        invariant 0 <= i <= |skillXP|
        invariant currentUser == Some(first.user.(skillLevels := SkillsAfter(first.user.skillLevels, skillXP[..i], now).skillLevels))
        invariant currentSession == WithLevelUps(old(currentSession), first.levelUps + SkillsAfter(first.user.skillLevels, skillXP[..i], now).levelUps)
        invariant profiles == old(profiles)
      {
        ghost var before := SkillsAfter(first.user.skillLevels, skillXP[..i], now);
        SkillsAfterSnoc(first.user.skillLevels, skillXP, i, now);
        ghost var session := currentSession;
        GainSkillXP(skillXP[i].0, skillXP[i].1, now);
        if skillXP[i].0 in before.skillLevels {
          ghost var g := SkillGain(skillXP[i].0, before.skillLevels[skillXP[i].0], skillXP[i].1, now);
          WithLevelUpsStep(old(currentSession), first.levelUps, before.levelUps, g.levelUps);
        } else {
          WithLevelUpsAppend(session, [], []);
        }
        i := i + 1;
      }
      assert skillXP[..i] == skillXP;
      SaveProfile();
    }

    /** `unlockAchievement`: the caller has checked that a profile and a game are live. */
    method UnlockAchievement(achievement: Achievement, now: int)
      requires currentUser.Some? && currentSession.Some?
      modifies this`currentUser, this`currentSession, this`profiles
      ensures var p := Unlocked(Progress(old(currentUser).value, old(currentSession).value), achievement, now);
              && currentUser == Some(p.user) && currentSession == Some(p.session)
              && profiles == old(profiles)[p.user.id := p.user]
    {
      var stamped := achievement.(unlockedAt := Some(now), progress := Some(1));
      var u := currentUser.value;
      currentUser := Some(u.(achievements := u.achievements + [stamped]));
      var s := currentSession.value;
      currentSession := Some(s.(achievementsUnlocked := s.achievementsUnlocked + [stamped]));
      AwardXP(achievement.xpReward, [], now);
      SaveProfile();
    }

    /** One turn of the `checkAchievements` loop. */
    method CheckOne(achievement: Achievement, now: int)
      requires currentUser.Some? && currentSession.Some?
      requires achievement.xpReward >= 0
      modifies this`currentUser, this`currentSession, this`profiles
      ensures currentUser.Some? && currentSession.Some?
      ensures Progress(currentUser.value, currentSession.value)
              == UnlockStep(Progress(old(currentUser).value, old(currentSession).value), achievement, now)
      ensures currentUser.value.id == old(currentUser).value.id
      ensures || (currentUser == old(currentUser) && profiles == old(profiles))
              || profiles == old(profiles)[currentUser.value.id := currentUser.value]
    {
      UnlockStepFacts(Progress(currentUser.value, currentSession.value), achievement, now);
      var u := currentUser.value;
      if achievement.id !in Ids(u.achievements) {
        var unlocked := Qualifies(achievement, u, currentSession.value);
        if unlocked {
          UnlockAchievement(achievement, now);
        }
      }
    }

    /**
     * `checkAchievements`, called by `endGameSession` while its game is the
     * live one, so a level-up from a bonus goes into that same game.
     */
    method CheckAchievements(now: int)
      requires currentSession.Some?
      modifies this`currentUser, this`currentSession, this`profiles
      ensures old(currentUser).None? ==>
                currentUser == old(currentUser) && currentSession == old(currentSession) && profiles == old(profiles)
      ensures old(currentUser).Some? ==>
                var p := Unlocks(Progress(old(currentUser).value, old(currentSession).value), Catalogue, now);
                && currentUser == Some(p.user) && currentSession == Some(p.session)
                && (profiles == old(profiles) || profiles == old(profiles)[p.user.id := p.user])
    {
      if currentUser.None? {
        return;
      }
      ghost var start := Progress(currentUser.value, currentSession.value);
      var i := 0;
      while i < |Catalogue|
        invariant 0 <= i <= |Catalogue|
        invariant currentUser.Some? && currentSession.Some?
        invariant Progress(currentUser.value, currentSession.value) == Unlocks(start, Catalogue[..i], now)
        invariant currentUser.value.id == start.user.id
        invariant profiles == old(profiles) || profiles == old(profiles)[currentUser.value.id := currentUser.value]
      {
        UnlocksSnoc(start, i, now);
        CatalogueFacts();
        ghost var before := currentUser.value;
        CheckOne(Catalogue[i], now);
        Overwrite(old(profiles), start.user.id, before, currentUser.value);
        i := i + 1;
      }
      assert Catalogue[..i] == Catalogue;
    }

    /** `updateStreak`: mark today as the profile's last active day. */
    method UpdateStreak(today: int)
      modifies this`currentUser, this`currentSession, this`profiles, this`lastActive
      ensures old(currentUser).None? || old(currentSession).None? ==>
                currentUser == old(currentUser) && currentSession == old(currentSession)
                && profiles == old(profiles) && lastActive == old(lastActive)
      ensures old(currentUser).Some? && old(currentSession).Some? ==>
                var u := old(currentUser).value;
                var (user, kept) := StreakAfter(u, LastActive(old(lastActive), u.id), today);
                && currentUser == Some(user)
                && currentSession == Some(old(currentSession).value.(streakMaintained := kept))
                && lastActive == old(lastActive)[u.id := today]
                && profiles == old(profiles)[u.id := user]
    {
      if currentUser.None? || currentSession.None? {
        return;
      }
      var u := currentUser.value;
      var s := currentSession.value;
      var last := LastActive(lastActive, u.id);
      if last == Some(today) {
        currentSession := Some(s.(streakMaintained := true));
      } else if last == Some(today - 1) {
        var streak := u.currentStreak + 1;
        currentUser := Some(u.(currentStreak := streak, longestStreak := MaxInt(u.longestStreak, streak)));
        currentSession := Some(s.(streakMaintained := true));
      } else {
        currentUser := Some(u.(currentStreak := 1));
        currentSession := Some(s.(streakMaintained := false));
      }
      lastActive := lastActive[u.id := today];
      SaveProfile();
    }

    /** `updateUserStats`. */
    method UpdateUserStats(session: GameSession)
      modifies this`currentUser, this`profiles
      ensures old(currentUser).None? ==> currentUser == old(currentUser) && profiles == old(profiles)
      ensures old(currentUser).Some? ==>
                var user := StatsAfter(old(currentUser).value, session);
                currentUser == Some(user) && profiles == old(profiles)[user.id := user]
    {
      if currentUser.None? {
        return;
      }
      var u := currentUser.value;
      var games := u.totalGamesPlayed + 1;
      var totalScorePoints := u.averageScore * (games - 1) as real + session.score as real;
      var best := if session.score > u.bestScore then session.score else u.bestScore;
      currentUser := Some(u.(totalGamesPlayed := games, totalTimeSpent := u.totalTimeSpent + session.duration.GetOr(0),
                             averageScore := totalScorePoints / games as real, bestScore := best));
      assert (games - 1) as real == u.totalGamesPlayed as real;
      assert currentUser.value == StatsAfter(u, session);
      SaveProfile();
    }

    /** `saveSession`. */
    method SaveSession(session: GameSession)
      modifies this`sessionLog
      ensures sessionLog == old(sessionLog)[session.userId := SavedSessions(StoredSessions(old(sessionLog), session.userId), session)]
    {
      var sessions := StoredSessions(sessionLog, session.userId);
      sessions := sessions + [session];
      if |sessions| > KeptSessions {
        sessions := sessions[|sessions| - KeptSessions..];
      }
      sessionLog := sessionLog[session.userId := sessions];
    }

    /** `calculateSessionXP`: the per-skill XP, the capped total, then `awardXP` with both. */
    method CalculateSessionXP(skills: seq<string>, now: int)
      requires currentUser.Some? && currentSession.Some?
      modifies this`currentUser, this`currentSession, this`profiles
      ensures var s2 := Scored(old(currentUser).value, old(currentSession).value, skills);
              var a := Award(old(currentUser).value, s2.xpEarned, s2.skillXP, now);
              && currentSession == Some(s2.(levelUps := s2.levelUps + a.levelUps))
              && currentUser == Some(a.user)
              && profiles == old(profiles)[a.user.id := a.user]
    {
      var session := currentSession.value;
      var xp := SkillXP(session.difficulty, session.accuracy, session.perfectGame, currentUser.value.currentStreak);
      currentSession := Some(session.(xpEarned := EarnedXP(skills, xp), skillXP := SkillXPEntries(skills, xp)));
      AwardXP(currentSession.value.xpEarned, currentSession.value.skillXP, now);
    }

    /** The first half of `endGameSession`: the results, `calculateSessionXP` and `updateUserStats`. */
    method ScoreGame(score: int, questionsAnswered: int, correctAnswers: int, skills: seq<string>, now: int)
      requires currentUser.Some? && currentSession.Some?
      modifies this`currentUser, this`currentSession, this`profiles
      ensures var u := old(currentUser).value;
              var p := ScoredGame(u, old(currentSession).value, score, questionsAnswered, correctAnswers, skills, now);
              && currentUser == Some(p.user) && currentSession == Some(p.session)
              && p.user.id == u.id
              && profiles == old(profiles)[u.id := p.user]
    {
      var u := currentUser.value;
      var s0 := currentSession.value;
      ghost var s2 := Scored(u, Finished(u, s0, score, questionsAnswered, correctAnswers, now), skills);
      currentSession := Some(Finished(u, s0, score, questionsAnswered, correctAnswers, now));
      CalculateSessionXP(skills, now);
      AwardFacts(u, s2.xpEarned, s2.skillXP, now);
      UpdateUserStats(currentSession.value);
    }

    /** The second half of `endGameSession`: `checkAchievements` and `updateStreak`. */
    method RewardGame(now: int, today: int)
      requires currentUser.Some? && currentSession.Some?
      modifies this`currentUser, this`currentSession, this`profiles, this`lastActive
      ensures var u := old(currentUser).value;
              var p := StreakDone(Unlocks(Progress(u, old(currentSession).value), Catalogue, now),
                                  LastActive(old(lastActive), u.id), today);
              && currentUser == Some(p.user) && currentSession == Some(p.session)
              && profiles == old(profiles)[u.id := p.user]
              && lastActive == old(lastActive)[u.id := today]
    {
      var u := currentUser.value;
      ghost var p0 := Progress(u, currentSession.value);
      ghost var p1 := Unlocks(p0, Catalogue, now);
      CheckAchievements(now);
      UnlocksKeepId(p0, now);
      ghost var checked := profiles;
      UpdateStreak(today);
      assert profiles == checked[u.id := currentUser.value];
      Overwrite(old(profiles), u.id, p1.user, currentUser.value);
    }

    /** `checkAchievements`, `updateStreak` and `saveSession` for the scored game, which then stops being live. */
    method CloseGame(now: int, today: int) returns (finished: GameSession)
      requires currentUser.Some? && currentSession.Some?
      modifies this
      ensures var u := old(currentUser).value;
              var p := StreakDone(Unlocks(Progress(u, old(currentSession).value), Catalogue, now),
                                  LastActive(old(lastActive), u.id), today);
              && finished == p.session
              && currentUser == Some(p.user) && currentSession.None?
              && profiles == old(profiles)[u.id := p.user]
              && lastActive == old(lastActive)[u.id := today]
              && sessionLog == old(sessionLog)[finished.userId :=
                   SavedSessions(StoredSessions(old(sessionLog), finished.userId), finished)]
    {
      ghost var u := currentUser.value;
      ghost var p := StreakDone(Unlocks(Progress(u, currentSession.value), Catalogue, now), LastActive(lastActive, u.id), today);
      RewardGame(now, today);
      finished := currentSession.value;
      assert finished == p.session;
      ghost var rewarded := profiles;
      ghost var days := lastActive;
      SaveSession(finished);
      assert profiles == rewarded && lastActive == days;
      currentSession := None;
    }

    /** `endGameSession`: fails without a live game and profile; otherwise finishes the game and stores it. */
    method EndGameSession(score: int, questionsAnswered: int, correctAnswers: int, skills: seq<string>, now: int, today: int)
      returns (r: Result<GameSession>)
      modifies this
      ensures r.Err? <==> old(currentSession).None? || old(currentUser).None?
      ensures r.Err? ==>
                && r.msg == NoSessionError
                && currentUser == old(currentUser) && currentSession == old(currentSession)
                && profiles == old(profiles) && lastActive == old(lastActive) && sessionLog == old(sessionLog)
      ensures r.Ok? ==>
                var u := old(currentUser).value;
                var p := FinishGame(u, old(currentSession).value, score, questionsAnswered, correctAnswers,
                                    skills, now, LastActive(old(lastActive), u.id), today);
                && r.value == p.session
                && currentUser == Some(p.user) && currentSession.None?
                && profiles == old(profiles)[u.id := p.user]
                && lastActive == old(lastActive)[u.id := today]
                && sessionLog == old(sessionLog)[p.session.userId :=
                     SavedSessions(StoredSessions(old(sessionLog), p.session.userId), p.session)]
    {
      if currentSession.None? || currentUser.None? {
        return Err(NoSessionError);
      }
      var u := currentUser.value;
      ghost var p0 := ScoredGame(u, currentSession.value, score, questionsAnswered, correctAnswers, skills, now);
      ghost var p := FinishGame(u, currentSession.value, score, questionsAnswered, correctAnswers, skills, now,
                                LastActive(lastActive, u.id), today);
      ScoreGame(score, questionsAnswered, correctAnswers, skills, now);
      assert Progress(currentUser.value, currentSession.value) == p0;
      var finished := CloseGame(now, today);
      Overwrite(old(profiles), u.id, p0.user, p.user);
      r := Ok(finished);
    }
  }
}
