/**
 * The game screen's state reducer and the rule that turns a speech
 * recognition result into reducer actions. The high score read from local
 * storage at start-up is a parameter, and the storage write on a new high
 * score is returned as a value.
 */
module AppReducer {
  import opened Util

  datatype Screen = MenuScreen | PlayingScreen | PausedScreen | GameOverScreen

  datatype GameState = GameState(
    gameState: Screen,
    score: int,
    highScore: int,
    level: int,
    accuracy: real,
    streak: nat,
    totalAttempts: nat,
    correctAttempts: nat,
    isLoading: bool,
    error: Option<string>)

  datatype GameAction =
    | StartGame
    | EndGame
    | PauseGame
    | ResumeGame
    | BackToMenu
    | UpdateScore(points: int)
    | VoiceResult(correct: bool, confidence: real)
    | ResetStreak
    | SetError(message: string)
    | ClearError
    | SetLoading(loading: bool)
    | UnknownAction

  const PointsPerLevel: int := 1000
  const CorrectConfidence: real := 0.7

  /** The state the screen starts in, with the stored high score. */
  function InitialGameState(storedHighScore: int): (s: GameState)
    ensures s.gameState == MenuScreen && s.score == 0 && s.level == 1 && s.highScore == storedHighScore
    ensures s.totalAttempts == 0 && s.correctAttempts == 0 && s.streak == 0 && s.error.None?
  {
    GameState(MenuScreen, 0, storedHighScore, 1, 0.0, 0, 0, 0, false, None)
  }

  /** `Math.floor(score / 1000) + 1`; the divisor is positive, so Dafny's division is the floor. */
  function LevelFor(score: int): (l: int)
    ensures (l - 1) * PointsPerLevel <= score < l * PointsPerLevel
  {
    score / PointsPerLevel + 1
  }

  function Accuracy(correct: nat, total: nat): (a: real)
    requires total > 0
    ensures correct <= total ==> 0.0 <= a <= 100.0
  {
    var a := correct as real / total as real * 100.0;
    if correct <= total then RatioInUnit(correct as real, total as real); a else a
  }

  /** `gameStateReducer`. */
  function Reduce(s: GameState, a: GameAction): (r: GameState)
  {
    match a
    case StartGame =>
      s.(gameState := PlayingScreen, score := 0, level := 1, accuracy := 0.0, streak := 0,
         totalAttempts := 0, correctAttempts := 0, error := None)
    case EndGame => s.(gameState := GameOverScreen, highScore := MaxInt(s.score, s.highScore))
    case PauseGame => s.(gameState := PausedScreen)
    case ResumeGame => s.(gameState := PlayingScreen)
    case BackToMenu => s.(gameState := MenuScreen, error := None)
    case UpdateScore(points) => s.(score := s.score + points, level := LevelFor(s.score + points))
    case VoiceResult(correct, _) =>
      var total := s.totalAttempts + 1;
      var right := s.correctAttempts + (if correct then 1 else 0);
      s.(totalAttempts := total, correctAttempts := right, accuracy := Accuracy(right, total),
         streak := if correct then s.streak + 1 else 0)
    case ResetStreak => s.(streak := 0)
    case SetError(message) => s.(error := Some(message))
    case ClearError => s.(error := None)
    case SetLoading(loading) => s.(isLoading := loading)
    case UnknownAction => s
  }

  /** The high score `END_GAME` writes to local storage: only a strictly better one. */
  function HighScoreWrite(s: GameState, a: GameAction): (w: Option<int>)
    ensures w.Some? <==> a == EndGame && s.score > s.highScore
    ensures w.Some? ==> w.value == Reduce(s, a).highScore
  {
    if a == EndGame && MaxInt(s.score, s.highScore) > s.highScore then Some(MaxInt(s.score, s.highScore)) else None
  }

  // --- what each action promises ----------------------------------------------------

  lemma StartGameResets(s: GameState)
    ensures var r := Reduce(s, StartGame);
            && r.gameState == PlayingScreen && r.score == 0 && r.level == 1 && r.accuracy == 0.0
            && r.streak == 0 && r.totalAttempts == 0 && r.correctAttempts == 0 && r.error.None?
            && r.highScore == s.highScore && r.isLoading == s.isLoading
  {
  }

  lemma EndGameKeepsBest(s: GameState)
    ensures var r := Reduce(s, EndGame);
            && r.gameState == GameOverScreen
            && r.highScore >= s.score && r.highScore >= s.highScore
            && (r.highScore == s.score || r.highScore == s.highScore)
            && r == s.(gameState := GameOverScreen, highScore := r.highScore)
  {
  }

  /** The score grows by the payload and the level follows the score. */
  lemma UpdateScoreLevels(s: GameState, points: int)
    ensures var r := Reduce(s, UpdateScore(points));
            && r.score == s.score + points
            && (r.level - 1) * PointsPerLevel <= r.score < r.level * PointsPerLevel
            && r == s.(score := r.score, level := r.level)
  {
  }

  lemma VoiceResultCounts(s: GameState, correct: bool, confidence: real)
    ensures var r := Reduce(s, VoiceResult(correct, confidence));
            && r.totalAttempts == s.totalAttempts + 1
            && (r.correctAttempts == s.correctAttempts + 1 <==> correct)
            && (!correct ==> r.correctAttempts == s.correctAttempts)
            && r.accuracy * r.totalAttempts as real == 100.0 * r.correctAttempts as real
            && (r.streak == if correct then s.streak + 1 else 0)
            && r == s.(totalAttempts := r.totalAttempts, correctAttempts := r.correctAttempts,
                       accuracy := r.accuracy, streak := r.streak)
  {
    var total := s.totalAttempts + 1;
    var right := s.correctAttempts + (if correct then 1 else 0);
    DivMulCancel(right as real, total as real);
  }

  lemma DivMulCancel(x: real, y: real)
    requires y > 0.0
    ensures x / y * 100.0 * y == 100.0 * x
  {
    assert x / y * y == x;
  }

  /** The small actions change their own fields and nothing else; an unknown action changes nothing. */
  lemma SmallActionsTouchOneField(s: GameState, message: string, loading: bool)
    ensures Reduce(s, PauseGame) == s.(gameState := PausedScreen)
    ensures Reduce(s, ResumeGame) == s.(gameState := PlayingScreen)
    ensures Reduce(s, BackToMenu) == s.(gameState := MenuScreen, error := None)
    ensures Reduce(s, ResetStreak) == s.(streak := 0)
    ensures Reduce(s, SetError(message)) == s.(error := Some(message))
    ensures Reduce(s, ClearError) == s.(error := None)
    ensures Reduce(s, SetLoading(loading)) == s.(isLoading := loading)
    ensures Reduce(s, UnknownAction) == s
  {
  }

  // --- invariants over any run of actions ----------------------------------------------

  /** What every reachable state satisfies. */
  predicate Consistent(s: GameState)
  {
    && s.correctAttempts <= s.totalAttempts
    && s.streak <= s.correctAttempts
    && (s.totalAttempts == 0 ==> s.accuracy == 0.0)
    && (s.totalAttempts > 0 ==> s.accuracy == Accuracy(s.correctAttempts, s.totalAttempts))
    && s.level == LevelFor(s.score)
  }

  function ReduceAll(s: GameState, actions: seq<GameAction>): (r: GameState)
    decreases |actions|
  {
    if actions == [] then s else ReduceAll(Reduce(s, actions[0]), actions[1..])
  }

  lemma ReducePreserves(s: GameState, a: GameAction)
    requires Consistent(s)
    ensures Consistent(Reduce(s, a))
    ensures Reduce(s, a).highScore >= s.highScore
  {
  }

  /** From a consistent state, any run of actions stays consistent and never lowers the high score. */
  lemma {:induction false} ReduceAllPreserves(s: GameState, actions: seq<GameAction>)
    requires Consistent(s)
    ensures Consistent(ReduceAll(s, actions))
    ensures ReduceAll(s, actions).highScore >= s.highScore
    decreases |actions|
  {
    if actions != [] {
      ReducePreserves(s, actions[0]);
      ReduceAllPreserves(Reduce(s, actions[0]), actions[1..]);
    }
  }

  lemma InitialConsistent(storedHighScore: int)
    ensures Consistent(InitialGameState(storedHighScore))
  {
  }

  // ---------------------------------------------------------------------------
  // handleVoiceResult
  // ---------------------------------------------------------------------------

  datatype SpeechResult = SpeechResult(transcript: string, confidence: real, isFinal: bool)

  /** The points a correct answer earns: `Math.round(confidence * 100)`. */
  function VoicePoints(confidence: real): (p: int)
    ensures confidence > CorrectConfidence ==> p >= 70
  {
    Round(confidence * 100.0)
  }

  /**
   * The actions dispatched for a recognition result: none for an interim or
   * blank one; otherwise the result, then the points for a correct answer or
   * a streak reset for a wrong one.
   */
  function VoiceActions(result: SpeechResult): (r: seq<GameAction>)
    ensures !result.isFinal || JsTrim(result.transcript) == [] ==> r == []
    ensures result.isFinal && JsTrim(result.transcript) != [] ==>
              var correct := result.confidence > CorrectConfidence;
              && |r| == 2
              && r[0] == VoiceResult(correct, result.confidence)
              && r[1] == (if correct then UpdateScore(VoicePoints(result.confidence)) else ResetStreak)
  {
    if result.isFinal && JsTrim(result.transcript) != [] then
      var correct := result.confidence > CorrectConfidence;
      [VoiceResult(correct, result.confidence),
       if correct then UpdateScore(VoicePoints(result.confidence)) else ResetStreak]
    else []
  }

  /** A counted answer adds one attempt; a correct one scores its points, a wrong one leaves the score. */
  lemma VoiceResultScores(s: GameState, result: SpeechResult)
    requires result.isFinal && JsTrim(result.transcript) != []
    ensures var r := ReduceAll(s, VoiceActions(result));
            && r.totalAttempts == s.totalAttempts + 1
            && (result.confidence > CorrectConfidence ==>
                  r.score == s.score + Round(result.confidence * 100.0) && r.streak == s.streak + 1)
            && (result.confidence <= CorrectConfidence ==>
                  r.score == s.score && r.streak == 0 && r.correctAttempts == s.correctAttempts)
  {
    var actions := VoiceActions(result);
    var mid := Reduce(s, actions[0]);
    assert actions[1..][0] == actions[1] && actions[1..][1..] == [];
    assert ReduceAll(mid, actions[1..]) == ReduceAll(Reduce(mid, actions[1]), []);
    assert ReduceAll(s, actions) == Reduce(mid, actions[1]);
  }

  /** The streak reset after a wrong answer changes nothing: the result itself already cleared it. */
  lemma WrongAnswerResetIsRedundant(s: GameState, confidence: real)
    ensures Reduce(Reduce(s, VoiceResult(false, confidence)), ResetStreak) == Reduce(s, VoiceResult(false, confidence))
  {
  }
}
