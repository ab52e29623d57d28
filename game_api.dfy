/**
 * The pure part of the game data service: the difficulty of a looked-up
 * word, the wrong answers offered beside a translation, the quiz built from
 * a list of game words, and the Fisher-Yates shuffle of a question's
 * options. `Math.random` is passed in as a sequence of draws in [0, 1).
 */
module GameApi {
  import opened Util

  datatype Difficulty = Easy | Medium | Hard

  /** Easy < Medium < Hard. */
  function Rank(d: Difficulty): (r: nat)
    ensures r <= 2
    ensures r == 0 <==> d == Easy
    ensures r == 2 <==> d == Hard
  {
    match d
    case Easy => 0
    case Medium => 1
    case Hard => 2
  }

  // ---------------------------------------------------------------------------
  // calculateWordDifficulty
  // ---------------------------------------------------------------------------

  /** Longer words are harder: 1 up to 4 characters, 2 up to 7, 3 beyond. */
  function LengthTerm(length: nat): (t: int)
    ensures 1 <= t <= 3
  {
    if length <= 4 then 1 else if length <= 7 then 2 else 3
  }

  /** Fewer synonyms are harder: 2 for none, 1 for one or two, 0 beyond. */
  function SynonymTerm(synonymsCount: nat): (t: int)
    ensures 0 <= t <= 2
  {
    if synonymsCount == 0 then 2 else if synonymsCount <= 2 then 1 else 0
  }

  /** Shorter definitions are harder: 2 up to 50 characters, 1 up to 100, 0 beyond. */
  function DefinitionTerm(definitionLength: nat): (t: int)
    ensures 0 <= t <= 2
  {
    if definitionLength <= 50 then 2 else if definitionLength <= 100 then 1 else 0
  }

  function DifficultyScore(word: string, synonymsCount: nat, definitionLength: nat): (score: int)
    ensures 1 <= score <= 7
  {
    LengthTerm(|word|) + SynonymTerm(synonymsCount) + DefinitionTerm(definitionLength)
  }

  /** `calculateWordDifficulty`: easy up to a score of 2, medium up to 4, hard beyond. */
  function WordDifficulty(word: string, synonymsCount: nat, definitionLength: nat): (d: Difficulty)
  {
    var score := DifficultyScore(word, synonymsCount, definitionLength);
    if score <= 2 then Easy else if score <= 4 then Medium else Hard
  }

  /** The thresholds, with the score written out as its three terms. */
  lemma WordDifficultyThresholds(word: string, synonymsCount: nat, definitionLength: nat)
    ensures var score := LengthTerm(|word|) + SynonymTerm(synonymsCount) + DefinitionTerm(definitionLength);
            && (WordDifficulty(word, synonymsCount, definitionLength) == Easy <==> score <= 2)
            && (WordDifficulty(word, synonymsCount, definitionLength) == Medium <==> 3 <= score <= 4)
            && (WordDifficulty(word, synonymsCount, definitionLength) == Hard <==> score >= 5)
  {
  }

  /**
   * A word is easy exactly when it is short and has either many synonyms or
   * a long definition, or is of middle length and has both.
   */
  lemma EasyWords(word: string, synonymsCount: nat, definitionLength: nat)
    ensures WordDifficulty(word, synonymsCount, definitionLength) == Easy <==>
              (|word| <= 4 && ((synonymsCount > 2 && definitionLength > 50) || (synonymsCount > 0 && definitionLength > 100)))
              || (4 < |word| <= 7 && synonymsCount > 2 && definitionLength > 100)
  {
  }

  /** A word with no synonyms and a definition of at most 50 characters is always hard. */
  lemma UnknownWordsAreHard(word: string, definitionLength: nat)
    requires definitionLength <= 50
    ensures WordDifficulty(word, 0, definitionLength) == Hard
  {
  }

  /** A longer word, fewer synonyms or a shorter definition never makes a word easier. */
  lemma DifficultyMonotone(w1: string, s1: nat, d1: nat, w2: string, s2: nat, d2: nat)
    requires |w1| <= |w2| && s1 >= s2 && d1 >= d2
    ensures Rank(WordDifficulty(w1, s1, d1)) <= Rank(WordDifficulty(w2, s2, d2))
  {
  }

  // ---------------------------------------------------------------------------
  // generateDistractors / generateDefinitionDistractors
  // ---------------------------------------------------------------------------

  const EnglishDistractors: seq<string> := ["apple", "book", "water", "house", "friend", "happy", "blue", "fast"]
  const SpanishDistractors: seq<string> := ["manzana", "libro", "agua", "casa", "amigo", "feliz", "azul", "rápido"]
  const FrenchDistractors: seq<string> := ["pomme", "livre", "eau", "maison", "ami", "heureux", "bleu", "rapide"]
  const GermanDistractors: seq<string> := ["apfel", "buch", "wasser", "haus", "freund", "glücklich", "blau", "schnell"]

  /** The word list of a language; any language without one uses the English list. */
  function DistractorPool(language: string): (pool: seq<string>)
    ensures |pool| == 8
    ensures language !in {"en", "es", "fr", "de"} ==> pool == EnglishDistractors
  {
    if language == "es" then SpanishDistractors
    else if language == "fr" then FrenchDistractors
    else if language == "de" then GermanDistractors
    else EnglishDistractors
  }

  /** Every word list is free of repeats. */
  lemma PoolDistinct(language: string)
    ensures Distinct(DistractorPool(language))
  {
    assert Pairwise(SpanishDistractors) && Pairwise(FrenchDistractors);
    assert Pairwise(GermanDistractors) && Pairwise(EnglishDistractors);
    PairwiseDistinct(DistractorPool(language));
  }

  /** `Array.prototype.slice(0, end)`: a negative `end` counts from the back. */
  function SliceTo<T>(s: seq<T>, end: int): (r: seq<T>)
    ensures |r| <= |s| && r == s[..|r|]
    ensures end >= 0 ==> |r| == MinInt(end, |s|)
    ensures end < 0 ==> |r| == MaxInt(0, |s| + end)
  {
    if end < 0 then s[..MaxInt(0, |s| + end)] else s[..MinInt(end, |s|)]
  }

  /** `generateDistractors`: the language's words other than the lower-cased answer, cut to `count`. */
  function GenerateDistractors(correctAnswer: string, language: string, count: int): (r: seq<string>)
    ensures count >= 0 ==> |r| <= count
  {
    SliceTo(Without(DistractorPool(language), ToLower(correctAnswer)), count)
  }

  /** No distractor is the answer, every distractor comes from the language's list, and they are distinct. */
  lemma DistractorsAreWrong(correctAnswer: string, language: string, count: int)
    ensures var r := GenerateDistractors(correctAnswer, language, count);
            && ToLower(correctAnswer) !in r
            && (forall x :: x in r ==> x in DistractorPool(language))
            && Distinct(r)
  {
    var pool := DistractorPool(language);
    var kept := Without(pool, ToLower(correctAnswer));
    WithoutFacts(pool, ToLower(correctAnswer));
    PoolDistinct(language);
    WithoutDistinct(pool, ToLower(correctAnswer));
    var r := GenerateDistractors(correctAnswer, language, count);
    DistinctPrefix(kept, |r|);
    assert forall x :: x in r ==> x in kept;
  }

  /** Up to seven distractors are always available: the answer can knock out at most one word. */
  lemma DistractorsCount(correctAnswer: string, language: string, count: int)
    requires 0 <= count <= 7
    ensures |GenerateDistractors(correctAnswer, language, count)| == count
  {
    PoolDistinct(language);
    WithoutDistinctLength(DistractorPool(language), ToLower(correctAnswer));
  }

  /** An unknown language gets the English words. */
  lemma UnknownLanguageIsEnglish(correctAnswer: string, language: string, count: int)
    requires language !in {"en", "es", "fr", "de"}
    ensures GenerateDistractors(correctAnswer, language, count) == GenerateDistractors(correctAnswer, "en", count)
  {
  }

  /** Filtering a value out of a list without repeats drops at most one entry. */
  lemma {:induction false} WithoutDistinctLength(s: seq<string>, v: string)
    requires Distinct(s)
    ensures |Without(s, v)| >= |s| - 1
  {
    if s != [] {
      WithoutDistinctLength(s[1..], v);
      if s[0] == v {
        WithoutFacts(s[1..], v);
        assert v !in s[1..];
      }
    }
  }

  const DefinitionDistractorList: seq<string> := [
    "A type of musical instrument",
    "A cooking utensil used in the kitchen",
    "An outdoor recreational activity",
    "A mathematical concept",
    "A historical period or era"]

  /** `generateDefinitionDistractors`: the first `count` of five fixed wrong definitions. */
  function DefinitionDistractors(count: int): (r: seq<string>)
    ensures 0 <= count <= 5 ==> |r| == count
    ensures |r| <= 5 && r == DefinitionDistractorList[..|r|]
  {
    SliceTo(DefinitionDistractorList, count)
  }

  // ---------------------------------------------------------------------------
  // generateQuizQuestions
  // ---------------------------------------------------------------------------

  datatype GameWord = GameWord(
    id: string,
    originalWord: string,
    sourceLanguage: string,
    targetLanguage: string,
    correctTranslation: string,
    distractors: seq<string>,
    difficulty: Difficulty,
    definition: Option<string>,
    synonyms: seq<string>)

  datatype QuestionType = TranslationQuestion | DefinitionQuestion | PronunciationQuestion | SynonymQuestion

  datatype QuizQuestion = QuizQuestion(
    id: string,
    questionType: QuestionType,
    question: string,
    correctAnswer: string,
    options: seq<string>,
    word: GameWord,
    timeLimit: int,
    points: int)

  const QuestionTypes: seq<QuestionType> := [TranslationQuestion, DefinitionQuestion, SynonymQuestion]

  /** The type of question `i`: translation, definition, synonym, over and over. */
  function QuestionTypeAt(i: nat): (t: QuestionType)
    ensures t != PronunciationQuestion
    ensures i % 3 == 0 <==> t == TranslationQuestion
    ensures i % 3 == 1 <==> t == DefinitionQuestion
  {
    QuestionTypes[i % |QuestionTypes|]
  }

  /** The points a question is worth: 5 when easy, 20 when hard, 10 otherwise. */
  function PointsFor(d: Difficulty): (p: int)
  {
    match d
    case Easy => 5
    case Hard => 20
    case Medium => 10
  }

  /** The seconds a question allows: 20 when easy, 45 when hard, 30 otherwise. */
  function TimeLimitFor(d: Difficulty): (t: int)
  {
    match d
    case Easy => 20
    case Hard => 45
    case Medium => 30
  }

  /** A harder word is worth more points and leaves more time. */
  lemma HarderPaysMore(d1: Difficulty, d2: Difficulty)
    requires Rank(d1) < Rank(d2)
    ensures PointsFor(d1) < PointsFor(d2) && TimeLimitFor(d1) < TimeLimitFor(d2)
  {
  }

  /** A JavaScript string is truthy when it is non-empty. */
  predicate HasDefinition(w: GameWord)
  {
    w.definition.Some? && w.definition.value != []
  }

  /** The translation question asked when the type's own question has nothing to ask. */
  function TranslateShort(w: GameWord): string
  {
    "Translate \"" + w.originalWord + "\""
  }

  /**
   * Question `i` about word `w` before its options are shuffled: the type
   * by the index, falling back to a translation question when the word has
   * no definition or no synonym, and points and time by difficulty.
   */
  function Draft(w: GameWord, i: nat): (q: QuizQuestion)
  {
    var t := QuestionTypeAt(i);
    var translated := [w.correctTranslation] + w.distractors;
    var (question, answer, options) :=
      match t
      case DefinitionQuestion =>
        if HasDefinition(w) then
          ("What does \"" + w.originalWord + "\" mean?", w.definition.value,
           [w.definition.value] + DefinitionDistractors(3))
        else (TranslateShort(w), w.correctTranslation, SliceTo(translated, 4))
      case SynonymQuestion =>
        if |w.synonyms| > 0 then
          ("Which word is a synonym of \"" + w.originalWord + "\"?", w.synonyms[0],
           SliceTo([w.synonyms[0]] + w.distractors, 4))
        else (TranslateShort(w), w.correctTranslation, SliceTo(translated, 4))
      case _ =>
        ("Translate \"" + w.originalWord + "\" from " + w.sourceLanguage + " to " + w.targetLanguage,
         w.correctTranslation, SliceTo(translated, 4));
    QuizQuestion("q-" + w.id + "-" + NatToString(i), t, question, answer, options, w,
                 TimeLimitFor(w.difficulty), PointsFor(w.difficulty))
  }

  /**
   * Every question leads with its answer among at most four options, asks
   * about its own word, and pays by difficulty; the answer is the
   * definition or the first synonym only when the type asks for one and the
   * word has it, and the translation otherwise.
   */
  lemma DraftFacts(w: GameWord, i: nat)
    ensures var q := Draft(w, i);
            && q.questionType == QuestionTypeAt(i)
            && q.word == w
            && 1 <= |q.options| <= 4
            && q.options[0] == q.correctAnswer
            && q.correctAnswer in q.options
            && q.points == PointsFor(w.difficulty) && q.timeLimit == TimeLimitFor(w.difficulty)
            && (q.correctAnswer ==
                  if q.questionType == DefinitionQuestion && HasDefinition(w) then w.definition.value
                  else if q.questionType == SynonymQuestion && |w.synonyms| > 0 then w.synonyms[0]
                  else w.correctTranslation)
  {
  }

  /** The answer is always among the options, which are at most four. */
  lemma AnswerOffered(w: GameWord, i: nat)
    ensures Draft(w, i).correctAnswer in Draft(w, i).options
    ensures |Draft(w, i).options| <= 4
  {
    DraftFacts(w, i);
  }

  /** The options of a translation question are its answer and the word's first three distractors. */
  lemma TranslationOptions(w: GameWord, i: nat)
    requires i % 3 == 0
    ensures Draft(w, i).options == [w.correctTranslation] + w.distractors[..MinInt(3, |w.distractors|)]
  {
    var t := [w.correctTranslation] + w.distractors;
    assert SliceTo(t, 4) == t[..MinInt(4, |t|)];
    assert t[..MinInt(4, |t|)] == [w.correctTranslation] + w.distractors[..MinInt(3, |w.distractors|)];
  }

  /** Questions about different indexes have different ids. */
  lemma QuestionIdsDiffer(w: GameWord, i: nat, j: nat)
    requires i != j
    ensures Draft(w, i).id != Draft(w, j).id
  {
    var p := "q-" + w.id + "-";
    if Draft(w, i).id == Draft(w, j).id {
      assert NatToString(i) == Draft(w, i).id[|p|..];
      assert NatToString(j) == Draft(w, j).id[|p|..];
      NatToStringInjective(i, j);
    }
  }

  /** How many questions are asked: `Math.min(questionCount, gameWords.length)`, none when that is negative. */
  function QuestionTotal(words: nat, questionCount: int): (n: nat)
    ensures n <= words
    ensures questionCount >= 0 ==> n == MinInt(questionCount, words)
  {
    MaxInt(0, MinInt(questionCount, words))
  }

  /** Draws of `Math.random`: each in [0, 1). */
  predicate UnitDraws(draws: seq<real>)
  {
    forall k :: 0 <= k < |draws| ==> 0.0 <= draws[k] < 1.0
  }

  /**
   * Question `q` is question `i` about `w`: the draft with its options
   * reordered, the answer still among them.
   */
  predicate Asked(q: QuizQuestion, w: GameWord, i: nat)
  {
    var d := Draft(w, i);
    && q == d.(options := q.options)
    && multiset(q.options) == multiset(d.options)
    && q.correctAnswer in q.options
  }

  /** What every asked question keeps of its draft: type by index, answer offered, pay by difficulty. */
  lemma AskedFacts(q: QuizQuestion, w: GameWord, i: nat)
    requires Asked(q, w, i)
    ensures q.questionType == QuestionTypeAt(i) && q.word == w
    ensures q.correctAnswer in q.options && 1 <= |q.options| <= 4
    ensures q.points == PointsFor(w.difficulty) && q.timeLimit == TimeLimitFor(w.difficulty)
  {
    DraftFacts(w, i);
    assert |q.options| == |multiset(q.options)|;
  }

  /**
   * A game word's distractors are three generated ones, so a translation
   * question about it always offers four options.
   */
  lemma FourOptions(w: GameWord, i: nat, language: string)
    requires w.distractors == GenerateDistractors(w.correctTranslation, language, 3)
    requires i % 3 == 0
    ensures |Draft(w, i).options| == 4
  {
    DistractorsCount(w.correctTranslation, language, 3);
    TranslationOptions(w, i);
  }

  /**
   * `generateQuizQuestions`: one question per word, up to `questionCount`,
   * each the draft for its word and index with the options shuffled using
   * the draws of `rounds[i]`.
   */
  method GenerateQuizQuestions(words: seq<GameWord>, questionCount: int, rounds: seq<seq<real>>)
    returns (questions: seq<QuizQuestion>)
    requires |rounds| >= QuestionTotal(|words|, questionCount)
    requires forall i :: 0 <= i < |rounds| ==> |rounds[i]| >= 3 && UnitDraws(rounds[i])
    ensures |questions| == QuestionTotal(|words|, questionCount)
    ensures forall i :: 0 <= i < |questions| ==> Asked(questions[i], words[i], i)
  {
    var n := QuestionTotal(|words|, questionCount);
    questions := [];
    var i := 0;
    while i < n
      invariant 0 <= i <= n
      invariant |questions| == i
      invariant forall k :: 0 <= k < i ==> Asked(questions[k], words[k], k)
    {
      var draft := Draft(words[i], i);
      AnswerOffered(words[i], i);
      var options := ShuffleArray(draft.options, rounds[i]);
      assert draft.correctAnswer in multiset(options);
      var q := draft.(options := options);
      assert Asked(q, words[i], i);
      questions := questions + [q];
      i := i + 1;
    }
  }

  // ---------------------------------------------------------------------------
  // shuffleArray
  // ---------------------------------------------------------------------------

  /** The place swapped with place `i` lies in 0..i. */
  lemma SwapPartner(draw: real, i: nat)
    requires 0.0 <= draw < 1.0
    ensures 0 <= Floor(draw * (i + 1) as real) <= i
  {
    DrawIndex(draw, i + 1);
  }

  /**
   * `shuffleArray`: Fisher-Yates on a copy, from the back, swapping place
   * `i` with `Math.floor(draws[n-1-i] * (i+1))`. The input list is left
   * alone and the result holds the same elements.
   */
  method ShuffleArray<T>(s: seq<T>, draws: seq<real>) returns (r: seq<T>)
    requires |draws| >= |s| - 1 && UnitDraws(draws)
    ensures |r| == |s|
    ensures multiset(r) == multiset(s)
  {
    if |s| == 0 {
      return [];
    }
    var shuffled := new T[|s|](k requires 0 <= k < |s| => s[k]);
    assert shuffled[..] == s;
    var i := |s| - 1;
    while i > 0
      invariant 0 <= i < |s|
      invariant multiset(shuffled[..]) == multiset(s)
    {
      var draw := draws[|s| - 1 - i];
      SwapPartner(draw, i);
      var j := Floor(draw * (i + 1) as real);
      shuffled[i], shuffled[j] := shuffled[j], shuffled[i];
      i := i - 1;
    }
    r := shuffled[..];
  }
}
