// The backend voice-scoring pipeline: Levenshtein distance, the text
// similarity ("accuracy") score, the confidence, pronunciation and fluency
// scores, and the orchestrator that moves a voice session from PROCESSING to
// COMPLETED or FAILED. The transcriber, the repository, the AI service and
// the file system are abstract collaborators whose success or failure is an
// input of the orchestrator.
module Voice {
  import opened Util

  // ---- Levenshtein distance ------------------------------------------------

  function Cost(x: char, y: char): nat
  {
    if x == y then 0 else 1
  }

  /** Edit distance between the prefixes a[..i] and b[..j]: the dp table's entry (i, j). */
  function Lev(a: string, b: string, i: nat, j: nat): nat
    requires i <= |a| && j <= |b|
    decreases i + j
  {
    if i == 0 then j
    else if j == 0 then i
    else MinInt(MinInt(Lev(a, b, i - 1, j) + 1, Lev(a, b, i, j - 1) + 1),
                Lev(a, b, i - 1, j - 1) + Cost(a[i - 1], b[j - 1]))
  }

  function EditDistance(a: string, b: string): nat
  {
    Lev(a, b, |a|, |b|)
  }

  /** levenshteinDistance: fills the (|a|+1) x (|b|+1) table row by row. */
  method LevenshteinDistance(a: string, b: string) returns (d: nat)
    ensures d == EditDistance(a, b)
  {
    var dp := new nat[|a| + 1, |b| + 1];
    var i := 0;
    while i <= |a|
      invariant 0 <= i <= |a| + 1
      invariant forall x, y {:trigger dp[x, y]} :: 0 <= x < i && 0 <= y <= |b| ==> dp[x, y] == Lev(a, b, x, y)
    {
      var j := 0;
      while j <= |b|
        invariant 0 <= j <= |b| + 1
        invariant forall x, y {:trigger dp[x, y]} :: 0 <= x < i && 0 <= y <= |b| ==> dp[x, y] == Lev(a, b, x, y)
        invariant forall y {:trigger dp[i, y]} :: 0 <= y < j ==> dp[i, y] == Lev(a, b, i, y)
      {
        if i == 0 {
          dp[i, j] := j;
        } else if j == 0 {
          dp[i, j] := i;
        } else {
          var up, left, diag := dp[i - 1, j], dp[i, j - 1], dp[i - 1, j - 1];
          LevStep(a, b, i, j, up, left, diag);
          dp[i, j] := MinInt(MinInt(up + 1, left + 1), diag + Cost(a[i - 1], b[j - 1]));
        }
        j := j + 1;
      }
      i := i + 1;
    }
    d := dp[|a|, |b|];
  }

  /** One cell of the table from its three neighbours. */
  lemma LevStep(a: string, b: string, i: nat, j: nat, up: nat, left: nat, diag: nat)
    requires 0 < i <= |a| && 0 < j <= |b|
    requires up == Lev(a, b, i - 1, j) && left == Lev(a, b, i, j - 1) && diag == Lev(a, b, i - 1, j - 1)
    ensures Lev(a, b, i, j) == MinInt(MinInt(up + 1, left + 1), diag + Cost(a[i - 1], b[j - 1]))
  {
  }

  /** Symmetry cell by cell, in the order the table is filled. */
  lemma LevSymmetric(a: string, b: string)
    ensures forall x, y {:trigger Lev(a, b, x, y)} :: 0 <= x <= |a| && 0 <= y <= |b| ==> Lev(a, b, x, y) == Lev(b, a, y, x)
  {
    var i := 0;
    while i <= |a|
      invariant i <= |a| + 1
      invariant forall x, y {:trigger Lev(a, b, x, y)} :: 0 <= x < i && 0 <= y <= |b| ==> Lev(a, b, x, y) == Lev(b, a, y, x)
    {
      var j := 0;
      while j <= |b|
        invariant j <= |b| + 1
        invariant forall x, y {:trigger Lev(a, b, x, y)} :: 0 <= x < i && 0 <= y <= |b| ==> Lev(a, b, x, y) == Lev(b, a, y, x)
        invariant forall y {:trigger Lev(a, b, i, y)} :: 0 <= y < j ==> Lev(a, b, i, y) == Lev(b, a, y, i)
      {
        if i > 0 && j > 0 {
          LevSymmetricStep(a, b, i, j);
        }
        j := j + 1;
      }
      i := i + 1;
    }
  }

  lemma LevSymmetricStep(a: string, b: string, i: nat, j: nat)
    requires 0 < i <= |a| && 0 < j <= |b|
    requires Lev(a, b, i - 1, j) == Lev(b, a, j, i - 1)
    requires Lev(a, b, i, j - 1) == Lev(b, a, j - 1, i)
    requires Lev(a, b, i - 1, j - 1) == Lev(b, a, j - 1, i - 1)
    ensures Lev(a, b, i, j) == Lev(b, a, j, i)
  {
    MinSwap(Lev(a, b, i - 1, j) + 1, Lev(a, b, i, j - 1) + 1, Lev(a, b, i - 1, j - 1) + Cost(a[i - 1], b[j - 1]));
  }

  lemma MinSwap(x: int, y: int, z: int)
    ensures MinInt(MinInt(x, y), z) == MinInt(MinInt(y, x), z)
  {
  }

  lemma {:induction false} LevAtMostLonger(a: string, b: string, i: nat, j: nat)
    requires i <= |a| && j <= |b|
    ensures Lev(a, b, i, j) <= MaxInt(i, j)
    decreases i + j
  {
    if i > 0 && j > 0 {
      LevAtMostLonger(a, b, i - 1, j - 1);
    }
  }

  lemma {:induction false} LevAtLeastLengthGap(a: string, b: string, i: nat, j: nat)
    requires i <= |a| && j <= |b|
    ensures Lev(a, b, i, j) >= i - j && Lev(a, b, i, j) >= j - i
    decreases i + j
  {
    if i > 0 && j > 0 {
      LevAtLeastLengthGap(a, b, i - 1, j);
      LevAtLeastLengthGap(a, b, i, j - 1);
      LevAtLeastLengthGap(a, b, i - 1, j - 1);
    }
  }

  lemma {:induction false} LevZeroIff(a: string, b: string, i: nat, j: nat)
    requires i <= |a| && j <= |b|
    ensures Lev(a, b, i, j) == 0 <==> (i == j && a[..i] == b[..j])
    decreases i + j
  {
    if i > 0 && j > 0 {
      LevZeroIff(a, b, i - 1, j - 1);
      LevZeroIffStep(a, b, i, j);
    }
  }

  lemma LevZeroIffStep(a: string, b: string, i: nat, j: nat)
    requires 0 < i <= |a| && 0 < j <= |b|
    requires Lev(a, b, i - 1, j - 1) == 0 <==> (i - 1 == j - 1 && a[..i - 1] == b[..j - 1])
    ensures Lev(a, b, i, j) == 0 <==> (i == j && a[..i] == b[..j])
  {
    assert a[..i] == a[..i - 1] + [a[i - 1]];
    assert b[..j] == b[..j - 1] + [b[j - 1]];
    if i == j && a[..i] == b[..j] {
      assert a[..i - 1] == a[..i][..i - 1] && b[..j - 1] == b[..j][..j - 1];
      assert a[i - 1] == a[..i][i - 1] && b[j - 1] == b[..j][j - 1];
    }
  }

  /** The distance is symmetric, zero exactly on equal strings, and never above the longer length. */
  lemma EditDistanceProperties(a: string, b: string)
    ensures EditDistance(a, b) == EditDistance(b, a)
    ensures EditDistance(a, b) == 0 <==> a == b
    ensures EditDistance(a, b) <= MaxInt(|a|, |b|)
  {
    LevSymmetric(a, b);
    LevZeroIff(a, b, |a|, |b|);
    LevAtMostLonger(a, b, |a|, |b|);
    assert a[..|a|] == a && b[..|b|] == b;
  }

  // ---- accuracy: text similarity -------------------------------------------

  /** toLowerCase().trim(), applied to both texts before they are compared. */
  function NormalizeText(s: string): string
  {
    JavaTrim(ToLower(s))
  }

  /** 1 - distance / longer length; two empty texts are identical. */
  function TextSimilarity(s1: string, s2: string): real
  {
    var maxLength := MaxInt(|s1|, |s2|);
    if maxLength == 0 then 1.0 else 1.0 - EditDistance(s1, s2) as real / maxLength as real
  }

  /** calculateTextSimilarity: 0 when a text is missing, else the similarity of the normalised texts. */
  function Similarity(t1: Option<string>, t2: Option<string>): real
  {
    if t1.None? || t2.None? then 0.0
    else TextSimilarity(NormalizeText(t1.value), NormalizeText(t2.value))
  }

  method CalculateTextSimilarity(t1: Option<string>, t2: Option<string>) returns (r: real)
    ensures r == Similarity(t1, t2)
  {
    if t1.None? || t2.None? {
      return 0.0;
    }
    var s1, s2 := NormalizeText(t1.value), NormalizeText(t2.value);
    if s1 == s2 {
      EditDistanceProperties(s1, s2);
      return 1.0;
    }
    var maxLength := MaxInt(|s1|, |s2|);
    if maxLength == 0 {
      return 1.0;
    }
    var distance := LevenshteinDistance(s1, s2);
    r := 1.0 - distance as real / maxLength as real;
  }

  lemma SimilarityRange(t1: Option<string>, t2: Option<string>)
    ensures 0.0 <= Similarity(t1, t2) <= 1.0
  {
    if t1.Some? && t2.Some? {
      var s1, s2 := NormalizeText(t1.value), NormalizeText(t2.value);
      var m := MaxInt(|s1|, |s2|);
      if m != 0 {
        EditDistanceProperties(s1, s2);
        RatioInUnit(EditDistance(s1, s2) as real, m as real);
      }
    }
  }

  /** Two present texts score 1.0 exactly when they agree after lower-casing and trimming. */
  lemma SimilarityOneIff(t1: string, t2: string)
    ensures Similarity(Some(t1), Some(t2)) == 1.0 <==> NormalizeText(t1) == NormalizeText(t2)
  {
    var s1, s2 := NormalizeText(t1), NormalizeText(t2);
    EditDistanceProperties(s1, s2);
    if s1 != s2 {
      SimilarityBelowOne(s1, s2);
    }
  }

  lemma SimilarityBelowOne(s1: string, s2: string)
    requires s1 != s2
    ensures MaxInt(|s1|, |s2|) > 0
    ensures 1.0 - EditDistance(s1, s2) as real / MaxInt(|s1|, |s2|) as real < 1.0
  {
    EditDistanceProperties(s1, s2);
    RatioPositive(EditDistance(s1, s2) as real, MaxInt(|s1|, |s2|) as real);
  }

  lemma SimilaritySymmetric(t1: Option<string>, t2: Option<string>)
    ensures Similarity(t1, t2) == Similarity(t2, t1)
  {
    if t1.Some? && t2.Some? {
      EditDistanceProperties(NormalizeText(t1.value), NormalizeText(t2.value));
    }
  }

  // ---- confidence ------------------------------------------------------------

  /** The regular-expression class \s: space, tab, newline, vertical tab, form feed, carriage return. */
  predicate IsRegexSpace(c: char)
  {
    c == ' ' || c == '\t' || c == '\n' || c as int == 11 || c as int == 12 || c == '\r'
  }

  /** Character.isWhitespace on the ASCII range (it also covers U+001C..U+001F). */
  predicate IsJavaWhitespace(c: char)
  {
    IsRegexSpace(c) || (28 <= c as int <= 31)
  }

  /** Character.isLetterOrDigit: ASCII letters and digits; characters above U+007F count as letters. */
  predicate IsLetterOrDigit(c: char)
  {
    ('a' <= c <= 'z') || ('A' <= c <= 'Z') || ('0' <= c <= '9') || c as int > 127
  }

  predicate IsSpecial(c: char)
  {
    !IsLetterOrDigit(c) && !IsJavaWhitespace(c)
  }

  /** Number of maximal runs of non-\s characters. */
  function RunCount(s: string): nat
  {
    if s == [] then 0
    else (if !IsRegexSpace(s[0]) && (|s| == 1 || IsRegexSpace(s[1])) then 1 else 0) + RunCount(s[1..])
  }

  predicate HasRegexSpace(s: string)
  {
    s != [] && (IsRegexSpace(s[0]) || HasRegexSpace(s[1..]))
  }

  /**
   * Length of s.split("\\s+"): the whole string when nothing matches; otherwise
   * the pieces between matches, with a leading empty piece when s starts with
   * whitespace and trailing empty pieces dropped.
   */
  function SplitLength(s: string): nat
  {
    if !HasRegexSpace(s) then 1
    else if RunCount(s) == 0 then 0
    else RunCount(s) + (if IsRegexSpace(s[0]) then 1 else 0)
  }

  function SpecialCount(s: string): nat
  {
    if s == [] then 0 else (if IsSpecial(s[0]) then 1 else 0) + SpecialCount(s[1..])
  }

  lemma {:induction false} SpecialCountBound(s: string)
    ensures SpecialCount(s) <= |s|
  {
    if s != [] {
      SpecialCountBound(s[1..]);
    }
  }

  predicate IsBlank(t: Option<string>)
  {
    t.None? || JavaTrim(t.value) == []
  }

  function LengthScore(t: string): real
  {
    MinReal(1.0, SplitLength(t) as real / 10.0)
  }

  function ClarityScore(t: string): real
    requires |t| > 0
  {
    MaxReal(0.0, 1.0 - SpecialCount(t) as real / |t| as real)
  }

  /** calculateConfidenceScore. */
  function ConfidenceScore(t: Option<string>): real
  {
    if IsBlank(t) then 0.0
    else (LengthScore(t.value) + ClarityScore(t.value)) / 2.0
  }

  lemma LengthScoreFacts(t: string)
    ensures 0.0 <= LengthScore(t) <= 1.0
    ensures LengthScore(t) == 1.0 <==> SplitLength(t) >= 10
  {
  }

  lemma ClarityScoreFacts(t: string)
    requires |t| > 0
    ensures 0.0 <= ClarityScore(t) <= 1.0
    ensures ClarityScore(t) == 1.0 <==> SpecialCount(t) == 0
  {
    var x := SpecialCount(t) as real / |t| as real;
    if SpecialCount(t) > 0 {
      RatioPositive(SpecialCount(t) as real, |t| as real);
    } else {
      assert x == 0.0;
    }
  }

  lemma ConfidenceRange(t: Option<string>)
    ensures 0.0 <= ConfidenceScore(t) <= 1.0
  {
    if !IsBlank(t) {
      LengthScoreFacts(t.value);
      ClarityScoreFacts(t.value);
    }
  }

  /** Full confidence needs at least ten words and no special characters, and that suffices. */
  lemma ConfidenceOneIff(t: string)
    ensures ConfidenceScore(Some(t)) == 1.0 <==>
      (JavaTrim(t) != [] && SplitLength(t) >= 10 && SpecialCount(t) == 0)
  {
    if JavaTrim(t) != [] {
      LengthScoreFacts(t);
      ClarityScoreFacts(t);
    }
  }

  // ---- fluency ---------------------------------------------------------------

  /** Words per minute for a duration given in milliseconds. */
  function SpeakingRate(words: nat, durationMs: nat): real
    requires durationMs > 0
  {
    (words as real / (durationMs as real / 1000.0)) * 60.0
  }

  function FluencyForRate(wpm: real): real
  {
    if 150.0 <= wpm <= 200.0 then 1.0
    else if 100.0 <= wpm <= 250.0 then 0.8
    else 0.6
  }

  /**
   * calculateFluencyScore. A zero duration makes the Java division produce
   * Infinity (or NaN for zero words); both fail the two range tests, so the
   * score is the fall-through 0.6.
   */
  function FluencyScore(durationMs: Option<nat>, transcript: Option<string>): real
  {
    if durationMs.None? || transcript.None? then 0.5
    else if durationMs.value == 0 then 0.6
    else FluencyForRate(SpeakingRate(SplitLength(transcript.value), durationMs.value))
  }

  /** The score peaks on the 150-200 wpm band and does not increase moving away from it. */
  lemma FluencyUnimodal(r1: real, r2: real)
    ensures FluencyForRate(r1) == 1.0 <==> 150.0 <= r1 <= 200.0
    ensures r1 <= r2 <= 150.0 ==> FluencyForRate(r1) <= FluencyForRate(r2)
    ensures 200.0 <= r1 <= r2 ==> FluencyForRate(r1) >= FluencyForRate(r2)
    ensures FluencyForRate(r1) in {0.6, 0.8, 1.0}
  {
  }

  lemma FluencyValues(d: Option<nat>, t: Option<string>)
    ensures FluencyScore(d, t) in {0.5, 0.6, 0.8, 1.0}
    ensures FluencyScore(d, t) == 0.5 <==> (d.None? || t.None?)
  {
  }

  // ---- duration ----------------------------------------------------------------

  /** calculateAudioDuration: byte size divided by 16000 with integer division. */
  function AudioDurationMs(size: nat): (ms: nat)
    ensures ms * 16000 <= size < (ms + 1) * 16000
  {
    size / 16000
  }

  // ---- the session entity and the orchestrator ---------------------------------

  datatype ProcessingStatus = Processing | Completed | Failed

  datatype AiFeedback = AiFeedback(feedback: string, generatedAt: int)

  datatype AudioFile = AudioFile(originalFilename: string, size: nat)

  datatype VoiceRequest = VoiceRequest(
    sessionType: string,
    expectedText: Option<string>,
    language: string,
    enableFeedback: bool)

  /**
   * What each collaborator does when it is called: the stored file path or
   * the IOException message, the repository's save calls (None = accepted,
   * Some(m) = threw m), the transcriber's output (possibly null) or failure,
   * the AI service's feedback text or failure, the id and creation time the
   * repository assigns to a new session, and the clock.
   */
  datatype Collaborators = Collaborators(
    saveAudio: Result<string>,
    firstSave: Option<string>,
    transcription: Result<Option<string>>,
    aiFeedback: Result<string>,
    completedSave: Option<string>,
    failedSave: Option<string>,
    assignedId: int,
    assignedCreatedAt: int,
    now: int)

  datatype VoiceResponse = VoiceResponse(
    sessionId: Option<int>,
    transcribedText: Option<string>,
    confidenceScore: Option<real>,
    pronunciationScore: Option<real>,
    accuracyScore: Option<real>,
    fluencyScore: Option<real>,
    status: ProcessingStatus,
    aiFeedback: Option<AiFeedback>,
    errorMessage: Option<string>,
    createdAt: Option<int>)

  /** The completed future's value, or the exception that escapes the catch block. */
  datatype Outcome = Returned(response: VoiceResponse) | Thrown(msg: string)

  const TranscriptionFailure: string := "Failed to transcribe audio"

  /** The message of the first stage that throws, if any. */
  function StageFailure(c: Collaborators): Option<string>
  {
    if c.saveAudio.Err? then Some(c.saveAudio.msg)
    else if c.firstSave.Some? then c.firstSave
    else if c.transcription.Err? then Some(TranscriptionFailure)
    else c.completedSave
  }

  /** Scoring runs exactly when the file was stored, saved and transcribed. */
  predicate ReachesScoring(c: Collaborators)
  {
    c.saveAudio.Ok? && c.firstSave.None? && c.transcription.Ok?
  }

  /** Scores are computed only when both the transcript and the expected text exist. */
  predicate Scored(transcript: Option<string>, expected: Option<string>)
  {
    transcript.Some? && expected.Some?
  }

  /** The four scores of calculateScores, in the order the service computes them. */
  method ComputeScores(t: Option<string>, e: Option<string>, d: Option<nat>)
    returns (accuracy: real, confidence: real, pronunciation: real, fluency: real)
    ensures accuracy == Similarity(t, e)
    ensures confidence == ConfidenceScore(t)
    ensures pronunciation == (accuracy + confidence) / 2.0
    ensures fluency == FluencyScore(d, t)
  {
    accuracy := CalculateTextSimilarity(t, e);
    confidence := ConfidenceScore(t);
    pronunciation := (accuracy + confidence) / 2.0;
    fluency := FluencyScore(d, t);
  }

  class VoiceSession {
    var id: Option<int>
    var createdAt: Option<int>
    var sessionType: string
    var expectedText: Option<string>
    var language: string
    var status: ProcessingStatus
    var audioFilePath: Option<string>
    var durationMs: Option<nat>
    var transcribedText: Option<string>
    var accuracyScore: Option<real>
    var confidenceScore: Option<real>
    var pronunciationScore: Option<real>
    var fluencyScore: Option<real>
    var aiFeedback: Option<AiFeedback>
    var errorMessage: Option<string>

    /** The builder call: a PROCESSING session that the repository has not seen yet. */
    constructor (req: VoiceRequest)
      ensures status == Processing && id.None? && createdAt.None?
      ensures sessionType == req.sessionType && expectedText == req.expectedText && language == req.language
      ensures audioFilePath.None? && durationMs.None? && transcribedText.None?
      ensures accuracyScore.None? && confidenceScore.None? && pronunciationScore.None? && fluencyScore.None?
      ensures aiFeedback.None? && errorMessage.None?
      ensures Initial(req)
    {
      id, createdAt := None, None;
      sessionType, expectedText, language := req.sessionType, req.expectedText, req.language;
      status := Processing;
      audioFilePath, durationMs, transcribedText := None, None, None;
      accuracyScore, confidenceScore, pronunciationScore, fluencyScore := None, None, None, None;
      aiFeedback, errorMessage := None, None;
    }

    /** The state the builder leaves: PROCESSING, unsaved, nothing measured yet. */
    predicate Initial(req: VoiceRequest)
      reads this
    {
      && status == Processing && id.None? && createdAt.None?
      && expectedText == req.expectedText
      && audioFilePath.None? && durationMs.None? && transcribedText.None?
      && accuracyScore.None? && confidenceScore.None? && pronunciationScore.None? && fluencyScore.None?
      && aiFeedback.None? && errorMessage.None?
    }

    /** A successful repository save gives a new session its id and creation time. */
    method Persist(newId: int, newCreatedAt: int)
      modifies this
      ensures id == (if old(id).None? then Some(newId) else old(id))
      ensures createdAt == (if old(id).None? then Some(newCreatedAt) else old(createdAt))
      ensures status == old(status) && errorMessage == old(errorMessage) && aiFeedback == old(aiFeedback)
      ensures transcribedText == old(transcribedText) && durationMs == old(durationMs)
      ensures audioFilePath == old(audioFilePath) && expectedText == old(expectedText)
      ensures accuracyScore == old(accuracyScore) && confidenceScore == old(confidenceScore)
      ensures pronunciationScore == old(pronunciationScore) && fluencyScore == old(fluencyScore)
    {
      if id.None? {
        id := Some(newId);
        createdAt := Some(newCreatedAt);
      }
    }

    /** calculateScores: all four scores, in order, when transcript and expected text are present. */
    method CalculateScores(req: VoiceRequest)
      modifies this
      ensures var t, e, d := old(transcribedText), req.expectedText, old(durationMs);
        Scored(t, e) ==>
        && accuracyScore == Some(Similarity(t, e))
        && confidenceScore == Some(ConfidenceScore(t))
        && pronunciationScore == Some((Similarity(t, e) + ConfidenceScore(t)) / 2.0)
        && fluencyScore == Some(FluencyScore(d, t))
      ensures !Scored(old(transcribedText), req.expectedText) ==>
        && accuracyScore == old(accuracyScore) && confidenceScore == old(confidenceScore)
        && pronunciationScore == old(pronunciationScore) && fluencyScore == old(fluencyScore)
      ensures id == old(id) && createdAt == old(createdAt) && status == old(status)
      ensures transcribedText == old(transcribedText) && durationMs == old(durationMs)
      ensures errorMessage == old(errorMessage) && aiFeedback == old(aiFeedback)
      ensures audioFilePath == old(audioFilePath) && expectedText == old(expectedText)
    {
      if Scored(transcribedText, req.expectedText) {
        var accuracy, confidence, pronunciation, fluency :=
          ComputeScores(transcribedText, req.expectedText, durationMs);
        accuracyScore, confidenceScore, pronunciationScore, fluencyScore :=
          Some(accuracy), Some(confidence), Some(pronunciation), Some(fluency);
      }
    }

    /** generateAIFeedback: a failing AI call is swallowed and leaves the session as it was. */
    method GenerateAIFeedback(result: Result<string>, now: int)
      modifies this
      ensures aiFeedback == (if result.Ok? then Some(AiFeedback(result.value, now)) else old(aiFeedback))
      ensures id == old(id) && createdAt == old(createdAt) && status == old(status)
      ensures transcribedText == old(transcribedText) && durationMs == old(durationMs)
      ensures errorMessage == old(errorMessage) && audioFilePath == old(audioFilePath)
      ensures accuracyScore == old(accuracyScore) && confidenceScore == old(confidenceScore)
      ensures pronunciationScore == old(pronunciationScore) && fluencyScore == old(fluencyScore)
    {
      if result.Ok? {
        aiFeedback := Some(AiFeedback(result.value, now));
      }
    }

    /** mapToResponse. */
    function ToResponse(): VoiceResponse
      reads this
    {
      VoiceResponse(id, transcribedText, confidenceScore, pronunciationScore, accuracyScore,
                    fluencyScore, status, aiFeedback, None, createdAt)
    }
  }

  /** The transcript the scoring stage sees: the transcription's value when it succeeded. */
  function Transcript(c: Collaborators): Option<string>
  {
    if c.transcription.Ok? then c.transcription.value else None
  }

  /** calculateScores fills the scores in: the pipeline got that far and both texts exist. */
  predicate ScoresComputed(c: Collaborators, req: VoiceRequest)
  {
    ReachesScoring(c) && Scored(Transcript(c), req.expectedText)
  }

  /**
   * The try block of processVoiceAsync on a session fresh from the builder:
   * the message of the first exception, or None when every stage succeeded.
   */
  method RunStages(session: VoiceSession, audio: AudioFile, req: VoiceRequest, c: Collaborators)
    returns (failure: Option<string>)
    requires session.Initial(req)
    modifies session
    ensures failure == StageFailure(c)
    ensures failure.None? ==> session.status == Completed
    ensures session.errorMessage.None?
    ensures session.id == (if c.saveAudio.Ok? && c.firstSave.None? then Some(c.assignedId) else None)
    ensures session.createdAt == (if c.saveAudio.Ok? && c.firstSave.None? then Some(c.assignedCreatedAt) else None)
    ensures session.durationMs == (if c.saveAudio.Ok? then Some(AudioDurationMs(audio.size)) else None)
    ensures session.transcribedText == (if ReachesScoring(c) then Transcript(c) else None)
    ensures var t, e, d := Transcript(c), req.expectedText, Some(AudioDurationMs(audio.size));
      ScoresComputed(c, req) ==>
      && session.accuracyScore == Some(Similarity(t, e))
      && session.confidenceScore == Some(ConfidenceScore(t))
      && session.pronunciationScore == Some((Similarity(t, e) + ConfidenceScore(t)) / 2.0)
      && session.fluencyScore == Some(FluencyScore(d, t))
    ensures !ScoresComputed(c, req) ==>
      && session.accuracyScore.None? && session.confidenceScore.None?
      && session.pronunciationScore.None? && session.fluencyScore.None?
    ensures session.aiFeedback ==
      (if ReachesScoring(c) && req.enableFeedback && c.aiFeedback.Ok?
       then Some(AiFeedback(c.aiFeedback.value, c.now)) else None)
  {
    if c.saveAudio.Err? {
      return Some(c.saveAudio.msg);
    }
    session.audioFilePath := Some(c.saveAudio.value);
    session.durationMs := Some(AudioDurationMs(audio.size));
    if c.firstSave.Some? {
      return c.firstSave;
    }
    session.Persist(c.assignedId, c.assignedCreatedAt);
    if c.transcription.Err? {
      return Some(TranscriptionFailure);
    }
    session.transcribedText := c.transcription.value;
    session.CalculateScores(req);
    if req.enableFeedback {
      session.GenerateAIFeedback(c.aiFeedback, c.now);
    }
    session.status := Completed;
    if c.completedSave.Some? {
      return c.completedSave;
    }
    session.Persist(c.assignedId, c.assignedCreatedAt);
    return None;
  }

  /**
   * processVoiceAsync as one sequential run. Every exception of the try block
   * turns the session FAILED with that exception's message; an exception of
   * the repository inside the catch block escapes.
   */
  method ProcessVoice(audio: AudioFile, req: VoiceRequest, c: Collaborators)
    returns (session: VoiceSession, out: Outcome)
    ensures fresh(session)
    // the status machine
    ensures StageFailure(c).None? ==> session.status == Completed && session.errorMessage.None?
    ensures StageFailure(c).Some? ==> session.status == Failed && session.errorMessage == StageFailure(c)
    ensures StageFailure(c).None? ==> out == Returned(session.ToResponse())
    ensures StageFailure(c).Some? && c.failedSave.Some? ==> out == Thrown(c.failedSave.value)
    ensures StageFailure(c).Some? && c.failedSave.None? ==>
      out == Returned(VoiceResponse(session.id, None, None, None, None, None, Failed, None,
                                    StageFailure(c), session.createdAt))
    // identity: assigned by the first save that succeeds
    ensures c.saveAudio.Ok? && c.firstSave.None? ==> session.id == Some(c.assignedId)
    ensures (c.saveAudio.Err? || c.firstSave.Some?) ==>
      session.id == (if c.failedSave.None? then Some(c.assignedId) else None)
    // what each stage leaves on the entity
    ensures session.durationMs == (if c.saveAudio.Ok? then Some(AudioDurationMs(audio.size)) else None)
    ensures session.transcribedText == (if ReachesScoring(c) then Transcript(c) else None)
    ensures var t, e, d := Transcript(c), req.expectedText, Some(AudioDurationMs(audio.size));
      ScoresComputed(c, req) ==>
      && session.accuracyScore == Some(Similarity(t, e))
      && session.confidenceScore == Some(ConfidenceScore(t))
      && session.pronunciationScore == Some((Similarity(t, e) + ConfidenceScore(t)) / 2.0)
      && session.fluencyScore == Some(FluencyScore(d, t))
    ensures !ScoresComputed(c, req) ==>
      && session.accuracyScore.None? && session.confidenceScore.None?
      && session.pronunciationScore.None? && session.fluencyScore.None?
    ensures session.aiFeedback ==
      (if ReachesScoring(c) && req.enableFeedback && c.aiFeedback.Ok?
       then Some(AiFeedback(c.aiFeedback.value, c.now)) else None)
  {
    session := new VoiceSession(req);
    var failure := RunStages(session, audio, req, c);
    if failure.None? {
      return session, Returned(session.ToResponse());
    }
    // catch block
    session.status := Failed;
    session.errorMessage := failure;
    if c.failedSave.Some? {
      return session, Thrown(c.failedSave.value);
    }
    session.Persist(c.assignedId, c.assignedCreatedAt);
    out := Returned(VoiceResponse(session.id, None, None, None, None, None, Failed, None,
                                  failure, session.createdAt));
  }
}
