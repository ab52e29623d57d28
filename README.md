# Dialect Game core, modelled in Dafny

Dialect Game is a language-learning application. It has a React front end and a Spring backend. This project models the deterministic cores beneath the user interface:

- **Voice scoring** (`voice.dfy`, module `Voice`). The backend voice pipeline: the Levenshtein edit distance, the text-similarity ("accuracy") score, the confidence, pronunciation and fluency scores, and the orchestrator. The orchestrator moves a voice session from PROCESSING to COMPLETED or FAILED. The transcriber, repository, AI feedback service and file system are collaborators; whether each succeeds or fails is an input.
- **Virtual classroom** (`classroom.dfy`, `Classroom`). Classrooms, membership limits, collaborative sessions and the session chat. The service is a class over maps of classrooms and sessions.
- **Education rules** (`education.dfy`, `Education`). Lesson prerequisites and progress, answer validation, exercise scoring, hints, recent searches and favourites, and the spaced-repetition review step. Also course progress, certificates, skill analysis and engagement.
- **Resilient HTTP client** (`http_client.dfy`, `HttpClient`). The circuit breaker, the fixed-window rate limiter, the response cache with a time to live, the metrics collector, status classification and the retry loop.
- **API monitoring** (`api_monitoring.dfy`, `ApiMonitoring`). The bounded call history, per-endpoint metrics, percentiles, health, uptime, trends, alert rules and alerts.
- **Multi-device sync** (`sync.dfy`, `Sync`). The versioned sync queue, item selection per sync type, the simulated batch round trip, conflicts and their automatic or manual resolution, and the counters.
- **Customisation** (`customization.dfy`, `Customization`). The theme registry, custom themes, the theme editor's history, volumes, learning preferences and the adaptive-difficulty adjustment.
- **Game engine** (`game_engine.dfy`, `Engine`). The menu/playing/paused state machine, its state-change notifications, the object table bounded by `maxObjects`, and the per-frame movement with wall bounces.
- **Performance monitor** (`perf_monitor.dfy`, `PerfMonitor`). Render tracking, slow-render issues, the performance score, bundle warnings, error tracking, correlations and cleanup.
- **Performance utilities** (`perf_utils.dfy`, `PerfUtils`). The expiring, size-bounded response cache, the timing wrapper and the connection-to-image-quality mapping.
- **Advanced cache** (`advanced_cache.dfy`, `AdvancedCache`). The memory level of the multi-level cache manager: expiry, hit counting, least-used eviction, cleanup and statistics.
- **Game reducer** (`app_reducer.dfy`, `AppReducer`). The reducer of the game screen, and the rule that turns a speech result into actions.
- **Game data** (`game_api.dfy`, `GameApi`). Word difficulty, distractors, quiz assembly and the Fisher-Yates shuffle.
- **Image assets** (`assets.dfy`, `Assets`). Placeholder images, optimised placeholders, and the cached Unsplash/Pexels searches with their fallback.
- **Navigation guard** (`nav_guard.dfy`, `NavGuard`). The skip-ahead recommendation rule and the warning decision.
- **Cognitive optimiser** (`cognitive.dfy`, `Cognitive`). Cognitive state, fatigue, learning momentum and trend, feedback selection, session length and cognitive load.
- **Progression** (`progression.dfy`, `Progression`). The progression service that the unit tests carry: XP, player and skill levels, achievements, streaks and game history.
- **Monetization** (`monetization.dfy`, `Monetization`). The subscription service that the unit tests carry: plans, subscriptions, invoices, payments, usage, feature access, limits and annual savings.
- **Shared vocabulary** (`util.dfy`, `Util`). Option/Result, and integer stand-ins for `Math.floor`, `Math.round` and `Math.ceil`. Also ASCII case folding, trimming, JavaScript's negative `slice`, and decimal rendering.

Numbers are modelled as follows:

- JavaScript numbers and Java doubles are `real`.
- Counters are `int` or `nat`.
- `Math.floor`, `Math.round` and `Math.ceil` are explicit integer functions.

Some inputs become parameters, as does every other input the source reads from its environment:

- the clock (`Date.now`, `performance.now`, the hour of the day);
- random draws (`Math.random`);
- network replies.

Objects whose fields the source mutates are classes. Each class has a `Valid()` invariant that its methods preserve, and each method's postcondition states the complete new state in terms of the specification functions beside it.

As written, the monetization service finds only subscriptions whose status is `active`. A freshly created paid subscription is a trial, so `getUserSubscription`, `hasFeatureAccess` and `checkUsageLimit` do not see it. The model keeps this lookup. `Monetization.NewPaidSubscriptionNotFoundAsWritten` states that behaviour. `Monetization.NewSubscriptionIsCurrent` states what a lookup that also counts trials would give.

## Model

| member | source | states |
|---|---|---|
| Voice.LevenshteinDistance | springai-backend/src/main/java/com/dialectgame/service/voice/VoiceProcessingService.java:167-186 | the row-by-row table fill returns the edit distance of the two strings |
| Voice.LevStep | springai-backend/src/main/java/com/dialectgame/service/voice/VoiceProcessingService.java:177-180 | each interior cell is the minimum of deletion, insertion and substitution (cost 0 on equal characters) |
| Voice.LevSymmetric | springai-backend/src/main/java/com/dialectgame/service/voice/VoiceProcessingService.java:167-186 | every prefix distance is unchanged when the two strings swap roles |
| Voice.LevSymmetricStep | springai-backend/src/main/java/com/dialectgame/service/voice/VoiceProcessingService.java:177-180 | symmetry carries from the three neighbour cells to the cell itself |
| Voice.LevAtMostLonger | springai-backend/src/main/java/com/dialectgame/service/voice/VoiceProcessingService.java:167-186 | the distance of two prefixes never exceeds the longer prefix length |
| Voice.LevAtLeastLengthGap | springai-backend/src/main/java/com/dialectgame/service/voice/VoiceProcessingService.java:167-186 | the distance of two prefixes is at least their length difference |
| Voice.LevZeroIff | springai-backend/src/main/java/com/dialectgame/service/voice/VoiceProcessingService.java:167-186 | a prefix distance is 0 exactly when the two prefixes are equal |
| Voice.LevZeroIffStep | springai-backend/src/main/java/com/dialectgame/service/voice/VoiceProcessingService.java:177-180 | the zero-iff-equal property carries from the diagonal neighbour |
| Voice.EditDistanceProperties | springai-backend/src/main/java/com/dialectgame/service/voice/VoiceProcessingService.java:167-186 | edit distance is symmetric, 0 exactly on equal strings, and at most the longer length |
| Voice.CalculateTextSimilarity | springai-backend/src/main/java/com/dialectgame/service/voice/VoiceProcessingService.java:149-165 | the similarity score of lower-cased, trimmed texts, 0 when either is null |
| Voice.SimilarityRange | springai-backend/src/main/java/com/dialectgame/service/voice/VoiceProcessingService.java:149-165 | the similarity score lies in [0, 1] |
| Voice.SimilarityOneIff | springai-backend/src/main/java/com/dialectgame/service/voice/VoiceProcessingService.java:154-164 | the score is 1 exactly when the normalised texts are equal (two empty texts included) |
| Voice.SimilarityBelowOne | springai-backend/src/main/java/com/dialectgame/service/voice/VoiceProcessingService.java:160-164 | two different normalised texts score strictly below 1 |
| Voice.SimilaritySymmetric | springai-backend/src/main/java/com/dialectgame/service/voice/VoiceProcessingService.java:149-165 | swapping expected and transcribed text leaves the score unchanged |
| Voice.SpecialCountBound | springai-backend/src/main/java/com/dialectgame/service/voice/VoiceProcessingService.java:198 | the count of non-letter, non-digit, non-space characters is at most the length |
| Voice.LengthScoreFacts | springai-backend/src/main/java/com/dialectgame/service/voice/VoiceProcessingService.java:194-195 | the length score lies in [0, 1] and is 1 exactly from 10 split tokens on |
| Voice.ClarityScoreFacts | springai-backend/src/main/java/com/dialectgame/service/voice/VoiceProcessingService.java:198-199 | the clarity score lies in [0, 1] and is 1 exactly when no special character occurs |
| Voice.ConfidenceRange | springai-backend/src/main/java/com/dialectgame/service/voice/VoiceProcessingService.java:188-202 | the confidence score lies in [0, 1] |
| Voice.ConfidenceOneIff | springai-backend/src/main/java/com/dialectgame/service/voice/VoiceProcessingService.java:188-202 | confidence is 1 exactly for non-blank text with at least 10 tokens and no special character |
| Voice.FluencyUnimodal | springai-backend/src/main/java/com/dialectgame/service/voice/VoiceProcessingService.java:212-221 | fluency is 1 exactly at 150-200 words per minute and falls off monotonically on both sides, taking only 0.6, 0.8 or 1 |
| Voice.FluencyValues | springai-backend/src/main/java/com/dialectgame/service/voice/VoiceProcessingService.java:204-222 | fluency is one of 0.5, 0.6, 0.8, 1, and 0.5 exactly when duration or transcript is missing |
| Voice.AudioDurationMs | springai-backend/src/main/java/com/dialectgame/service/voice/VoiceProcessingService.java:256-259 | the estimated duration is the byte size integer-divided by 16000 |
| Voice.ComputeScores | springai-backend/src/main/java/com/dialectgame/service/voice/VoiceProcessingService.java:126-147 | accuracy is the similarity, confidence the confidence score, pronunciation their mean, fluency the fluency score |
| Voice.VoiceSession.constructor | springai-backend/src/main/java/com/dialectgame/service/voice/VoiceProcessingService.java:49-55 | a new session is PROCESSING with the request's type, expected text and language and nothing else set |
| Voice.VoiceSession.Persist | springai-backend/src/main/java/com/dialectgame/service/voice/VoiceProcessingService.java:63-64 | the first save assigns id and creation time; a later save keeps them; no other field changes |
| Voice.VoiceSession.CalculateScores | springai-backend/src/main/java/com/dialectgame/service/voice/VoiceProcessingService.java:126-147 | the four scores are set exactly when transcript and expected text exist; nothing else changes |
| Voice.VoiceSession.GenerateAIFeedback | springai-backend/src/main/java/com/dialectgame/service/voice/VoiceProcessingService.java:224-241 | a successful AI call stores the feedback with its time; a failure leaves the session unchanged |
| Voice.RunStages | springai-backend/src/main/java/com/dialectgame/service/voice/VoiceProcessingService.java:57-84 | the try block: the first failing stage's message, and what each completed stage leaves on the session |
| Voice.ProcessVoice | springai-backend/src/main/java/com/dialectgame/service/voice/VoiceProcessingService.java:40-102 | COMPLETED with the response on success; FAILED with the first failure's message otherwise, and the exception escapes when the failure save itself throws |
| Util.ToLowerIdempotent | springai-backend/src/main/java/com/dialectgame/service/voice/VoiceProcessingService.java:154-155 | lower-casing twice is lower-casing once, so normalisation is stable |
| Util.TrimFacts | springai-backend/src/main/java/com/dialectgame/service/voice/VoiceProcessingService.java:154-155 | a trimmed string is empty exactly when every character is stripped, and otherwise starts and ends with a kept character |
| Util.WithoutSublist | dialect-game/src/services/education/educationService.ts:377 | Array.filter keeps the order of the entries it keeps |
| Util.SublistSnocRight | dialect-game/src/services/backend/syncService.ts:412-455 | a filter that skips the next queued item keeps its selection a sub-list of the longer queue |
| Util.SublistSnocBoth | dialect-game/src/services/backend/syncService.ts:412-455 | a filter that keeps the next queued item keeps its selection, extended by that item, a sub-list of the longer queue |
| Util.SliceFrom | dialect-game/src/services/collaborative/classroomService.ts:361 | a JavaScript slice with a negative start keeps a suffix of the array |
| Util.KeepNewestFacts | dialect-game/src/services/collaborative/classroomService.ts:359-362 | trimming a history to a positive limit keeps the newest min(length, limit) items and the last item; a limit of 0 keeps everything |
| Util.KeepNewestBound | dialect-game/src/services/api/apiMonitoring.ts:149-151 | after the trim a history holds at most the positive limit |
| Util.IntToStringInjective | dialect-game/tests/unit/services/monetization.test.ts:76 | decimal rendering of integers is injective, so ids built from different numbers differ |
| Classroom.ParseRole | dialect-game/src/services/collaborative/classroomService.ts:904-906 | a parsed role name prints back as the same string |
| Classroom.ParseRoleName | dialect-game/src/services/collaborative/classroomService.ts:904-906 | every role's enumeration value is recognised as that role |
| Classroom.IsValidRoleIff | dialect-game/src/services/collaborative/classroomService.ts:904-906 | isValidRole holds exactly for the names of the roles |
| Classroom.DefaultPermissions | dialect-game/src/services/collaborative/classroomService.ts:796-809 | the role table: nested prefixes of the permission list, admin only for teachers, moderate for teachers and assistants, students get view and interact |
| Classroom.ToSessionParticipant | dialect-game/src/services/collaborative/classroomService.ts:610-647 | the session view keeps the member's id, user, role and permissions, is present when online, and starts with participation 0 |
| Classroom.ToSessionParticipants | dialect-game/src/services/collaborative/classroomService.ts:228-239 | mapping the member list keeps its length |
| Classroom.ToSessionParticipantsAt | dialect-game/src/services/collaborative/classroomService.ts:228-239 | the i-th session participant is the view of the i-th member |
| Classroom.RemoveById | dialect-game/src/services/collaborative/classroomService.ts:199-201 | filtering by id never lengthens a member list |
| Classroom.RemoveByIdFacts | dialect-game/src/services/collaborative/classroomService.ts:199-201 | leaving keeps exactly the members with another id, and leaves a list without the id untouched |
| Classroom.FindByUserId | dialect-game/src/services/collaborative/classroomService.ts:332-335 | a found sender is a participant with that user id |
| Classroom.FindByUserIdFirst | dialect-game/src/services/collaborative/classroomService.ts:332-335 | Array.find: the sender found is the first participant with that user id |
| Classroom.FindByUserIdNone | dialect-game/src/services/collaborative/classroomService.ts:332-335 | the sender lookup fails exactly when no participant has that user id |
| Classroom.IndexOfId | dialect-game/src/services/collaborative/classroomService.ts:591-594 | findIndex gives -1 or an index holding that id |
| Classroom.IndexOfIdFacts | dialect-game/src/services/collaborative/classroomService.ts:591-594 | -1 exactly when the id is absent, and otherwise the first index with that id |
| Classroom.ApplyUpdateLaws | dialect-game/src/services/collaborative/classroomService.ts:596-599 | the partial update overrides exactly the given fields, and applying it twice equals applying it once |
| Classroom.NewMessage | dialect-game/src/services/collaborative/classroomService.ts:337-355 | the message carries the sender's user id, name and role, the content and time, and recipients exactly when private |
| Classroom.FormatDuration | dialect-game/src/services/collaborative/classroomService.ts:883-895 | the text ends in 'm' exactly from one hour on |
| Classroom.FormatDurationSeconds | dialect-game/src/services/collaborative/classroomService.ts:892-894 | below one minute two durations print alike exactly when they have the same whole seconds |
| Classroom.ParticipationScores | dialect-game/src/services/collaborative/classroomService.ts:897-902 | one participation score per participant |
| Classroom.ParticipationScoresAt | dialect-game/src/services/collaborative/classroomService.ts:897-902 | the i-th score is the i-th participant's participation score |
| Classroom.EngagementScoreBounds | dialect-game/src/services/collaborative/classroomService.ts:897-902 | the engagement score is 0 without participants, and otherwise lies between the lowest and highest participation scores |
| Classroom.StoreClassroom | dialect-game/src/services/collaborative/classroomService.ts:81-131 | storing a classroom within capacity keeps the table invariant |
| Classroom.StoreSession | dialect-game/src/services/collaborative/classroomService.ts:219-379 | storing a session whose chat is within the limit keeps the table invariant, also when it becomes active |
| Classroom.ClassroomService.constructor | dialect-game/src/services/collaborative/classroomService.ts:68-79 | empty tables, no user, and the configured chat history or the default |
| Classroom.ClassroomService.CreateClassroom | dialect-game/src/services/collaborative/classroomService.ts:81-131 | a classroom with only the teacher, holding every permission, the configured or default capacity, stored under its id; nothing else changes |
| Classroom.ClassroomService.JoinClassroom | dialect-game/src/services/collaborative/classroomService.ts:133-191 | the join succeeds exactly when the classroom exists and, for a student, it holds fewer than maxStudents students; 'Classroom not found' and 'Classroom is full' change nothing; otherwise the member is appended by role with the role's permissions and a join event is emitted |
| Classroom.ClassroomService.LeaveClassroom | dialect-game/src/services/collaborative/classroomService.ts:193-217 | 'Classroom not found' for an unknown id; otherwise that participant id is removed from students and assistants and a leave event is emitted |
| Classroom.ClassroomService.StartSession | dialect-game/src/services/collaborative/classroomService.ts:219-286 | 'Classroom not found' for an unknown id; otherwise an active session with the given title and description, of teacher, students and assistants, becomes current, is appended and stored, and active |
| Classroom.ClassroomService.EndSession | dialect-game/src/services/collaborative/classroomService.ts:288-319 | succeeds exactly when the session is active and its classroom exists, otherwise 'Session not found'; on success the session ends with duration end - start, the classroom's current session is cleared and the session leaves the active set |
| Classroom.ClassroomService.SendChatMessage | dialect-game/src/services/collaborative/classroomService.ts:321-380 | succeeds exactly when the session is active and holds a participant with the sender's user id; 'Session not found' and 'Sender not found in session' change nothing; otherwise the message is appended and the chat cut to the newest chatHistory messages |
| Classroom.ClassroomService.UpdateParticipantStatus | dialect-game/src/services/collaborative/classroomService.ts:581-608 | succeeds exactly when the session is active and holds the participant; an unknown session or participant is refused; otherwise exactly the first participant with that id gets the partial update |
| Education.CanAccessLessonIff | dialect-game/src/services/education/educationService.ts:86-88 | a lesson is accessible exactly when every prerequisite id is among the completed lessons |
| Education.CountDone | dialect-game/src/services/education/educationService.ts:93 | the completed count never exceeds the number of exercises |
| Education.CountDoneAll | dialect-game/src/services/education/educationService.ts:93 | the count equals the total exactly when every id is completed |
| Education.ProgressFacts | dialect-game/src/services/education/educationService.ts:91-95 | progress is 0 on an empty list, lies in [0, 1], and reaches 1 exactly when the list is non-empty and fully completed |
| Education.ExerciseIds | dialect-game/src/services/education/educationService.ts:93 | one id per exercise |
| Education.UnlockNextLessons | dialect-game/src/services/education/educationService.ts:98-105 | unlocking keeps the number of lessons |
| Education.UnlockNextLessonsAt | dialect-game/src/services/education/educationService.ts:98-105 | lesson i is unlocked exactly when its prerequisites contain the completed id, and is otherwise unchanged |
| Education.MatchesAnyIff | dialect-game/src/services/education/educationService.ts:167-183 | an answer matches a candidate list exactly when some candidate normalises to it |
| Education.MatchesAnyAppend | dialect-game/src/services/education/educationService.ts:167-183 | matching the correct answers then the acceptable answers is matching their concatenation |
| Education.ValidateAnswerIff | dialect-game/src/services/education/educationService.ts:165-186 | an answer is valid exactly when its lower-cased, trimmed form equals that of a correct or acceptable answer |
| Education.ValidateAnswerIgnoresCase | dialect-game/src/services/education/educationService.ts:165-186 | validation does not depend on the answer's letter case |
| Education.ExerciseScore | dialect-game/src/services/education/educationService.ts:189-205 | the score is never negative, and 0 for an incorrect answer |
| Education.SpeedBonus | dialect-game/src/services/education/educationService.ts:199-200 | the speed bonus is never negative |
| Education.SpeedBonusBound | dialect-game/src/services/education/educationService.ts:199-200 | the speed bonus is at most 20%, and positive when the time spent is below the limit |
| Education.TimeBonusBounds | dialect-game/src/services/education/educationService.ts:198-202 | the time bonus lies between 0 and round(20% of points), and is 0 without a time limit, with a zero limit, and once the time spent reaches the limit |
| Education.ExerciseScoreBounds | dialect-game/src/services/education/educationService.ts:189-205 | a correct answer scores max(0, points - 10 per hint) plus at most round(20% of points), exactly that without a time limit, with a zero limit, or once the time spent reaches the limit |
| Education.NextHint | dialect-game/src/services/education/educationService.ts:229-232 | the hint at the index when the index is within the hint list, and null otherwise |
| Education.AddRecentSearch | dialect-game/src/services/education/educationService.ts:376-379 | the query comes first, followed by the previous searches without it, in their order, the whole cut to 10 entries |
| Education.AddRecentSearchFacts | dialect-game/src/services/education/educationService.ts:376-379 | the list is the query followed by the first min(9, n) previous searches other than it, in their order (n of them); the query occurs only at the head, every other entry was already recent, and repeating the search changes nothing |
| Education.AddRecentSearchDistinct | dialect-game/src/services/education/educationService.ts:376-379 | a list without repeats stays without repeats |
| Education.ToggleFavorite | dialect-game/src/services/education/educationService.ts:382-388 | only the favourites change |
| Education.ToggleFavoriteFacts | dialect-game/src/services/education/educationService.ts:382-388 | after the toggle the entry is a favourite exactly when isFavorite is set, and the other favourites are unchanged |
| Education.NextEase | dialect-game/src/services/education/educationService.ts:440-443 | the updated ease never drops below 1.3 |
| Education.NextEaseBound | dialect-game/src/services/education/educationService.ts:440-443 | a passing review raises the ease by at most 0.1, and by exactly 0.1 (above the floor) at quality 5 |
| Education.ProcessReview | dialect-game/src/services/education/educationService.ts:426-466 | a failing review resets repetitions and interval and keeps the ease; a passing one adds a repetition and scales the table interval by the new ease; history grows by one entry |
| Education.NextReviewDate | dialect-game/src/services/education/educationService.ts:411-423 | a failing quality schedules the first interval, a passing one at least a day ahead |
| Education.ReviewSchedulesAgree | dialect-game/src/services/education/educationService.ts:411-466 | processReview and calculateNextReviewDate agree on a failing review; on a passing one processReview schedules no earlier, with an interval of at least one day |
| Education.CardsDue | dialect-game/src/services/education/educationService.ts:469-472 | the due cards, in their original order and with none other: every card kept is due, the result is the cards with some left out, and each due card is kept as often as it occurs |
| Education.CardsDueIff | dialect-game/src/services/education/educationService.ts:469-472 | a card is due exactly when it is active and its review date is not after now |
| Education.CertificateEligibilityIff | dialect-game/src/services/education/educationService.ts:534-548 | eligible exactly when the course awards certificates, every lesson is completed (so a course without lessons never is) and the score is at least 70, and then with the passing reason |
| Education.SkillsBeyond | dialect-game/src/services/education/educationService.ts:574-580 | the selected skills are at most the listed skills |
| Education.SkillsBeyondIff | dialect-game/src/services/education/educationService.ts:574-580 | a skill is selected exactly when its score is beyond the bound on the chosen side |
| Education.AnalyzeSkills | dialect-game/src/services/education/educationService.ts:570-583 | without skills there is no average and no strengths or weaknesses |
| Education.AnalyzeSkillsDisjoint | dialect-game/src/services/education/educationService.ts:570-583 | with distinct skills no skill is both a strength and a weakness |
| Education.EngagementScore | dialect-game/src/services/education/educationService.ts:722-733 | the engagement score is at most 100 |
| Education.EngagementScoreRange | dialect-game/src/services/education/educationService.ts:722-733 | the score is the four capped terms (30, 30, 25, 15 points) and is non-negative for non-negative inputs |
| HttpClient.ErrorTypeFromStatus | dialect-game/src/services/api/robustHttpClient.ts:529-536 | each error type holds exactly on its status range: 401/403 auth, 404 not found, 429 rate limit, 500 and above server, other 4xx validation, below 400 unknown |
| HttpClient.HttpError | dialect-game/src/services/api/robustHttpClient.ts:469-476 | the error raised for a non-ok reply carries the classified type and the status |
| HttpClient.HttpErrorRetryable | dialect-game/src/services/api/robustHttpClient.ts:475 | an HTTP error is retryable exactly when it is a server or rate-limit error |
| HttpClient.CacheKey | dialect-game/src/services/api/robustHttpClient.ts:523-527 | the key is method (GET by default), URL and body (empty by default) joined by colons |
| HttpClient.CacheKeySeparatesMethods | dialect-game/src/services/api/robustHttpClient.ts:523-527 | two requests with different HTTP methods never share a cache key |
| HttpClient.CircuitBreaker.constructor | dialect-game/src/services/api/robustHttpClient.ts:50-56 | a new breaker is CLOSED with zero counters and keeps its configuration |
| HttpClient.CircuitBreaker.Admit | dialect-game/src/services/api/robustHttpClient.ts:59-72 | an OPEN breaker before nextAttempt refuses; an OPEN breaker at or after it moves to HALF_OPEN with successCount 0 and failures kept; otherwise nothing changes |
| HttpClient.CircuitBreaker.OnSuccess | dialect-game/src/services/api/robustHttpClient.ts:84-94 | in HALF_OPEN a success counts and closes the breaker, zeroing failures, once minimumRequests is reached; in CLOSED a success zeroes failures |
| HttpClient.CircuitBreaker.OnFailure | dialect-game/src/services/api/robustHttpClient.ts:96-104 | a failure increments failures and records the time; reaching the threshold opens the breaker until now + resetTimeout |
| HttpClient.CircuitBreaker.Execute | dialect-game/src/services/api/robustHttpClient.ts:58-82 | a refused call returns 'Circuit breaker is OPEN' and changes nothing; an OPEN breaker past its reset time moves to HALF_OPEN with no successes and runs the trial; the operation's outcome is returned; a success resets the failures and closes the breaker, from HALF_OPEN only at the third success; a failure counts, is timestamped, opens the breaker with a new reset time at the threshold or during a trial, and otherwise leaves it CLOSED |
| HttpClient.RateLimiter.constructor | dialect-game/src/services/api/robustHttpClient.ts:122 | no endpoint has a window yet |
| HttpClient.RateLimiter.CurrentWindow | dialect-game/src/services/api/robustHttpClient.ts:128-137 | a missing or elapsed window (now - start >= window) restarts empty at now; otherwise the stored window applies |
| HttpClient.RateLimiter.Remaining | dialect-game/src/services/api/robustHttpClient.ts:148-152 | the full limit for an unseen endpoint, else max(0, limit - used) |
| HttpClient.RateLimiter.CheckLimit | dialect-game/src/services/api/robustHttpClient.ts:124-146 | allowed exactly when the current window has used fewer than the limit; an allowed call is counted, a refused one marks the window blocked; the count never passes the limit |
| HttpClient.RequestCache.constructor | dialect-game/src/services/api/robustHttpClient.ts:157 | the cache starts empty |
| HttpClient.RequestCache.Lookup | dialect-game/src/services/api/robustHttpClient.ts:172-182 | an entry is served exactly while its age is at most its ttl |
| HttpClient.RequestCache.Set | dialect-game/src/services/api/robustHttpClient.ts:159-170 | the entry is stored with timestamp now, served up to ttl later and not after |
| HttpClient.RequestCache.TimerFired | dialect-game/src/services/api/robustHttpClient.ts:167-169 | the expiry timer removes the key |
| HttpClient.RequestCache.Get | dialect-game/src/services/api/robustHttpClient.ts:172-182 | the served value; an expired entry is deleted and nothing else changes |
| HttpClient.RequestCache.Clear | dialect-game/src/services/api/robustHttpClient.ts:184-186 | the cache is emptied |
| HttpClient.RunningMean | dialect-game/src/services/api/robustHttpClient.ts:223-224 | the incremental update of a mean equals the mean of the samples with the new one added |
| HttpClient.Recorded | dialect-game/src/services/api/robustHttpClient.ts:212-224 | one request more, counted as success or failure, with the running-mean latency |
| HttpClient.RecordedConsistent | dialect-game/src/services/api/robustHttpClient.ts:197-225 | recording keeps total = success + failed and averageLatency = mean of all recorded latencies |
| HttpClient.MetricsCollector.constructor | dialect-game/src/services/api/robustHttpClient.ts:195 | no metrics yet |
| HttpClient.MetricsCollector.RecordRequest | dialect-game/src/services/api/robustHttpClient.ts:197-225 | the endpoint's metrics (created empty at first use) record the request and its latency; other endpoints are unchanged |
| HttpClient.MetricsCollector.GetMetrics | dialect-game/src/services/api/robustHttpClient.ts:227-232 | no endpoint, or the empty name, gives the whole table; a named endpoint gives its stored metrics, an unseen one empty metrics, and the totals add up |
| HttpClient.MetricsCollector.ResetMetrics | dialect-game/src/services/api/robustHttpClient.ts:234-240 | a non-empty endpoint name is reset to empty metrics, leaving the others; no name or the empty name clears all metrics |
| HttpClient.Pow2 | dialect-game/src/services/api/robustHttpClient.ts:499 | the back-off factor is at least 1 |
| HttpClient.RetryEnding | dialect-game/src/services/api/robustHttpClient.ts:455-505 | at most retries + 1 attempts; every attempt but the last failed retryably; the loop ends on the first success, on the first non-retryable error, or after the last attempt with its error |
| HttpClient.ExecuteRequest | dialect-game/src/services/api/robustHttpClient.ts:449-506 | the retry loop's ending and attempt count are those of the retry specification, with delay retryDelay * 2^i before attempt i + 1 |
| HttpClient.RequestCache.Size | dialect-game/src/services/api/robustHttpClient.ts:188-190 | the reported size is the number of keys the cache holds |
| ApiMonitoring.InWindow | dialect-game/src/services/api/apiMonitoring.ts:167-169 | the window holds at most as many calls as are stored |
| ApiMonitoring.InWindowKeeps | dialect-game/src/services/api/apiMonitoring.ts:167-169 | the window's calls are a sub-list of the stored calls in their order, and each call for the endpoint within the window appears as often as it is stored, any other not at all |
| ApiMonitoring.InWindowIff | dialect-game/src/services/api/apiMonitoring.ts:167-169 | a call is in the window exactly when it is stored, is for that endpoint and is at most the window old |
| ApiMonitoring.Successes | dialect-game/src/services/api/apiMonitoring.ts:172 | the success count is at most the number of calls |
| ApiMonitoring.SuccessesAll | dialect-game/src/services/api/apiMonitoring.ts:172 | every call succeeded exactly when the count equals the number of calls |
| ApiMonitoring.Durations | dialect-game/src/services/api/apiMonitoring.ts:175 | the latency list holds each call's duration in order |
| ApiMonitoring.ErrorCounts | dialect-game/src/services/api/apiMonitoring.ts:180-186 | each recorded error type counts at least one and at most the failed calls |
| ApiMonitoring.SuccessRate | dialect-game/src/services/api/apiMonitoring.ts:524-526 | a slice's success rate lies in [0, 1], is 1 without calls, and is 1 exactly when every call succeeded |
| ApiMonitoring.EndpointMetrics | dialect-game/src/services/api/apiMonitoring.ts:165-196 | only this endpoint's calls inside the window count; total = success + failed; average latency and error counts are empty without calls |
| ApiMonitoring.AverageLatencyBounds | dialect-game/src/services/api/apiMonitoring.ts:175-178 | the average latency lies between the least and greatest call duration |
| ApiMonitoring.ErrorRate | dialect-game/src/services/api/apiMonitoring.ts:215-217 | the error rate lies in [0, 1], and is 0 without calls |
| ApiMonitoring.Uptime | dialect-game/src/services/api/apiMonitoring.ts:498-507 | uptime lies in [0, 1], and is 1 when the last hour has no calls |
| ApiMonitoring.UptimeComplementsErrorRate | dialect-game/src/services/api/apiMonitoring.ts:498-507 | over the hour window uptime and error rate add up to 1 when there are calls; without calls uptime is 1 and error rate 0 |
| ApiMonitoring.StatusFor | dialect-game/src/services/api/apiMonitoring.ts:219-227 | down exactly when errorRate > 0.5 or avg > 10000; healthy exactly when errorRate <= 0.1 and avg <= 5000; degraded otherwise |
| ApiMonitoring.StatusMonotone | dialect-game/src/services/api/apiMonitoring.ts:219-227 | a better error rate and latency never give a worse status |
| ApiMonitoring.Insert | dialect-game/src/services/api/apiMonitoring.ts:206 | inserting keeps the list sorted and adds exactly that value |
| ApiMonitoring.SortAsc | dialect-game/src/services/api/apiMonitoring.ts:206 | the latencies sorted ascending are a sorted permutation |
| ApiMonitoring.Percentile | dialect-game/src/services/api/apiMonitoring.ts:492-496 | the percentile of an empty list is 0 |
| ApiMonitoring.PercentileFacts | dialect-game/src/services/api/apiMonitoring.ts:492-496 | on a non-empty list the percentile is the element at max(0, ceil(n*p) - 1), so it is one of the values |
| ApiMonitoring.PercentileMonotone | dialect-game/src/services/api/apiMonitoring.ts:206-212 | on a sorted list a higher p never gives a lower percentile |
| ApiMonitoring.LatestFailure | dialect-game/src/services/api/apiMonitoring.ts:233-235 | the last error is a failed recent call |
| ApiMonitoring.LatestFailureFacts | dialect-game/src/services/api/apiMonitoring.ts:233-235 | there is none exactly when every recent call succeeded, and otherwise no failed call is newer |
| ApiMonitoring.ErrorMessage | dialect-game/src/services/api/apiMonitoring.ts:239 | the message is 'Network error' without a status (or status 0), else the status followed by ' error' |
| ApiMonitoring.LastErrorOf | dialect-game/src/services/api/apiMonitoring.ts:237-241 | the last error exists exactly when a recent call failed, with that call's time and error type (UNKNOWN_ERROR by default) |
| ApiMonitoring.SliceRate | dialect-game/src/services/api/apiMonitoring.ts:515-526 | each trend point is a success rate in [0, 1] |
| ApiMonitoring.Trend | dialect-game/src/services/api/apiMonitoring.ts:509-532 | the trend has one point per slice, each the success rate of that slice |
| ApiMonitoring.ToApiHealthStatus | dialect-game/src/services/api/apiMonitoring.ts:534-542 | healthy exactly when the endpoint status is healthy, carrying its latency, error rate and uptime |
| ApiMonitoring.HealthyCount | dialect-game/src/services/api/apiMonitoring.ts:270 | the healthy count is at most the number of endpoints |
| ApiMonitoring.Overall | dialect-game/src/services/api/apiMonitoring.ts:262-284 | the score is the healthy share of the four endpoints, and the system is healthy exactly when at least three (75%) are |
| ApiMonitoring.RuleFires | dialect-game/src/services/api/apiMonitoring.ts:398-421 | response-time rules compare the average latency; without calls the error rate counts as 0 and the availability as 1; an unknown condition never fires |
| ApiMonitoring.SeverityFor | dialect-game/src/services/api/apiMonitoring.ts:558-570 | critical exactly for an error-rate rule above 50% failures, high exactly for a response-time rule above 10 s, medium otherwise |
| ApiMonitoring.CheckRule | dialect-game/src/services/api/apiMonitoring.ts:389-395 | a rule check either leaves the alert state alone or raises exactly one alert |
| ApiMonitoring.CheckRules | dialect-game/src/services/api/apiMonitoring.ts:384-396 | checking the rules keeps the alert history within maxStoredAlerts |
| ApiMonitoring.CheckedBound | dialect-game/src/services/api/apiMonitoring.ts:442-444 | raising an alert keeps the alert history within maxStoredAlerts |
| ApiMonitoring.CheckRuleIdempotent | dialect-game/src/services/api/apiMonitoring.ts:389-395 | after a firing rule is checked an active alert exists for it, so checking it again raises nothing |
| ApiMonitoring.CheckRulesStep | dialect-game/src/services/api/apiMonitoring.ts:389-395 | checking the rules from i on is checking rule i, then the rest |
| ApiMonitoring.CheckEndpoints | dialect-game/src/services/api/apiMonitoring.ts:378-382 | checking all endpoints keeps the alert history within maxStoredAlerts |
| ApiMonitoring.ActiveAlerts | dialect-game/src/services/api/apiMonitoring.ts:306-308 | the active alerts are at most as many as the stored alerts |
| ApiMonitoring.ActiveAlertsKeeps | dialect-game/src/services/api/apiMonitoring.ts:306-308 | the active alerts are a sub-list of the alerts in their order, each unresolved alert appearing as often as it is stored and no resolved one |
| ApiMonitoring.ActiveAlertsIff | dialect-game/src/services/api/apiMonitoring.ts:306-308 | an alert is active exactly when it is stored and unresolved |
| ApiMonitoring.ResolveShrinksActive | dialect-game/src/services/api/apiMonitoring.ts:310-318 | resolving an unresolved alert removes exactly one alert from the active ones |
| ApiMonitoring.FirstAlert | dialect-game/src/services/api/apiMonitoring.ts:311 | find gives the first alert with the id, or none when no alert has it |
| ApiMonitoring.FirstRule | dialect-game/src/services/api/apiMonitoring.ts:298 | findIndex gives the first rule with the id, or none when no rule has it |
| ApiMonitoring.Monitor.constructor | dialect-game/src/services/api/apiMonitoring.ts:107-132 | no calls or alerts; when enabled, the two default rules (high error rate, slow response time) are installed |
| ApiMonitoring.Monitor.RecordApiCall | dialect-game/src/services/api/apiMonitoring.ts:135-162 | a disabled monitor or a draw above the sample rate records nothing; otherwise the call is appended with an id, the newest maxStoredCalls are kept, and a failed call with status 500/503 or a network error checks its endpoint's alerts |
| ApiMonitoring.Monitor.CheckAlertsForEndpoint | dialect-game/src/services/api/apiMonitoring.ts:384-396 | the alert state is that of checking every rule for the endpoint; calls and rules are unchanged |
| ApiMonitoring.Monitor.CheckAlerts | dialect-game/src/services/api/apiMonitoring.ts:378-382 | the alert state is that of checking the four endpoints in order |
| ApiMonitoring.Monitor.GetEndpointMetrics | dialect-game/src/services/api/apiMonitoring.ts:165-196 | the metrics over the stored calls |
| ApiMonitoring.Monitor.GetEndpointHealth | dialect-game/src/services/api/apiMonitoring.ts:199-259 | hour-window average, error rate in [0, 1] and status; percentiles of the last five minutes with p50 <= p95 <= p99; uptime; the last error; 12, 24 and 7 trend points |
| ApiMonitoring.Monitor.GetSystemHealth | dialect-game/src/services/api/apiMonitoring.ts:262-284 | overall healthy exactly when at least three of the four endpoints are healthy, with a score in [0, 1] |
| ApiMonitoring.Monitor.AddAlertRule | dialect-game/src/services/api/apiMonitoring.ts:287-295 | the rule is appended under a new id, which is returned |
| ApiMonitoring.Monitor.RemoveAlertRule | dialect-game/src/services/api/apiMonitoring.ts:297-304 | true exactly when a rule has the id, and then the first such rule is removed |
| ApiMonitoring.Monitor.GetActiveAlerts | dialect-game/src/services/api/apiMonitoring.ts:306-308 | exactly the unresolved alerts |
| ApiMonitoring.Monitor.ResolveAlert | dialect-game/src/services/api/apiMonitoring.ts:310-318 | true exactly when the first alert with the id is unresolved; it is then resolved at now and the active alerts shrink by one |
| Sync.CountStatus | dialect-game/src/services/backend/syncService.ts:567-573 | a per-status count is at most the queue length |
| Sync.CountsPartition | dialect-game/src/services/backend/syncService.ts:567-573 | the six per-status counts add up to the queue length |
| Sync.WithCounts | dialect-game/src/services/backend/syncService.ts:567-573 | the counters are the queue's per-status counts and the number of conflicts, synced + pending + error never exceed the total, and no other field changes |
| Sync.Picked | dialect-game/src/services/backend/syncService.ts:412-455 | the selection is at most as long as the queue |
| Sync.PickedKeeps | dialect-game/src/services/backend/syncService.ts:412-455 | the selection is a sub-list of the queue in queue order, each item the sync type's filter accepts appearing as often as it is queued and no other |
| Sync.PickedIff | dialect-game/src/services/backend/syncService.ts:412-455 | an item is selected exactly when it is queued and matches the sync type's filter |
| Sync.PickedAll | dialect-game/src/services/backend/syncService.ts:416-419 | a full sync selects the whole queue |
| Sync.PrepareItems | dialect-game/src/services/backend/syncService.ts:412-455 | FORCE_PUSH gives PENDING copies of every item, FORCE_PULL gives nothing, the other types give the filtered queue items |
| Sync.PrepareItemsFacts | dialect-game/src/services/backend/syncService.ts:415-435 | FULL selects the queue; INCREMENTAL exactly the PENDING or ERROR items; CONFLICT_RESOLUTION exactly the CONFLICT items whose conflict has resolvedAt |
| Sync.WriteBack | dialect-game/src/services/backend/syncService.ts:469-504 | writing the processed items back keeps the queue length |
| Sync.WriteBackKeeps | dialect-game/src/services/backend/syncService.ts:469-504 | queue items that were not selected are unchanged |
| Sync.WriteBackIdentity | dialect-game/src/services/backend/syncService.ts:469-504 | writing back unprocessed items changes nothing |
| Sync.AsWrittenNeverFails | dialect-game/src/services/backend/syncService.ts:474-504 | the branch order as written: a draw never yields an error, and a conflict exactly below 0.1 |
| Sync.Classify | dialect-game/src/services/backend/syncService.ts:474-504 | the intended split: conflict below 0.1, error in [0.1, 0.15), success from 0.15 |
| Sync.ClassifyReachesEveryOutcome | dialect-game/src/services/backend/syncService.ts:486 | every outcome is reachable in the intended split, while the draw 0.12 succeeds as written |
| Sync.ServerCopy | dialect-game/src/services/backend/syncService.ts:478 | the simulated server version is the client data with serverModified set to true |
| Sync.SyncOne | dialect-game/src/services/backend/syncService.ts:469-504 | an item keeps its id, data and version and is SYNCED, CONFLICT (with a conflict detected now) or ERROR (one retry more) exactly as the draw says |
| Sync.SyncedOf | dialect-game/src/services/backend/syncService.ts:503 | the synced list is at most the processed items |
| Sync.ConflictsOf | dialect-game/src/services/backend/syncService.ts:485 | the conflict list is at most the processed items |
| Sync.ErrorsOf | dialect-game/src/services/backend/syncService.ts:498 | the error list is at most the processed items |
| Sync.OutcomesAppend | dialect-game/src/services/backend/syncService.ts:153-174 | the three outcome lists of two batches are the concatenations of each batch's lists |
| Sync.OutcomesStep | dialect-game/src/services/backend/syncService.ts:469-504 | one more item adds itself to exactly the list its status names |
| Sync.OutcomesPartition | dialect-game/src/services/backend/syncService.ts:469-504 | every processed item goes to exactly one of the synced, conflict and error lists |
| Sync.ProcessAll | dialect-game/src/services/backend/syncService.ts:469-504 | one processed item per item |
| Sync.ProcessAllAt | dialect-game/src/services/backend/syncService.ts:469-504 | the k-th processed item is the k-th item processed with the k-th draw |
| Sync.ProcessAllStep | dialect-game/src/services/backend/syncService.ts:469 | processing one more item appends its result |
| Sync.SyncBatch | dialect-game/src/services/backend/syncService.ts:457-518 | the batch loop processes every item in order and collects the synced items, conflicts and errors |
| Sync.SmartMerge | dialect-game/src/services/backend/syncService.ts:386-408 | a merge exists exactly when both sides are objects (null counts as one on the client side) |
| Sync.SmartMergeFields | dialect-game/src/services/backend/syncService.ts:389-400 | the merged object has the union of keys; client values override server values except id, createdAt and permissions, which the server keeps when it has them |
| Sync.AutoResolution | dialect-game/src/services/backend/syncService.ts:333-384 | CLIENT_WINS and SERVER_WINS pick that side, LAST_MODIFIED_WINS the newer side, MERGE_SMART the merge when there is one, MANUAL_RESOLUTION nothing; a resolution is by the system at now |
| Sync.LastModifiedTieGoesToServer | dialect-game/src/services/backend/syncService.ts:355-361 | with equal modification times the server version wins |
| Sync.CleanupOld | dialect-game/src/services/backend/syncService.ts:575-582 | cleanup never adds conflicts |
| Sync.CleanupOldIff | dialect-game/src/services/backend/syncService.ts:575-582 | a conflict is kept exactly when it is newer than the cutoff or not resolved |
| Sync.ConflictIds | dialect-game/src/services/backend/syncService.ts:267 | one id per conflict |
| Sync.ConflictIdsAt | dialect-game/src/services/backend/syncService.ts:267 | a conflict's id is its detection time written in decimal |
| Sync.FindKey | dialect-game/src/services/backend/syncService.ts:267 | findIndex on ids: the first match, or none when no id matches |
| Sync.FindConflict | dialect-game/src/services/backend/syncService.ts:267 | a found conflict index is within the list |
| Sync.FindConflictFacts | dialect-game/src/services/backend/syncService.ts:267 | the index found is the first conflict whose detection time prints as the id, or none when none does |
| Sync.FindConflictedItem | dialect-game/src/services/backend/syncService.ts:280-282 | the found queue item carries the conflict, or no item does |
| Sync.FindItem | dialect-game/src/services/backend/syncService.ts:234 | the found queue item has the id, or no item has it |
| Sync.FinalStatus | dialect-game/src/services/backend/syncService.ts:182-188 | SUCCESS exactly without errors; CONFLICT with errors and conflicts; ERROR with errors only |
| Sync.NextAverage | dialect-game/src/services/backend/syncService.ts:550-555 | the first duration becomes the average; later ones are averaged with it, staying within the larger of the two |
| Sync.NewItem | dialect-game/src/services/backend/syncService.ts:222-239 | a PENDING item with no retries, stamped now, whose version is 1 for a new id and the old version + 1 for a queued id |
| Sync.Enqueue | dialect-game/src/services/backend/syncService.ts:233-243 | the queue either keeps its length or gets the item appended |
| Sync.EnqueueFacts | dialect-game/src/services/backend/syncService.ts:233-243 | the item is found under its id afterwards; the queue grows exactly for a new id; items with other ids are unchanged |
| Sync.FindItemAt | dialect-game/src/services/backend/syncService.ts:234 | the first index with the id is what the lookup returns |
| Sync.FindItemFirst | dialect-game/src/services/backend/syncService.ts:234 | no earlier item has the id |
| Sync.ResolveItem | dialect-game/src/services/backend/syncService.ts:280-288 | resolving keeps the queue length |
| Sync.ResolveItemFacts | dialect-game/src/services/backend/syncService.ts:280-288 | the item carrying the conflict becomes PENDING with the resolved data and no conflict, and every other item is unchanged |
| Sync.RemoveAt | dialect-game/src/services/backend/syncService.ts:291 | splice(i, 1): the element at i is dropped and the rest keep their order |
| Sync.Finished | dialect-game/src/services/backend/syncService.ts:540-565 | the counters are recounted, the status is set, lastSync and nextSync follow the interval, and the average sync time is updated |
| Sync.RunBatches | dialect-game/src/services/backend/syncService.ts:153-174 | processing in batches of batchSize gives the same items and lists as processing everything in order |
| Sync.ProcessAllExtend | dialect-game/src/services/backend/syncService.ts:153-154 | processing a prefix in two parts equals processing it at once |
| Sync.ProcessAllSplit | dialect-game/src/services/backend/syncService.ts:153-154 | processing the items in two parts equals processing them at once |
| Sync.SyncService.constructor | dialect-game/src/services/backend/syncService.ts:48-71 | default configuration, empty queue, no conflicts, initial state |
| Sync.SyncService.QueueForSync | dialect-game/src/services/backend/syncService.ts:217-256 | the new item replaces a queued item with its id in place (version + 1) or is appended with version 1, and the counters are recounted |
| Sync.SyncService.ResolveConflict | dialect-game/src/services/backend/syncService.ts:263-307 | 'Conflit introuvable' for an unknown id without change; otherwise the conflict is removed, its queue item becomes PENDING with the resolved data, and counters are recounted |
| Sync.SyncService.StartSync | dialect-game/src/services/backend/syncService.ts:127-212 | refused when disabled or already syncing; nothing to sync gives SUCCESS; otherwise items are processed, written back, new conflicts added and old ones cleaned, and the status follows errors and conflicts |
| Customization.Patched | dialect-game/src/services/customization/customizationService.ts:1485-1489 | a spread of a partial theme: each given field overrides, the others are kept |
| Customization.PatchedNothing | dialect-game/src/services/customization/customizationService.ts:1485-1489 | an empty patch leaves a theme unchanged |
| Customization.PatchedIdempotent | dialect-game/src/services/customization/customizationService.ts:1485-1489 | applying the same patch twice is applying it once |
| Customization.DefaultThemes | dialect-game/src/services/customization/customizationService.ts:133-149 | four built-in themes, none of them CUSTOM, the first being 'light' |
| Customization.Register | dialect-game/src/services/customization/customizationService.ts:133-149 | registering keeps every known theme and adds every default under its id |
| Customization.RegisterKeyedById | dialect-game/src/services/customization/customizationService.ts:133-149 | the registry stays keyed by theme id |
| Customization.CustomTheme | dialect-game/src/services/customization/customizationService.ts:1072-1082 | the new theme has id custom_<now>, the name, type CUSTOM, author 'User', not built-in, stamped now, and the base's look, unless the customizations (spread last) override any of these |
| Customization.UnitVolume | dialect-game/src/services/customization/customizationService.ts:1197 | clamp(v, 0, 1): in range, unchanged inside, 0 below, 1 above |
| Customization.UnitVolumeMonotone | dialect-game/src/services/customization/customizationService.ts:1197 | clamping preserves order |
| Customization.AccuracyTerm | dialect-game/src/services/customization/customizationService.ts:1308-1312 | below accuracyTooLow the accuracy factor is subtracted, above accuracyTooHigh added, and in between nothing |
| Customization.SpeedTerm | dialect-game/src/services/customization/customizationService.ts:1315-1319 | slower than speedTooSlow subtracts the speed factor, faster than speedTooFast adds it, in between nothing |
| Customization.StreakTerm | dialect-game/src/services/customization/customizationService.ts:1321-1325 | the streak term applies only when the distance from the target passes the tolerance, proportional to the relative gap |
| Customization.DifficultyAdjustment | dialect-game/src/services/customization/customizationService.ts:1298-1328 | the adjustment lies in [-0.2, 0.2], and is 0 without a configuration or in DISABLED mode |
| Customization.AdjustmentMonotoneInAccuracy | dialect-game/src/services/customization/customizationService.ts:1308-1312 | better accuracy never lowers the adjustment |
| Customization.AdjustmentZeroInsideBands | dialect-game/src/services/customization/customizationService.ts:1298-1328 | performance inside every band gives no adjustment |
| Customization.DefaultAdjustments | dialect-game/src/services/customization/customizationService.ts:1216-1255 | with the default configuration: poor accuracy gives -0.2, very high accuracy +0.2, a long streak +0.08 |
| Customization.UpdatedPreferences | dialect-game/src/services/customization/customizationService.ts:1384-1396 | each given preference overrides, the others are kept, and lastUpdated becomes now |
| Customization.OpenedEditor | dialect-game/src/services/customization/customizationService.ts:1448-1469 | a fresh editor on the base theme, unchanged, with empty history and index -1 |
| Customization.EditedEditor | dialect-game/src/services/customization/customizationService.ts:1474-1497 | the previous theme is pushed as a snapshot, the changes are applied with updatedAt now, hasChanges is set and historyIndex points at the newest snapshot |
| Customization.EditKeepsUndo | dialect-game/src/services/customization/customizationService.ts:1474-1497 | an edit keeps the earlier history, adds one snapshot holding the previous theme, and keeps the index at the newest |
| Customization.CustomizationService.constructor | dialect-game/src/services/customization/customizationService.ts:33-45 | the default themes are registered, 'light' is current, and the default audio, adaptive and preference settings are installed |
| Customization.CustomizationService.SetTheme | dialect-game/src/services/customization/customizationService.ts:1007-1016 | an unknown id fails with 'Thème introuvable' and changes nothing; otherwise that theme becomes current |
| Customization.CustomizationService.CreateCustomTheme | dialect-game/src/services/customization/customizationService.ts:1062-1088 | an unknown base fails and changes nothing; otherwise the custom theme is built and registered under its id |
| Customization.CustomizationService.UpdateSoundVolume | dialect-game/src/services/customization/customizationService.ts:1194-1199 | nothing without an audio configuration; otherwise the sound's volume becomes the clamped value |
| Customization.CustomizationService.UpdateMasterVolume | dialect-game/src/services/customization/customizationService.ts:1204-1209 | nothing without an audio configuration; otherwise the master volume becomes the clamped value |
| Customization.CustomizationService.CalculateDifficultyAdjustment | dialect-game/src/services/customization/customizationService.ts:1298-1328 | the adjustment for the service's configuration lies in [-0.2, 0.2] |
| Customization.CustomizationService.UpdateLearningPreferences | dialect-game/src/services/customization/customizationService.ts:1384-1396 | the preferences (the defaults when none exist) get the updates and lastUpdated now |
| Customization.CustomizationService.OpenThemeEditor | dialect-game/src/services/customization/customizationService.ts:1448-1469 | the editor opens on the named theme when it exists, else on the current theme |
| Customization.CustomizationService.UpdateThemeInEditor | dialect-game/src/services/customization/customizationService.ts:1474-1497 | nothing without an editor; otherwise the editor takes the edit step |
| Customization.CustomizationService.SaveThemeFromEditor | dialect-game/src/services/customization/customizationService.ts:1503-1516 | 'Aucun éditeur de thème ouvert' without an editor; otherwise the edited theme is stored under its id, hasChanges is cleared and it becomes the original |
| Engine.WithPatch | dialect-game/src/core/GameEngine.ts:47-56 | a spread of a partial configuration: each given field overrides the current one, the others are kept |
| Engine.WithPatchNothing | dialect-game/src/core/GameEngine.ts:47-56 | an empty patch leaves the configuration unchanged |
| Engine.Bounce | dialect-game/src/core/GameEngine.ts:315-330 | on one axis: an object that fits inside the canvas ends inside [0, limit - size]; an object already inside is untouched; one that left through either wall is placed against it and its velocity component is negated |
| Engine.Moved | dialect-game/src/core/GameEngine.ts:306-331 | an update keeps an object's id, activity, type and size, and leaves an inactive object alone |
| Engine.MovedInBounds | dialect-game/src/core/GameEngine.ts:306-331 | after an update, an active object that fits in the canvas lies in [0, canvas - size] on both axes |
| Engine.MovedStill | dialect-game/src/core/GameEngine.ts:306-331 | with no time elapsed, an object inside the canvas keeps its position and velocity |
| Engine.MovedAll | dialect-game/src/core/GameEngine.ts:306-331 | the update visits every object in order and keeps their number |
| Engine.ActiveOnly | dialect-game/src/core/GameEngine.ts:393 | filtering never adds objects |
| Engine.ActiveOnlyIff | dialect-game/src/core/GameEngine.ts:393 | an object survives the filter exactly when it was present and active |
| Engine.ActiveOnlyAllActive | dialect-game/src/core/GameEngine.ts:393 | a list of active objects passes the filter unchanged |
| Engine.FindObject | dialect-game/src/core/GameEngine.ts:207 | the index found is that of the first object with the id; none means no object has it |
| Engine.GameEngine.constructor | dialect-game/src/core/GameEngine.ts:22-56 | a new engine is in state menu with no objects, its configuration the defaults overridden by the given fields, and not yet initialised |
| Engine.GameEngine.SetState | dialect-game/src/core/GameEngine.ts:477-488 | the state becomes the new one; the change is logged (callbacks fired) only when the state actually differs; nothing else changes |
| Engine.GameEngine.Initialize | dialect-game/src/core/GameEngine.ts:119-147 | no canvas fails with 'Invalid canvas element', a canvas without a 2D context with 'Failed to get 2D rendering context', both without change; otherwise the configuration is patched, the engine is initialized and the frame and FPS clocks are reset to now, while state, objects, both logs, the flags, deltaTime, fps and the frame count stay |
| Engine.GameEngine.Start | dialect-game/src/core/GameEngine.ts:149-159 | a running engine is left alone; otherwise it enters playing (logged once), running and not paused, and runs one frame with a zero step: objects are moved by 0 and swept, the cleanup event with the number removed is logged when any were, the frame clock is now, deltaTime 0, and the FPS counters follow FpsAfter; config and initialized stay |
| Engine.GameEngine.Stop | dialect-game/src/core/GameEngine.ts:161-171 | the engine is no longer running or paused and is in menu, logged only if it was elsewhere |
| Engine.GameEngine.Pause | dialect-game/src/core/GameEngine.ts:173-178 | only from playing, to paused (logged); otherwise nothing changes; objects, config, the event log, initialized and all clocks and counters stay |
| Engine.GameEngine.Resume | dialect-game/src/core/GameEngine.ts:180-187 | only from paused, back to playing (logged) with one frame run at a zero step: objects moved by 0 and swept, the cleanup event logged when any were removed, frame clock now, deltaTime 0, FPS counters per FpsAfter; otherwise nothing changes; config and initialized stay |
| Engine.GameEngine.AddObject | dialect-game/src/core/GameEngine.ts:189-201 | at maxObjects the object is silently rejected; otherwise it is appended and object_spawn is emitted, so the count never exceeds maxObjects; state, config, the state log, the flags, initialized and all clocks and counters stay |
| Engine.GameEngine.RemoveObject | dialect-game/src/core/GameEngine.ts:203-221 | the first object with the id is removed and object_destroy emitted; an absent id changes nothing; state, config, the state log, the flags, initialized and all clocks and counters stay |
| Engine.GameEngine.GetObject | dialect-game/src/core/GameEngine.ts:223-225 | Array.find: the object returned is the first one with that id; none means no object has it |
| Engine.GameEngine.UpdateObjects | dialect-game/src/core/GameEngine.ts:300-340 | every object becomes its moved and bounced version; nothing else changes |
| Engine.GameEngine.RemoveInactiveObjects | dialect-game/src/core/GameEngine.ts:391-401 | the list keeps exactly the active objects, and a cleanup event with the number removed is emitted only when some were |
| Engine.GameEngine.Frame | dialect-game/src/core/GameEngine.ts:260-298 | a stopped or paused engine does nothing; otherwise deltaTime is now minus the last frame time and the frame clock becomes now, objects are moved by that step and the inactive ones dropped, the cleanup event with the number removed is logged only when some were, and the FPS counters follow FpsAfter (the count becomes the rate once a second has passed); state, config, the state log, the flags and initialized stay |
| Engine.GameEngine.Dispose | dialect-game/src/core/GameEngine.ts:235-258 | the engine is stopped as by stop (not running, not paused, in menu) and emptied of objects; configuration, event log and frame clocks stay |
| Engine.StateSequence | dialect-game/src/core/GameEngine.ts:477-488 | start, pause, resume, stop emits exactly playing, paused, playing, menu |
| Engine.StartTwice | dialect-game/src/core/GameEngine.ts:149-159 | a second start emits nothing more |
| Engine.TableLimit | dialect-game/src/core/GameEngine.ts:189-201 | with maxObjects 2 the third object is rejected |
| PerfMonitor.HeapOf | dialect-game/src/services/performance/PerformanceMonitor.ts:377-388 | the browser's heap reading when there is one, else zero used and zero total |
| PerfMonitor.RenderIssue | dialect-game/src/services/performance/PerformanceMonitor.ts:357-375 | a slow_render issue exactly when the render took over 100 ms, critical exactly above 1000 ms and medium otherwise, carrying the component, duration and time |
| PerfMonitor.WithRenderIssue | dialect-game/src/services/performance/PerformanceMonitor.ts:357-375 | the issue list grows by one exactly for a slow render, keeping the earlier issues as a prefix |
| PerfMonitor.Penalty | dialect-game/src/services/performance/PerformanceMonitor.ts:226-239 | each severity costs between 5 and 30 points |
| PerfMonitor.PenaltiesAtLeast | dialect-game/src/services/performance/PerformanceMonitor.ts:225-240 | n issues cost between 5n and 30n points |
| PerfMonitor.PenaltiesSnoc | dialect-game/src/services/performance/PerformanceMonitor.ts:225-240 | one more issue adds exactly its severity's penalty |
| PerfMonitor.MemoryPenalty | dialect-game/src/services/performance/PerformanceMonitor.ts:243-248 | 25 points above 89% heap usage, 15 above 80%, none at or below 80%; an empty heap total (0/0 is NaN, x/0 is infinite) costs 25 exactly when something is used |
| PerfMonitor.UsageScaled | dialect-game/src/services/performance/PerformanceMonitor.ts:146 | comparing the usage ratio to a threshold is comparing used to threshold times total |
| PerfMonitor.PerformanceScore | dialect-game/src/services/performance/PerformanceMonitor.ts:221-251 | the score lies in [0,100]; it is 100 exactly with no issue and no memory penalty, 0 exactly when the penalties reach 100, and otherwise 100 minus the penalties |
| PerfMonitor.ScoreWithIssue | dialect-game/src/services/performance/PerformanceMonitor.ts:221-251 | one more issue lowers the score by its penalty, floored at 0, and never raises it |
| PerfMonitor.MemoryPenaltyMonotone | dialect-game/src/services/performance/PerformanceMonitor.ts:243-248 | using more of the same heap never lowers the memory penalty |
| PerfMonitor.BundleWarning | dialect-game/src/services/performance/PerformanceMonitor.ts:172-184 | a bundle_size_exceeded warning exactly when the bundle is over 500000 bytes, carrying the size and the limit |
| PerfMonitor.StackOrDefault | dialect-game/src/services/performance/PerformanceMonitor.ts:261 | a missing or empty stack becomes 'No stack trace available'; a given one is kept |
| PerfMonitor.ErrorIssue | dialect-game/src/services/performance/PerformanceMonitor.ts:265-271 | an error is recorded as a high-severity error_rate issue of the component, without duration |
| PerfMonitor.ErrorLowersScore | dialect-game/src/services/performance/PerformanceMonitor.ts:256-272 | tracking an error costs 20 points of score, floored at 0 |
| PerfMonitor.IssueComponents | dialect-game/src/services/performance/PerformanceMonitor.ts:291 | the component of every issue, in order |
| PerfMonitor.ErrorComponents | dialect-game/src/services/performance/PerformanceMonitor.ts:286-287 | the component of every error, in order |
| PerfMonitor.Level | dialect-game/src/services/performance/PerformanceMonitor.ts:294-299 | high when the component has both an issue and an error, medium when it has one of them, low when neither |
| PerfMonitor.CorrelationOf | dialect-game/src/services/performance/PerformanceMonitor.ts:291-306 | the correlation says whether some issue and some error concern the component, and grades it high, medium or low accordingly |
| PerfMonitor.ReportedComponents | dialect-game/src/services/performance/PerformanceMonitor.ts:285-288 | the reported components are exactly those measured or with an error |
| PerfMonitor.ReportedComponentsDistinct | dialect-game/src/services/performance/PerformanceMonitor.ts:285-288 | a Set: each component is reported once |
| PerfMonitor.KeepIssues | dialect-game/src/services/performance/PerformanceMonitor.ts:410-412 | cleanup never adds issues |
| PerfMonitor.KeepWarnings | dialect-game/src/services/performance/PerformanceMonitor.ts:415 | cleanup never adds warnings |
| PerfMonitor.KeepErrors | dialect-game/src/services/performance/PerformanceMonitor.ts:418 | cleanup never adds errors |
| PerfMonitor.KeepIssuesIff | dialect-game/src/services/performance/PerformanceMonitor.ts:410-412 | an issue survives cleanup exactly when it was present and is newer than the cutoff or has a zero (falsy) timestamp |
| PerfMonitor.KeepWarningsIff | dialect-game/src/services/performance/PerformanceMonitor.ts:415 | a warning survives exactly when it was present and newer than the cutoff |
| PerfMonitor.KeepErrorsIff | dialect-game/src/services/performance/PerformanceMonitor.ts:418 | an error survives exactly when it was present and newer than the cutoff |
| PerfMonitor.KeepIssuesIdempotent | dialect-game/src/services/performance/PerformanceMonitor.ts:410-412 | cleaning up twice with the same cutoff is cleaning up once |
| PerfMonitor.KeepIssuesAllNewer | dialect-game/src/services/performance/PerformanceMonitor.ts:410-412 | issues all newer than the cutoff are kept unchanged |
| PerfMonitor.PerformanceMonitor.constructor | dialect-game/src/services/performance/PerformanceMonitor.ts:74-80 | a new monitor has no metrics, bundles, issues, warnings, errors or active tracking |
| PerfMonitor.PerformanceMonitor.StartTracking | dialect-game/src/services/performance/PerformanceMonitor.ts:92-97 | the component's start time is set to the clock; nothing else changes |
| PerfMonitor.PerformanceMonitor.EndTracking | dialect-game/src/services/performance/PerformanceMonitor.ts:102-129 | without a (non-zero) start time nothing is recorded; otherwise the metrics store the render time and the used heap, the active entry is removed and a slow render is flagged as an issue |
| PerfMonitor.PerformanceMonitor.GetMetrics | dialect-game/src/services/performance/PerformanceMonitor.ts:134-136 | the metrics stored for the component, none when it was never measured |
| PerfMonitor.PerformanceMonitor.TrackBundleLoad | dialect-game/src/services/performance/PerformanceMonitor.ts:162-186 | the bundle's metrics are stored, and a warning is added exactly when it is over the size limit |
| PerfMonitor.PerformanceMonitor.TrackError | dialect-game/src/services/performance/PerformanceMonitor.ts:256-272 | the error is appended with its stack or the default text, and a high error_rate issue with it |
| PerfMonitor.PerformanceMonitor.GetPerformanceScore | dialect-game/src/services/performance/PerformanceMonitor.ts:221-251 | the loop's running score is the score function of the issues and the heap reading |
| PerfMonitor.PerformanceMonitor.GetPerformanceErrorCorrelations | dialect-game/src/services/performance/PerformanceMonitor.ts:283-311 | one correlation per reported component, in the Set's insertion order, each graded by CorrelationOf |
| PerfMonitor.PerformanceMonitor.Cleanup | dialect-game/src/services/performance/PerformanceMonitor.ts:406-420 | issues, warnings and errors keep exactly the entries newer than now - maxAge, with maxAge 300000 ms when omitted (issues also the zero-stamped ones); nothing else changes |
| PerfMonitor.SlowRenderScenario | dialect-game/src/services/performance/PerformanceMonitor.ts:357-375 | a 1500 ms render gives one critical issue and a score of 70 |
| PerfUtils.Keys | dialect-game/src/utils/performance.ts:342 | the keys in the Map's insertion order |
| PerfUtils.IndexOf | dialect-game/src/utils/performance.ts:298 | the position of the entry under the key, the first one; none means no entry has it |
| PerfUtils.Put | dialect-game/src/utils/performance.ts:290-294 | Map.set: an existing key's entry is overwritten in place and every other position keeps its entry; a new key's entry is appended, the rest unchanged |
| PerfUtils.RemoveAt | dialect-game/src/utils/performance.ts:305 | Map.delete removes exactly one entry |
| PerfUtils.RemoveAtIndex | dialect-game/src/utils/performance.ts:305 | deletion keeps the order of the remaining entries |
| PerfUtils.DropExpired | dialect-game/src/utils/performance.ts:316-323 | dropping expired entries never adds any |
| PerfUtils.OldestIndex | dialect-game/src/utils/performance.ts:327-328 | the position of an entry of the cache |
| PerfUtils.OldestIndexFacts | dialect-game/src/utils/performance.ts:327-328 | the entry chosen is the oldest, and the first of the oldest (the sort is stable) |
| PerfUtils.RemoveOldest | dialect-game/src/utils/performance.ts:327-331 | removing the k oldest entries leaves max(0, size - k) |
| PerfUtils.EvictionCount | dialect-game/src/utils/performance.ts:330 | Math.floor(maxSize * 0.3) entries, at most all of them, are evicted |
| PerfUtils.Cleaned | dialect-game/src/utils/performance.ts:311-333 | cleanup never adds entries |
| PerfUtils.Lookup | dialect-game/src/utils/performance.ts:297-309 | a value exactly when an entry under the key exists and is not expired (now - timestamp > ttl), and then its data |
| PerfUtils.DropExpiredFacts | dialect-game/src/utils/performance.ts:316-323 | after the sweep no expired entry is left, and a cache without expired entries is untouched |
| PerfUtils.RemoveOldestTakesOldest | dialect-game/src/utils/performance.ts:327-331 | every entry evicted is at least as old as every entry kept |
| PerfUtils.RemoveOldestStep | dialect-game/src/utils/performance.ts:327-331 | evicting k is evicting the oldest, then k - 1 more |
| PerfUtils.OldestIsOldest | dialect-game/src/utils/performance.ts:327-328 | no entry is older than the one chosen |
| PerfUtils.RemoveAtKeeps | dialect-game/src/utils/performance.ts:305 | deletion brings in no new entry |
| PerfUtils.RemoveAtKeepsOthers | dialect-game/src/utils/performance.ts:305 | deletion keeps every other entry |
| PerfUtils.RemoveOldestKept | dialect-game/src/utils/performance.ts:327-331 | eviction brings in no new entry |
| PerfUtils.PutUnique | dialect-game/src/utils/performance.ts:290-294 | setting keeps one entry per key |
| PerfUtils.RemoveAtUnique | dialect-game/src/utils/performance.ts:305 | deleting keeps one entry per key |
| PerfUtils.DropExpiredUnique | dialect-game/src/utils/performance.ts:316-323 | the sweep keeps one entry per key and only original entries |
| PerfUtils.RemoveOldestUnique | dialect-game/src/utils/performance.ts:327-331 | eviction keeps one entry per key |
| PerfUtils.CleanedUnique | dialect-game/src/utils/performance.ts:311-333 | cleanup keeps one entry per key |
| PerfUtils.StoredUnique | dialect-game/src/utils/performance.ts:284-295 | set keeps one entry per key |
| PerfUtils.AfterLookupUnique | dialect-game/src/utils/performance.ts:297-309 | get keeps one entry per key |
| PerfUtils.ExpiredLookupForgets | dialect-game/src/utils/performance.ts:303-306 | a get that finds the entry expired deletes it, so a second get misses too |
| PerfUtils.StoredThenFound | dialect-game/src/utils/performance.ts:284-309 | a get at the time of the set finds the value just stored when its ttl is not negative, and misses when it is |
| PerfUtils.PutFound | dialect-game/src/utils/performance.ts:290-294 | after Map.set the key holds exactly the new entry |
| PerfUtils.IndexOfFirst | dialect-game/src/utils/performance.ts:298 | the lookup finds the first entry with the key |
| PerfUtils.StoredWithinCapacity | dialect-game/src/utils/performance.ts:284-295 | from a capacity of 4 on, a cache within its capacity stays within it after a set |
| PerfUtils.SmallCapacityOverflows | dialect-game/src/utils/performance.ts:326-331 | with a capacity of 3, 30% rounds down to nothing evicted, so a full cache of live entries grows to 4 |
| PerfUtils.PerformanceCache.constructor | dialect-game/src/utils/performance.ts:280-282 | a new cache is empty, with the given capacity or 100 when none is given |
| PerfUtils.PerformanceCache.Set | dialect-game/src/utils/performance.ts:284-295 | the entries become those of Stored: cleaned up when full, then the key stamped now with the given ttl or 300000 ms |
| PerfUtils.PerformanceCache.Get | dialect-game/src/utils/performance.ts:297-309 | returns Lookup's answer, and deletes the entry when it found it expired |
| PerfUtils.PerformanceCache.Cleanup | dialect-game/src/utils/performance.ts:311-333 | the loops leave exactly the entries of Cleaned: the live ones, minus the oldest 30% of the capacity when still full |
| PerfUtils.PerformanceCache.Clear | dialect-game/src/utils/performance.ts:335-337 | the cache becomes empty |
| PerfUtils.PerformanceCache.Stats | dialect-game/src/utils/performance.ts:339-345 | the size, the capacity and the keys in insertion order |
| PerfUtils.MeasurePerformance | dialect-game/src/utils/performance.ts:125-149 | the function's result or error passes through unchanged, and the elapsed time, rounded, is logged with the timer mark or, after a throw, with the error mark and '(error)' |
| PerfUtils.MeasureLogsOutcome | dialect-game/src/utils/performance.ts:140-146 | a success and a failure never log the same line |
| PerfUtils.ConnectionSpeed | dialect-game/src/utils/performance.ts:384-401 | no connection information reads as medium; slow-2g and 2g are slow, 3g medium, anything else fast |
| PerfUtils.OptimalImageQuality | dialect-game/src/utils/performance.ts:384-414 | low quality on a 2G connection, medium on 3G or without information, high otherwise |
| PerfUtils.ImageQualityFollowsSpeed | dialect-game/src/utils/performance.ts:407-414 | a faster connection never gets a lower quality, and different speeds get different qualities |
| AdvancedCache.Base64Size | dialect-game/src/utils/advancedCaching.ts:326-329 | the Base64 "compression" yields a multiple of 4 bytes, larger than any non-empty input |
| AdvancedCache.NewEntry | dialect-game/src/utils/advancedCaching.ts:51-72 | an entry is compressed exactly when compression was asked for and the value is over 1024 bytes; it holds the value, time and ttl with no hits, and its size is the Base64 size, then larger than the original, or else the original size |
| AdvancedCache.CompressedSizes | dialect-game/src/utils/advancedCaching.ts:372-380 | the compressed entries never weigh more than all entries |
| AdvancedCache.CompressionRatio | dialect-game/src/utils/advancedCaching.ts:374-382 | the estimate (1.5c - c) / 1.5c is always one third when something is compressed, else 0 |
| AdvancedCache.Refreshed | dialect-game/src/utils/advancedCaching.ts:367-383 | updateStats sets the entry count and total size from the memory level and the compression ratio from the compressed entries, keeping hit rate and evictions |
| AdvancedCache.HitRate | dialect-game/src/utils/advancedCaching.ts:206-211 | hits / (hits + misses), 0 when there was no lookup (NaN is falsy): in [0,1], 1 exactly when there were hits and no miss, 0 exactly when there were no hits |
| AdvancedCache.LeastUsedIndex | dialect-game/src/utils/advancedCaching.ts:350-360 | a candidate exactly when the memory level is not empty, at a position of it |
| AdvancedCache.LeastUsedIndexFacts | dialect-game/src/utils/advancedCaching.ts:354-359 | the candidate has the fewest hits, and is the first such entry in insertion order (the comparison is strict) |
| AdvancedCache.EvictionVictim | dialect-game/src/utils/advancedCaching.ts:350-365 | a victim is a stored, non-empty key (an empty key is falsy and spares the entry); a non-empty least-used key is always evicted |
| AdvancedCache.EvictionVictimLeastUsed | dialect-game/src/utils/advancedCaching.ts:350-365 | the victim has no more hits than any other entry and is the first one with that few |
| AdvancedCache.Unexpired | dialect-game/src/utils/advancedCaching.ts:220-226 | the sweep never adds keys |
| AdvancedCache.Pruned | dialect-game/src/utils/advancedCaching.ts:220-226 | the memory level keeps exactly its unexpired entries, unchanged |
| AdvancedCache.UnexpiredFacts | dialect-game/src/utils/advancedCaching.ts:220-226 | the keys kept are distinct and are exactly the unexpired ones |
| AdvancedCache.CleanupKeepsOrder | dialect-game/src/utils/advancedCaching.ts:216-229 | cleanup keeps the insertion order of the remaining keys, and the entries removed are the keys dropped |
| AdvancedCache.AdmissionVictim | dialect-game/src/utils/advancedCaching.ts:234-241 | nothing is evicted while the new entry fits in the 50 MB budget |
| AdvancedCache.AdmittedMemory | dialect-game/src/utils/advancedCaching.ts:234-241 | after setMemoryCache the key holds the new entry; without eviction nothing else changes |
| AdvancedCache.AdmittedSize | dialect-game/src/utils/advancedCaching.ts:234-241 | a set adds at most one entry, exactly one for a new key without eviction, and none for an existing key with an eviction |
| AdvancedCache.CacheManager.constructor | dialect-game/src/utils/advancedCaching.ts:34-46 | a new cache manager has no entries, zero statistics, hits and misses |
| AdvancedCache.CacheManager.GetMemoryCacheSize | dialect-game/src/utils/advancedCaching.ts:342-348 | the loop sums the sizes of all memory entries |
| AdvancedCache.CacheManager.CompressionTotals | dialect-game/src/utils/advancedCaching.ts:372-380 | the loop totals the compressed entries' sizes, and estimates the originals at 1.5 times that |
| AdvancedCache.CacheManager.UpdateStats | dialect-game/src/utils/advancedCaching.ts:367-383 | the statistics become Refreshed's; the entries, hits and misses are unchanged |
| AdvancedCache.CacheManager.FindLeastUsed | dialect-game/src/utils/advancedCaching.ts:350-360 | the loop finds LeastUsedIndex's candidate |
| AdvancedCache.CacheManager.EvictLeastUsed | dialect-game/src/utils/advancedCaching.ts:350-365 | the victim, when there is one, is deleted and counted as an eviction; otherwise nothing changes |
| AdvancedCache.CacheManager.SetMemoryCache | dialect-game/src/utils/advancedCaching.ts:234-241 | the memory level becomes AdmittedMemory's, and an eviction is counted exactly when one happened |
| AdvancedCache.CacheManager.Set | dialect-game/src/utils/advancedCaching.ts:51-91 | at the memory level the new entry is admitted; the statistics are refreshed afterwards at every level |
| AdvancedCache.CacheManager.Delete | dialect-game/src/utils/advancedCaching.ts:131-161 | the key is gone from the memory level and the statistics are refreshed; the IndexedDB delete makes the result true |
| AdvancedCache.CacheManager.Get | dialect-game/src/utils/advancedCaching.ts:96-126 | a missing key is a miss; an expired one is a miss and is deleted; a live one is a hit, returns its value and counts one more hit on the entry |
| AdvancedCache.CacheManager.ScanExpired | dialect-game/src/utils/advancedCaching.ts:220-226 | the loop keeps the unexpired keys, and counts the others |
| AdvancedCache.CacheManager.Cleanup | dialect-game/src/utils/advancedCaching.ts:216-229 | the expired entries are removed and counted, the rest keep their order, and the statistics are refreshed |
| AdvancedCache.CacheManager.GetStats | dialect-game/src/utils/advancedCaching.ts:206-211 | the statistics with the current hit rate |
| AdvancedCache.CacheManager.ResetStats | dialect-game/src/utils/advancedCaching.ts:388-398 | hits, misses and every statistic are zero; the entries stay |
| AdvancedCache.CacheManager.Clear | dialect-game/src/utils/advancedCaching.ts:403-412 | the memory level is empty and the statistics say so, keeping evictions and hit counts |
| AdvancedCache.SetThenGet | dialect-game/src/utils/advancedCaching.ts:51-126 | a value set in memory is found by the next get, and the hit rate is then 1 |
| AdvancedCache.ResetForgetsEntries | dialect-game/src/utils/advancedCaching.ts:388-398 | resetStats zeroes the entry count although the entry is still held (the statistics lag until the next update) |
| AppReducer.InitialGameState | dialect-game/src/App.tsx:41-52 | the game opens on the menu with score 0, level 1, no attempts or streak, no error, and the stored high score |
| AppReducer.LevelFor | dialect-game/src/App.tsx:96 | Math.floor(score / 1000) + 1: the level is the 1000-point band the score lies in |
| AppReducer.Accuracy | dialect-game/src/App.tsx:108 | correct / total * 100 lies in [0, 100] while correct answers are at most the attempts |
| AppReducer.HighScoreWrite | dialect-game/src/App.tsx:69-73 | the high score is written to storage exactly on END_GAME with a score above the best, and the value written is the new high score |
| AppReducer.StartGameResets | dialect-game/src/App.tsx:56-67 | START_GAME moves to playing and zeroes score, accuracy, streak and attempts, at level 1 without error, keeping high score and loading flag |
| AppReducer.EndGameKeepsBest | dialect-game/src/App.tsx:69-79 | END_GAME moves to game_over with high score max(score, high score), changing nothing else |
| AppReducer.UpdateScoreLevels | dialect-game/src/App.tsx:94-102 | UPDATE_SCORE adds the points and sets the level to the score's band, changing nothing else |
| AppReducer.VoiceResultCounts | dialect-game/src/App.tsx:104-118 | VOICE_RESULT counts one attempt, one correct attempt exactly when correct, keeps accuracy = 100 * correct / total, and extends or resets the streak, changing nothing else |
| AppReducer.SmallActionsTouchOneField | dialect-game/src/App.tsx:81-133 | pause, resume, back to menu, reset streak, set or clear error and set loading change only their own fields; an unknown action returns the state as it was |
| AppReducer.ReducePreserves | dialect-game/src/App.tsx:54-135 | every action keeps attempts, streak, accuracy and level mutually consistent and never lowers the high score |
| AppReducer.ReduceAllPreserves | dialect-game/src/App.tsx:54-135 | so does any sequence of actions |
| AppReducer.InitialConsistent | dialect-game/src/App.tsx:41-52 | the initial state is consistent |
| AppReducer.VoicePoints | dialect-game/src/App.tsx:302-303 | a correct answer (confidence over 0.7) earns at least 70 points |
| AppReducer.VoiceActions | dialect-game/src/App.tsx:297-313 | no action for an interim or blank result; otherwise VOICE_RESULT, then UPDATE_SCORE with the points when the confidence is over 0.7 or RESET_STREAK |
| AppReducer.VoiceResultScores | dialect-game/src/App.tsx:297-313 | a counted answer adds one attempt; a correct one scores round(confidence * 100) and extends the streak; a wrong one leaves the score and correct count and zeroes the streak |
| AppReducer.WrongAnswerResetIsRedundant | dialect-game/src/App.tsx:309-311 | the RESET_STREAK after a wrong VOICE_RESULT changes nothing, since that result already zeroed the streak |
| GameApi.Rank | dialect-game/src/services/gameApiService.ts:313 | the three difficulties in order, easy lowest and hard highest |
| GameApi.LengthTerm | dialect-game/src/services/gameApiService.ts:317-319 | a word's length adds 1 to 3 points |
| GameApi.SynonymTerm | dialect-game/src/services/gameApiService.ts:322-323 | its synonym count adds 0 to 2 points |
| GameApi.DefinitionTerm | dialect-game/src/services/gameApiService.ts:326-327 | its definition length adds 0 to 2 points |
| GameApi.DifficultyScore | dialect-game/src/services/gameApiService.ts:309-328 | the difficulty score lies in [1, 7] |
| GameApi.WordDifficultyThresholds | dialect-game/src/services/gameApiService.ts:329-331 | easy exactly at a score of at most 2, medium at 3 or 4, hard from 5 |
| GameApi.EasyWords | dialect-game/src/services/gameApiService.ts:309-332 | a word is easy exactly when it is short with several synonyms and a definition over 50 characters, or short with a synonym and one over 100, or of middle length with several synonyms and one over 100 |
| GameApi.UnknownWordsAreHard | dialect-game/src/services/gameApiService.ts:322-331 | a word without synonyms and with a short definition is hard, whatever its length |
| GameApi.DifficultyMonotone | dialect-game/src/services/gameApiService.ts:309-332 | a longer word with fewer synonyms and a shorter definition is never easier |
| GameApi.DistractorPool | dialect-game/src/services/gameApiService.ts:344-352 | each language has eight common words, and an unknown language falls back to English |
| GameApi.PoolDistinct | dialect-game/src/services/gameApiService.ts:344-349 | no pool repeats a word |
| GameApi.SliceTo | dialect-game/src/services/gameApiService.ts:355 | Array.slice(0, end) keeps a prefix of min(end, length) items, counting a negative end from the back |
| GameApi.GenerateDistractors | dialect-game/src/services/gameApiService.ts:337-356 | at most count distractors |
| GameApi.DistractorsAreWrong | dialect-game/src/services/gameApiService.ts:337-356 | the distractors never include the lower-cased correct answer, come from the language's pool and are distinct |
| GameApi.DistractorsCount | dialect-game/src/services/gameApiService.ts:337-356 | up to seven distractors are always available |
| GameApi.UnknownLanguageIsEnglish | dialect-game/src/services/gameApiService.ts:351 | an unknown language gets the English distractors |
| GameApi.DefinitionDistractors | dialect-game/src/services/gameApiService.ts:360-368 | a prefix of the five fixed wrong definitions, count of them when count is at most 5 |
| GameApi.QuestionTypeAt | dialect-game/src/services/gameApiService.ts:230-234 | the type cycles translation, definition, synonym by index, never pronunciation |
| GameApi.HarderPaysMore | dialect-game/src/services/gameApiService.ts:239-285 | a harder word earns more points and gets more time (easy 5/20 s, medium 10/30 s, hard 20/45 s) |
| GameApi.DraftFacts | dialect-game/src/services/gameApiService.ts:232-300 | each question has the cycled type and the word; the correct answer is the definition, the first synonym or, in every fallback, the translation; it comes first among 1 to 4 options; points and time follow the difficulty |
| GameApi.AnswerOffered | dialect-game/src/services/gameApiService.ts:243-289 | every question offers its correct answer among at most 4 options |
| GameApi.TranslationOptions | dialect-game/src/services/gameApiService.ts:243-247 | a translation question offers the translation and the first three distractors |
| GameApi.QuestionIdsDiffer | dialect-game/src/services/gameApiService.ts:292 | questions at different indices have different ids |
| GameApi.QuestionTotal | dialect-game/src/services/gameApiService.ts:232 | min(questionCount, words) questions, none for a negative count |
| GameApi.AskedFacts | dialect-game/src/services/gameApiService.ts:232-300 | a question asked keeps every fact of its draft after the shuffle: type, word, answer among 1 to 4 options, points and time |
| GameApi.FourOptions | dialect-game/src/services/gameApiService.ts:243-247 | a translation question over three generated distractors offers exactly four options |
| GameApi.GenerateQuizQuestions | dialect-game/src/services/gameApiService.ts:228-303 | the loop produces min(questionCount, words) questions, the i-th asked about the i-th word |
| GameApi.SwapPartner | dialect-game/src/services/gameApiService.ts:376 | Math.floor(random * (i + 1)) picks an index in [0, i] |
| GameApi.ShuffleArray | dialect-game/src/services/gameApiService.ts:373-381 | the Fisher-Yates loop returns a permutation of its input |
| Assets.OrDefault | dialect-game/src/services/api/assetsApi.ts:181 | a JavaScript "or" default: a given non-zero value is used, a missing or zero one (falsy) gives the fallback |
| Assets.PlaceholderCollection | dialect-game/src/services/api/assetsApi.ts:205-211 | the placeholder page reports total 1000, 50 pages, the requested page (1 by default) and hasMore exactly below page 50 |
| Assets.Placeholders | dialect-game/src/services/api/assetsApi.ts:180-212 | as many images as the page size asks for, none for a negative one |
| Assets.GetPlaceholderImages | dialect-game/src/services/api/assetsApi.ts:180-212 | the loop builds image i of the page for every i below the page size |
| Assets.PlaceholderCount | dialect-game/src/services/api/assetsApi.ts:180-212 | 20 images by default or for a zero page size, else exactly perPage; always 1000 in total over 50 pages, with hasMore exactly below page 50 |
| Assets.PlaceholderSizes | dialect-game/src/services/api/assetsApi.ts:185-192 | portrait images are 400x600 and the others 600x400, and the thumbnail is the half-size picture with the same number |
| Assets.PlaceholderIdNumber | dialect-game/src/services/api/assetsApi.ts:188 | the id placeholder-n determines n |
| Assets.PlaceholderIdsDistinct | dialect-game/src/services/api/assetsApi.ts:185-188 | two images of one page never share an id |
| Assets.PagesDisjoint | dialect-game/src/services/api/assetsApi.ts:185-188 | with the same page size, images of different pages never share an id |
| Assets.PageOffsets | dialect-game/src/services/api/assetsApi.ts:185 | the first ids of two different pages are at least a page apart |
| Assets.OptimizedImage | dialect-game/src/services/api/assetsApi.ts:217-238 | an image exactly for a placeholder-... id, keeping the id, at the requested size, from the placeholder source; null for any other id |
| Assets.OptimizedKeepsPicture | dialect-game/src/services/api/assetsApi.ts:219-224 | optimising a placeholder keeps its picture number, at the target size with a thumbnail of half of it rounded down |
| Assets.OnlyPlaceholdersOptimize | dialect-game/src/services/api/assetsApi.ts:234-237 | Unsplash and Pexels ids get null |
| Assets.UnsplashCollection | dialect-game/src/services/api/assetsApi.ts:84-90 | the results and total as returned, with hasMore exactly when the page is below the page count |
| Assets.PexelsCollection | dialect-game/src/services/api/assetsApi.ts:135-141 | the photos and total as returned, with hasMore exactly when a page was returned and lies below ceil(total / perPage) |
| Assets.TryUnsplash | dialect-game/src/services/api/assetsApi.ts:54-95 | a cached answer is returned as it is; otherwise the search succeeds exactly on an ok response |
| Assets.TryPexels | dialect-game/src/services/api/assetsApi.ts:105-146 | a cached answer is returned as it is; otherwise the search succeeds exactly on an ok response |
| Assets.Stored | dialect-game/src/services/api/assetsApi.ts:92 | a successful search is cached under its key; a failed one leaves the cache alone |
| Assets.CachedSearchSkipsFetch | dialect-game/src/services/api/assetsApi.ts:55-59 | a cached search returns the cached collection whatever the network would have answered |
| Assets.RepeatedSearch | dialect-game/src/services/api/assetsApi.ts:55-98 | after a successful search the same search is answered from the cache with the same collection; a failed one caches nothing |
| Assets.AutoNeverAsksPexels | dialect-game/src/services/api/assetsApi.ts:156-175 | as written, with Unsplash offline and Pexels answering, auto mode still returns the placeholder page, because searchUnsplash catches its own error |
| Assets.AutoFallsBack | dialect-game/src/services/api/assetsApi.ts:164-173 | the intended auto mode: Unsplash when it answers, else Pexels when it answers, else placeholders |
| Assets.AssetsApiService.constructor | dialect-game/src/services/api/assetsApi.ts:48 | the search cache starts empty |
| Assets.AssetsApiService.SearchUnsplash | dialect-game/src/services/api/assetsApi.ts:54-100 | the answer is the cached collection, the fetched one, or on any failure the placeholders; a fetched collection is cached |
| Assets.AssetsApiService.SearchPexels | dialect-game/src/services/api/assetsApi.ts:105-151 | the same for Pexels |
| Assets.AssetsApiService.SearchImages | dialect-game/src/services/api/assetsApi.ts:156-175 | the preferred source's answer, or in auto mode Unsplash's when it succeeds and otherwise Pexels' (then placeholders); the cache gains the answer under the key of the source that gave it |
| Assets.AssetsApiService.Expire | dialect-game/src/services/api/assetsApi.ts:93 | the timer removes one cached search and nothing else |
| NavGuard.MissingPrereqs | dialect-game/src/components/NavigationGuard.tsx:148-150 | filtering the prerequisites never adds any |
| NavGuard.MissingPrereqsIff | dialect-game/src/components/NavigationGuard.tsx:148-150 | a prerequisite is missing exactly when it is not among the completed lessons |
| NavGuard.LessonsWithIds | dialect-game/src/components/NavigationGuard.tsx:153-155 | filtering the lessons never adds any |
| NavGuard.LessonsWithIdsIff | dialect-game/src/components/NavigationGuard.tsx:153-155 | a lesson is kept exactly when its id is listed |
| NavGuard.CompletedDifficulties | dialect-game/src/components/NavigationGuard.tsx:166-168 | one difficulty per completed lesson found among all lessons |
| NavGuard.CompletedDifficultiesIff | dialect-game/src/components/NavigationGuard.tsx:166-171 | a difficulty is present exactly when some completed lesson has it |
| NavGuard.OpenLessons | dialect-game/src/components/NavigationGuard.tsx:174-176 | filtering the lessons never adds any |
| NavGuard.OpenLessonsIff | dialect-game/src/components/NavigationGuard.tsx:174-176 | a lesson is recommended exactly when it has the level, is not locked and, where asked, not completed |
| NavGuard.MissingIff | dialect-game/src/components/NavigationGuard.tsx:148-152 | some prerequisite is missing exactly when the prerequisites are not met, and the missing ones are exactly the listed ones not completed |
| NavGuard.MissingPrerequisitesFirst | dialect-game/src/components/NavigationGuard.tsx:152-163 | missing prerequisites come first: missing_prerequisites with confidence 0.9, recommending exactly the missing lessons |
| NavGuard.AdvancedNeedsIntermediate | dialect-game/src/components/NavigationGuard.tsx:173-184 | an advanced target without a completed intermediate lesson gives difficulty_jump with confidence 0.8, recommending exactly the intermediate lessons that are not locked |
| NavGuard.IntermediateNeedsTwoLessons | dialect-game/src/components/NavigationGuard.tsx:186-197 | an intermediate target with fewer than two completed lessons gives optimal_path with confidence 0.7, recommending exactly the beginner lessons neither locked nor completed |
| NavGuard.OtherwiseNoWarning | dialect-game/src/components/NavigationGuard.tsx:199-204 | otherwise the answer is none with confidence 1.0 and no recommendation |
| NavGuard.BeginnerLessonsOpen | dialect-game/src/components/NavigationGuard.tsx:173-204 | a beginner target with its prerequisites met never warns |
| NavGuard.WarningConfidence | dialect-game/src/components/NavigationGuard.tsx:142-205 | the dialog warns exactly when the confidence is below 1.0, and without a warning nothing is recommended |
| NavGuard.ShouldWarn | dialect-game/src/components/NavigationGuard.tsx:234 | the dialog warns exactly when the skip reason is not none |
| NavGuard.DialogAdvancedAlwaysWarns | dialect-game/src/components/NavigationGuard.tsx:221-227 | over the dialog's three beginner mock lessons, any advanced target with its prerequisites met gets difficulty_jump with nothing to recommend |
| Cognitive.StringOr | dialect-game/src/services/ai/CognitiveOptimizer.ts:74-75 | a given non-empty string is used, a missing or empty one (falsy) gives the fallback |
| Cognitive.MeanOr | dialect-game/src/services/ai/CognitiveOptimizer.ts:48-55 | the mean of the readings, or the fallback when there are none |
| Cognitive.CognitiveStateIff | dialect-game/src/services/ai/CognitiveOptimizer.ts:42-69 | with brain activity and reaction time averaged (0.5 and 1000 ms by default): focused exactly when activity is over 0.7 and reaction under 800 ms; else stressed exactly when activity is over 0.8 or the error rate over 0.3; else fatigued below 0.3 activity or over 1500 ms; else distracted with errors over 0.2 and reaction over 1200 ms; else relaxed |
| Cognitive.NoReadingsDefaults | dialect-game/src/services/ai/CognitiveOptimizer.ts:48-67 | without readings a learner is stressed when the error rate is over 0.3, and relaxed otherwise |
| Cognitive.FocusFirst | dialect-game/src/services/ai/CognitiveOptimizer.ts:58-61 | the focus condition comes first, so a focused learner with a high error rate is still focused |
| Cognitive.CategorizeSessionLength | dialect-game/src/services/ai/CognitiveOptimizer.ts:167-172 | short exactly under 15 minutes, extended exactly from 90 minutes |
| Cognitive.CategorizePerformance | dialect-game/src/services/ai/CognitiveOptimizer.ts:174-179 | excellent exactly above 0.8, needs_improvement exactly at or below 0.4 |
| Cognitive.TrendBounds | dialect-game/src/services/ai/CognitiveOptimizer.ts:197-207 | mean(second half) - mean(first half) of scores within [lo, hi] lies within [lo - hi, hi - lo] |
| Cognitive.TrendOfImprovement | dialect-game/src/services/ai/CognitiveOptimizer.ts:197-207 | scores that rise from the first half to the second have a non-negative trend |
| Cognitive.MinOf | dialect-game/src/services/ai/CognitiveOptimizer.ts:197-207 | a lower bound of the scores |
| Cognitive.MaxOf | dialect-game/src/services/ai/CognitiveOptimizer.ts:197-207 | an upper bound of the scores |
| Cognitive.LearningMomentum | dialect-game/src/services/ai/CognitiveOptimizer.ts:181-195 | the momentum lies in [0, 1], and is 0.5 without recent scores |
| Cognitive.MomentumIsAverage | dialect-game/src/services/ai/CognitiveOptimizer.ts:189-194 | inside [0, 1] the momentum is the mean of trend, consistency and engagement |
| Cognitive.AnalyzeLearningPattern | dialect-game/src/services/ai/CognitiveOptimizer.ts:71-84 | the pattern holds the session-length and performance categories, the difficulty preference (medium by default), the learning style (visual by default) and the momentum |
| Cognitive.HourFatigue | dialect-game/src/services/ai/CognitiveOptimizer.ts:102-103 | the hour of day adds between 0 and 0.3 to the fatigue |
| Cognitive.FatigueLevel | dialect-game/src/services/ai/CognitiveOptimizer.ts:86-112 | the fatigue is at most 1, and not negative for a non-negative session count |
| Cognitive.RestedLearner | dialect-game/src/services/ai/CognitiveOptimizer.ts:92-111 | an hour-long morning session with no consecutive sessions and too few performances for a trend carries no fatigue |
| Cognitive.MarathonNeedsBreak | dialect-game/src/services/ai/CognitiveOptimizer.ts:95-99 | a session over two hours after three consecutive ones is fatigue over 0.7 |
| Cognitive.Pick | dialect-game/src/services/ai/CognitiveOptimizer.ts:162-165 | getRandomFeedback picks one of the strategy's options |
| Cognitive.CategoryAsNumber | dialect-game/src/services/ai/CognitiveOptimizer.ts:138 | a performance category is a string, and compares to a number as NaN |
| Cognitive.RelaxedNeverChallengedAsWritten | dialect-game/src/services/ai/CognitiveOptimizer.ts:137-141 | as written, a relaxed learner without high fatigue always gets the good-state message, whatever the completion rate |
| Cognitive.RelaxedChallenge | dialect-game/src/services/ai/CognitiveOptimizer.ts:137-141 | the intended rule: a relaxed learner who completes under 60% is offered a challenge, others get the good-state message |
| Cognitive.FeedbackDiffersOnlyWhenRelaxed | dialect-game/src/services/ai/CognitiveOptimizer.ts:114-146 | the two readings differ exactly for a relaxed learner without high fatigue who completes under 60% |
| Cognitive.FatigueOverrides | dialect-game/src/services/ai/CognitiveOptimizer.ts:116-118 | fatigue over 0.7 gives the break advice and the high-load note whatever the state |
| Cognitive.GenerateFeedback | dialect-game/src/services/ai/CognitiveOptimizer.ts:22-40 | a missing profile or id (empty is falsy) fails with 'Invalid user profile'; a profile with an id gets feedback |
| Cognitive.ExhaustedLearnerRests | dialect-game/src/services/ai/CognitiveOptimizer.ts:22-40 | a valid profile with fatigue over 0.7 gets the break advice |
| Cognitive.BestDuration | dialect-game/src/services/ai/CognitiveOptimizer.ts:293-301 | the best performance found is never negative |
| Cognitive.BestDurationFacts | dialect-game/src/services/ai/CognitiveOptimizer.ts:293-301 | the best performance bounds every entry's; with no positive performance the average duration is kept, else the duration is that of the first entry with the best performance |
| Cognitive.BestDurationShortestTie | dialect-game/src/services/ai/CognitiveOptimizer.ts:296-301 | with the durations ascending, as Object.entries walks integer keys, a tie for the best performance goes to the shortest duration |
| Cognitive.RecommendSessionDuration | dialect-game/src/services/ai/CognitiveOptimizer.ts:288-304 | the loop's recommendation is the best duration clamped into [900, 3600] seconds |
| Cognitive.CurrentCognitiveLoad | dialect-game/src/services/ai/CognitiveOptimizer.ts:319-324 | the load is at most 1, not negative for non-negative multitasking, and below 1 equal to 0.2 per task plus 0.3 times multitasking |
| Cognitive.FiveTasksSaturate | dialect-game/src/services/ai/CognitiveOptimizer.ts:319-324 | five tasks or more saturate the load at 1 |
| Progression.LevelFromIsLevel | dialect-game/tests/unit/services/progression.test.ts:371-376 | the scan from a level whose thresholds are all passed ends at the player's level |
| Progression.LevelOfLeast | dialect-game/tests/unit/services/progression.test.ts:369-377 | the level is the least level in 1..10 whose threshold is not yet reached, else 11, and it is the only such level |
| Progression.LevelMonotone | dialect-game/tests/unit/services/progression.test.ts:369-377 | more XP never gives a lower level |
| Progression.CalculateLevel | dialect-game/tests/unit/services/progression.test.ts:369-377 | the loop returns exactly that level |
| Progression.LevelThresholds | dialect-game/tests/unit/services/progression.test.ts:383-386 | a player has at least the XP of their level and, below the top, less than the next level's |
| Progression.SkillLevel | dialect-game/tests/unit/services/progression.test.ts:379-390 | floor(xp / 80) + 1 is the skill level whose XP band holds xp |
| Progression.SkillLevelMonotone | dialect-game/tests/unit/services/progression.test.ts:379-381 | more skill XP never gives a lower skill level |
| Progression.LevelRewards | dialect-game/tests/unit/services/progression.test.ts:392-407 | a content pack exactly on levels divisible by 5, for that level, and nothing otherwise |
| Progression.SkillsAfterSnoc | dialect-game/tests/unit/services/progression.test.ts:337-364 | the skill loop takes one entry at a time: a known skill gains its XP and possibly a level-up, an unknown one is skipped |
| Progression.Keys | dialect-game/tests/unit/services/progression.test.ts:337 | the skills of the entries, in order |
| Progression.SkillsAfterFacts | dialect-game/tests/unit/services/progression.test.ts:337-364 | the skill loop keeps the set of skills, records rising skill level-ups only, leaves untouched skills alone, and keeps level and XP-to-next consistent for non-negative XP |
| Progression.SkillsAfterFrame | dialect-game/tests/unit/services/progression.test.ts:337-364 | the skill loop keeps the set of skills and changes only the skills it is given |
| Progression.SkillsAfterRises | dialect-game/tests/unit/services/progression.test.ts:347-359 | every skill level-up it records is a rise, recorded with its skill |
| Progression.SkillsAfterSync | dialect-game/tests/unit/services/progression.test.ts:342-362 | for non-negative XP each skill's level and XP-to-next stay consistent with its total XP |
| Progression.SkillsGainTheirXP | dialect-game/tests/unit/services/progression.test.ts:342-344 | with distinct skills, each known one gains its XP in both counters and is stamped now |
| Progression.AwardFacts | dialect-game/tests/unit/services/progression.test.ts:312-367 | awardXP adds to the total XP, raises the level to max(old, level of the new total), keeps the set of skills, changes no skill without entries, records only rising level-ups, and records a player level-up exactly when the level rises |
| Progression.AwardKeepsLevelsInSync | dialect-game/tests/unit/services/progression.test.ts:312-367 | from a consistent profile, with non-negative XP, the level is the level of the new total and the skills stay consistent |
| Progression.DifficultyMultiplier | dialect-game/tests/unit/services/progression.test.ts:285-286 | the difficulty multiplier lies in [1, 2], 1 for any unknown difficulty |
| Progression.StreakMultiplier | dialect-game/tests/unit/services/progression.test.ts:299 | min(1 + 0.1 x streak, 2): at most 2, at least 1 for a non-negative streak, and 2 exactly from a streak of 10 |
| Progression.PerfectIff | dialect-game/tests/unit/services/progression.test.ts:260-261 | a game is perfect exactly when questions were answered and all correctly; accuracy lies in [0, 1] |
| Progression.SkillXPBounds | dialect-game/tests/unit/services/progression.test.ts:291-300 | each skill earns between 10 and 180 XP |
| Progression.BaseXPBounds | dialect-game/tests/unit/services/progression.test.ts:292 | before the bonus and streak, between 10 and 40 XP |
| Progression.StreakedBounds | dialect-game/tests/unit/services/progression.test.ts:299-300 | the streak multiplier keeps an amount of 10 to 90 XP within 10 to 180 |
| Progression.ScaledBounds | dialect-game/tests/unit/services/progression.test.ts:299-300 | the same bound before rounding down |
| Progression.FloorBetween | dialect-game/tests/unit/services/progression.test.ts:292-300 | rounding down keeps a value between two integers |
| Progression.PerfectGameEarnsBonus | dialect-game/tests/unit/services/progression.test.ts:294-300 | a perfect game earns every skill at least the 50 XP bonus more |
| Progression.SkillXPEntries | dialect-game/tests/unit/services/progression.test.ts:302 | one entry per distinct skill, in first-seen order, each with the same XP |
| Progression.EarnedXP | dialect-game/tests/unit/services/progression.test.ts:303-306 | the session XP is at most 1000, not negative, and equal to the sum over the skills below the cap |
| Progression.Ids | dialect-game/tests/unit/services/progression.test.ts:471 | the ids of the achievements, in order |
| Progression.CatalogueFacts | dialect-game/tests/unit/services/progression.test.ts:411-464 | the five achievements have distinct ids and non-negative XP rewards |
| Progression.UnlocksFacts | dialect-game/tests/unit/services/progression.test.ts:466-499 | checking achievements only adds to the held achievements, each new one from the catalogue and not held before, keeps ids distinct, never lowers XP or level and changes nothing else |
| Progression.UnlocksFrame | dialect-game/tests/unit/services/progression.test.ts:466-499 | the achievement loop changes only XP, level, achievements and the session's unlocks and level-ups, never lowering XP or level |
| Progression.UnlocksNew | dialect-game/tests/unit/services/progression.test.ts:469-473 | every achievement unlocked comes from the catalogue and was not held before |
| Progression.UnlocksPairwise | dialect-game/tests/unit/services/progression.test.ts:469-473 | held achievement ids stay distinct |
| Progression.UnlocksKeepId | dialect-game/tests/unit/services/progression.test.ts:466-499 | the user stays the same user |
| Progression.UnlocksSnoc | dialect-game/tests/unit/services/progression.test.ts:469-498 | the loop handles the catalogue one achievement at a time |
| Progression.UnlockStepFacts | dialect-game/tests/unit/services/progression.test.ts:469-516 | one step either changes no achievement or appends the new one, stamped now with progress 1, after which its bonus XP is awarded |
| Progression.IdsOfPrefix | dialect-game/tests/unit/services/progression.test.ts:510 | appending keeps every earlier id |
| Progression.PairwiseIdsSnoc | dialect-game/tests/unit/services/progression.test.ts:510 | appending a new id keeps ids distinct |
| Progression.StatsAfter | dialect-game/tests/unit/services/progression.test.ts:560-576 | the best score becomes max(best, session score) |
| Progression.RunningMeanIsMean | dialect-game/tests/unit/services/progression.test.ts:566-568 | the running average times the game count is the sum of the scores |
| Progression.StreakRules | dialect-game/tests/unit/services/progression.test.ts:528-556 | played today: nothing changes; played yesterday: the streak grows by one and the longest keeps up; otherwise the streak restarts at 1 and the longest is kept; the streak is maintained exactly in the first two cases |
| Progression.FirstGameLeavesLongestBehind | dialect-game/tests/unit/services/progression.test.ts:548-551 | a first game starts a streak of 1 while the longest streak stays 0 |
| Progression.SavedSessions | dialect-game/tests/unit/services/progression.test.ts:708-721 | the stored list ends with the new session and keeps the latest min(n + 1, 100) |
| Progression.NewProfileInSync | dialect-game/tests/unit/services/progression.test.ts:162-186 | a new profile is level 1 for 0 XP, has consistent skills and no achievement, and a name of at most 11 characters |
| Progression.FinishGameFacts | dialect-game/tests/unit/services/progression.test.ts:246-281 | ending a game keeps the ids, counts one more game, updates the best score, adds at least the session XP, never lowers level or longest streak, only adds achievements with distinct ids, and records score, accuracy, perfection, capped XP and one entry per skill |
| Progression.WithLevelUpsStep | dialect-game/tests/unit/services/progression.test.ts:331-359 | pushing level-ups in two steps is pushing them at once |
| Progression.WithLevelUpsAppend | dialect-game/tests/unit/services/progression.test.ts:331-359 | pushing nothing changes nothing, and pushes compose |
| Progression.Overwrite | dialect-game/tests/unit/services/progression.test.ts:207 | saving a profile twice keeps the later copy |
| Progression.ProgressionService.constructor | dialect-game/tests/unit/services/progression.test.ts:150-158 | no user, no session and empty storage |
| Progression.ProgressionService.SaveProfile | dialect-game/tests/unit/services/progression.test.ts:205-209 | the current user, if any, is stored under its id |
| Progression.ProgressionService.CreateNewProfile | dialect-game/tests/unit/services/progression.test.ts:162-186 | the new profile becomes current and is stored |
| Progression.ProgressionService.StartGameSession | dialect-game/tests/unit/services/progression.test.ts:217-244 | fails with 'Aucun utilisateur connecté' without a user; otherwise a fresh session of that user becomes current |
| Progression.ProgressionService.PushLevelUps | dialect-game/tests/unit/services/progression.test.ts:331-333 | the level-ups are pushed onto the current session, if any |
| Progression.ProgressionService.GainSkillXP | dialect-game/tests/unit/services/progression.test.ts:337-364 | one skill entry: a known skill gains its XP and its level-up is pushed; an unknown skill changes nothing |
| Progression.ProgressionService.AwardXP | dialect-game/tests/unit/services/progression.test.ts:312-367 | without a user nothing changes; otherwise the user becomes Award's, the session gets its level-ups, and the profile is saved |
| Progression.ProgressionService.UnlockAchievement | dialect-game/tests/unit/services/progression.test.ts:501-516 | the achievement is appended to user and session, its bonus awarded, and the profile saved |
| Progression.ProgressionService.CheckOne | dialect-game/tests/unit/services/progression.test.ts:469-497 | one catalogue entry: unlocks it when not held and its condition holds, else changes nothing |
| Progression.ProgressionService.CheckAchievements | dialect-game/tests/unit/services/progression.test.ts:466-499 | the loop leaves user and session as Unlocks over the catalogue |
| Progression.ProgressionService.UpdateStreak | dialect-game/tests/unit/services/progression.test.ts:528-556 | without user or session nothing changes; otherwise StreakAfter's streak, the session's streak flag, today as last active day, and the profile saved |
| Progression.ProgressionService.UpdateUserStats | dialect-game/tests/unit/services/progression.test.ts:560-576 | one more game, time, running average and best score, and the profile saved |
| Progression.ProgressionService.SaveSession | dialect-game/tests/unit/services/progression.test.ts:708-721 | the user's stored sessions get the new one, trimmed to the latest 100 |
| Progression.ProgressionService.CalculateSessionXP | dialect-game/tests/unit/services/progression.test.ts:283-310 | the session gets its per-skill XP and capped total, and that XP is awarded |
| Progression.ProgressionService.ScoreGame | dialect-game/tests/unit/services/progression.test.ts:251-268 | the session is finalised and scored and the user's stats updated |
| Progression.ProgressionService.RewardGame | dialect-game/tests/unit/services/progression.test.ts:270-274 | achievements are checked, then the streak is updated |
| Progression.ProgressionService.CloseGame | dialect-game/tests/unit/services/progression.test.ts:270-280 | after the rewards the session is saved and no session is current |
| Progression.ProgressionService.EndGameSession | dialect-game/tests/unit/services/progression.test.ts:246-281 | fails with 'Aucune session active' and changes nothing without a session or user; otherwise the state is FinishGame's, the session is saved and returned, and none is current |
| Monetization.FindPlan | dialect-game/tests/unit/services/monetization.test.ts:65-67 | a plan found has the id and is in the catalogue; none exactly when no plan has it |
| Monetization.GetPlan | dialect-game/tests/unit/services/monetization.test.ts:42-67 | exactly the free and premium plans exist, each under its own id |
| Monetization.GetPlans | dialect-game/tests/unit/services/monetization.test.ts:61-63 | the two plans, free then premium, each retrievable by its id |
| Monetization.SubscriptionIdsCollide | dialect-game/tests/unit/services/monetization.test.ts:76 | sub_<now> ids coincide exactly for subscriptions created in the same millisecond |
| Monetization.NewSubscription | dialect-game/tests/unit/services/monetization.test.ts:75-83 | the subscription is keyed by time, for the user and plan, auto-renewing, active with no end date on the free plan, and otherwise a trial ending 14 days later |
| Monetization.PutKeepsLedger | dialect-game/tests/unit/services/monetization.test.ts:85 | Map.set keeps insertion order: a new id goes last, an existing one keeps its place |
| Monetization.FirstWithFacts | dialect-game/tests/unit/services/monetization.test.ts:90-97 | the scan finds the first subscription of the user in insertion order with a wanted status, and none exactly when there is none |
| Monetization.FirstWithPut | dialect-game/tests/unit/services/monetization.test.ts:85-97 | after adding a subscription to a user without a match, the scan finds the new one exactly when it matches |
| Monetization.NewPaidSubscriptionNotFoundAsWritten | dialect-game/tests/unit/services/monetization.test.ts:79-92 | as written, a fresh premium subscription is a trial, so the active-only lookup does not find it |
| Monetization.NewSubscriptionIsCurrent | dialect-game/tests/unit/services/monetization.test.ts:79-92 | with active and trial subscriptions both counted as current, a fresh subscription of either plan is found |
| Monetization.GrantsByPlan | dialect-game/tests/unit/services/monetization.test.ts:174-182 | no subscription grants nothing; free grants exactly basic_features; premium exactly basic_features, advanced_analytics and api_access; an unknown plan nothing |
| Monetization.TrackingAccumulates | dialect-game/tests/unit/services/monetization.test.ts:164-168 | tracked values add up under their metric and leave the other metrics alone |
| Monetization.LimitRules | dialect-game/tests/unit/services/monetization.test.ts:184-202 | no subscription is never within limits; an unlimited (-1) metric always is; otherwise usage must be below the limit; and once over, more usage never brings it back |
| Monetization.ClassroomLimits | dialect-game/tests/unit/services/monetization.test.ts:184-202 | with the free limit of 2, one tracked classroom is within the limit and two are not (usage must stay below it); premium classrooms are unlimited |
| Monetization.CalculateAnnualSavings | dialect-game/tests/unit/services/monetization.test.ts:204-218 | 0 for an unknown plan, else the plan's percentage saved by paying yearly |
| Monetization.SavingsBounds | dialect-game/tests/unit/services/monetization.test.ts:210-217 | a yearly price between 0 and twelve months saves 0 to 100 percent; a dearer one saves nothing or less |
| Monetization.KnownSavings | dialect-game/tests/unit/services/monetization.test.ts:204-218 | free saves 0, premium 17 percent, an unknown plan 0 |
| Monetization.MonetizationService.constructor | dialect-game/tests/unit/services/monetization.test.ts:37-59 | no subscriptions, invoices or usage; the two plans are constants |
| Monetization.MonetizationService.CreateSubscription | dialect-game/tests/unit/services/monetization.test.ts:69-88 | an unknown plan fails with 'Plan not found' without change; otherwise the new subscription is stored and the user's usage reset |
| Monetization.MonetizationService.GetUserSubscription | dialect-game/tests/unit/services/monetization.test.ts:90-97 | the loop returns the user's first active subscription in insertion order |
| Monetization.MonetizationService.UpgradeSubscription | dialect-game/tests/unit/services/monetization.test.ts:99-114 | an unknown subscription fails first, then an unknown plan; otherwise it moves to the new plan and becomes active |
| Monetization.MonetizationService.CancelSubscription | dialect-game/tests/unit/services/monetization.test.ts:116-126 | an unknown subscription fails; otherwise it is cancelled and stops renewing |
| Monetization.MonetizationService.CreateInvoice | dialect-game/tests/unit/services/monetization.test.ts:128-149 | fails for an unknown subscription or plan; otherwise a pending invoice of the monthly price, due in 30 days, is stored |
| Monetization.MonetizationService.ProcessPayment | dialect-game/tests/unit/services/monetization.test.ts:151-162 | an unknown invoice fails; otherwise the payment succeeds exactly when the draw is over 0.05 and the invoice is marked paid or failed |
| Monetization.MonetizationService.TrackUsage | dialect-game/tests/unit/services/monetization.test.ts:164-168 | the value is added to the user's metric |
| Monetization.MonetizationService.HasFeatureAccess | dialect-game/tests/unit/services/monetization.test.ts:174-182 | access follows the plan of the user's active subscription |
| Monetization.MonetizationService.CheckUsageLimit | dialect-game/tests/unit/services/monetization.test.ts:184-202 | the limit check follows the plan of the user's active subscription and the user's usage |

## Where the code and its design description differ

The model follows the code in each case:

- **Fluency at zero duration.** `calculateFluencyScore` does not guard a zero duration. Java then computes an infinite rate, or NaN when there are no words, and both fall to the 0.6 branch. The design description asks for the neutral 0.5 here. `Voice.FluencyValues` states the code's 0.6.
- **Scoring switch.** The scores are computed whenever both the transcript and the expected text are present (VoiceProcessingService.java:130). No scoring switch is consulted.
- **Scoring order.** The design description orders the scores confidence→accuracy. The code computes accuracy, then confidence, then pronunciation, then fluency.

## Left out

- **Environment.** These are not modelled:
  - concurrency: `@Async`, `CompletableFuture`, `@Transactional`, JavaScript promises and timers. Each pipeline is one sequential run, and a timer firing is a method (for example `HttpClient.RequestCache.TimerFired`, `Assets.AssetsApiService.Expire`);
  - browser and platform storage: localStorage, sessionStorage, IndexedDB, the DOM, event emitters' listeners;
  - logging and console output.
- **Clock, randomness and network.** `Date.now`, `performance.now`, the hour of the day and `Math.random` become parameters, and so do the HTTP replies and the heap reading. Identifier generation becomes a caller-supplied value or a counter. Where a method needs one random draw per item, it requires that enough draws are supplied: `Sync.SyncService.StartSync` requires `|draws| >= |queue|`.
- **Floating point.** Doubles and JavaScript numbers are exact reals. NaN and Infinity are not modelled, apart from the zero-duration fluency case above. Also out: a memory reading with a zero heap limit, and a division by a zero window or point count. `ApiMonitoring.Trend` is called with 12, 24 and 7 points, and its slice width is not defined for 0 points.
- **Hashes and patterns.** The 32-bit string hashes and checksums are out: the sync checksum and the cache key hashes are supplied values. The regular-expression semantics of `invalidatePattern` are out too.
- **Text.** Case folding and character classes are ASCII only (`Util.ToLower`, `Util.JavaTrim`, `Util.JsTrim`). There is no Unicode handling.
- **JSON.** Payloads are structured values, not JSON text.
- Voice: the transcriber, the repository, the AI service and file storage are success/failure oracles. The contents of the AI feedback map are an opaque value.
- Voice.VoiceSession.constructor: the session identifier and creation time are supplied by the caller.
- Classroom: `shareContent`, `createAssignment`, `createAnnouncement`, the getters and `destroy` are outside the modelled core. So are event payloads and WebSocket signalling.
- Classroom.ClassroomService.StartSession: requires a session identifier not yet in use. The source's `generateId` is assumed to produce a fresh one.
- Education: the `save*`/`load*` storage functions are out, and dates are day or millisecond numbers.
- HttpClient: `apiConfig.ts` is not part of this model. Its error-type enumeration is inferred from the client's use of it.
- HttpClient.CircuitBreaker.Execute: a refusal is `Err` with the message 'Circuit breaker is OPEN'. The `ApiError` fields that go with it in the source (RATE_LIMIT_ERROR, status 503, not retryable) are not carried.
- HttpClient.CircuitBreaker.OnSuccess: requires the breaker not to be OPEN. The source only calls it after admission, and concurrent executions that could reopen it in between are not modelled.
- HttpClient.ExecuteRequest: the waits between attempts are returned as a list, not slept. The `AbortController` timeout is a thrown outcome of the `fetch` oracle.
- ApiMonitoring: the periodic timers, the dashboard export and the sampling draw are out. Sampling is a parameter.
- Sync: these are not modelled:
  - `autoResolveConflicts`, which is never called;
  - checksums and `bytesTransferred`;
  - the intermediate progress counters, which are overwritten;
  - the catch paths `BATCH_SYNC_ERROR` and `SYNC_FAILED`, since nothing in the model throws;
  - the sharing of a conflict object between a queue item and the conflict list.

  A non-numeric `lastModified` counts as 0.
- Sync.SyncOne: uses the intended `Sync.Classify`, where draws from 0.1 up to 0.15 are item errors. The code as written never takes that branch and syncs those items (`Sync.ClassifyAsWritten`, see Findings).
- Sync.SyncBatch: built on `Sync.SyncOne`, so it follows the intended classification, not the code as written.
- Sync.SyncService.StartSync: built on `Sync.SyncBatch`, so it follows the intended classification, not the code as written.
- Sync.ServerCopy: a non-object payload gives only `serverModified`. JavaScript spreads a string payload into one field per character index, and `Value` has no such fields.
- Sync.SyncService.StartSync: requires a batch size of at least 1. With a batch size of 0, the batching loop would never advance. The default is 100.
- Customization: the design tokens of a theme (colours, typography, spacing, animations) are named by a palette value. Applying a theme to the DOM, and persistence, are out.
- Engine: the canvas, rendering, collisions, the spatial grid, the object pool and `requestAnimationFrame` are not modelled. `Engine.GameEngine.Start` runs the synchronous first frame, and later frames are calls of `Frame`.
- Engine.GameEngine.UpdateObjects: the frame time `dt` is a parameter.
- PerfMonitor: `getDashboardData`, `getOptimizationSuggestions`, the observers and `getPerformanceTrends` are out. The last reads `Math.random`.
- PerfUtils: the observers, image preloading and lazy loading are out.
- PerfUtils.MeasurePerformance: only a synchronous return or throw is modelled. The Promise branch is not.
- PerfUtils.PerformanceCache.Set: with a capacity below 4, the cache can exceed its capacity (`PerfUtils.SmallCapacityOverflows`). Only capacities of at least 4 carry the bound (`PerfUtils.StoredWithinCapacity`).
- AdvancedCache: the session, local and IndexedDB levels are read as empty, as the source reads them without a `window`. `invalidatePattern` is out.
- AdvancedCache.CacheManager.Set: an entry stores its value as given. Only the size of the Base64 compression is modelled, not the encoded string.
- AppReducer: the React component around the reducer, speech recognition and rendering are out.
- GameApi: `generateGameWords`, and the dictionary and translation fetches, are out.
- GameApi.GenerateQuizQuestions: the default `questionCount` of 10 is not modelled. The caller passes the count.
- GameApi.ShuffleArray: the draws of `Math.random` are a parameter.
- Assets: the field mapping of Unsplash and Pexels replies is out, and so is URL building. A reply is a parameter carrying a status and an already mapped body.
- Assets.AssetsApiService.SearchImages: auto mode follows the intended chain, Unsplash then Pexels then placeholders. The code as written never asks Pexels (`Assets.AutoAnswerAsWritten`, see Findings).
- NavGuard: the dialog component is out. Only the recommendation rule and the warning decision are modelled.
- Cognitive: these are out:
  - the detailed cognitive report, the recommendations, the optimal learning window and the difficulty level, which are outside the modelled functions;
  - the default branch of `getPersonalizedFeedback`, which no state reaches.
- Cognitive.GenerateFeedback: a relaxed learner is judged on the intended completion-rate comparison. The code as written compares a category string and never offers the challenge (`Cognitive.AdaptiveFeedbackAsWritten`, see Findings).
- Cognitive.RecommendSessionDuration: a fractional average session duration is floored to whole seconds before the clamp. The source keeps the fraction.
- Cognitive.RecommendSessionDuration: requires the duration entries in strictly ascending order, the order `Object.entries` gives integer keys. Keys that are not integers, which `Object.entries` would put after the integer ones in insertion order, are not modelled.
- Progression.SkillXPEntries: the skills come in first-seen order. `Object.entries` puts integer-like keys first, in ascending order, and that ordering is not modelled.
- Customization.StreakTerm: a streak target of 0 divides by zero in JavaScript, giving Infinity or NaN. The model gives no streak term then.
- Progression: these are out:
  - `loadUserProfile`, `updateProfile` and `getDetailedStats`;
  - the daily challenge and the leaderboard.
- Monetization: invoices and payments are modelled only as far as `createInvoice` and `processPayment` change state. The payment draw is a parameter.

## Findings

| source | as written | input that shows it | evidently intended | confidence | as-written member | corrected member |
|---|---|---|---|---|---|---|
| dialect-game/src/services/backend/syncService.ts:486 | the simulated error branch `else if (random < 0.05)` follows `if (random < 0.1)` and so can never be taken | a draw of 0.12 is synced successfully; no draw produces an item error | the next 5% of draws, from 0.1 up to 0.15, produce an item error | not executed | Sync.AsWrittenNeverFails | Sync.ClassifyReachesEveryOutcome |
| dialect-game/src/services/api/assetsApi.ts:166-174 | in auto mode, `searchImages` falls back to Pexels only when `searchUnsplash` throws, but `searchUnsplash` catches its own errors and returns placeholders | with Unsplash offline and Pexels answering 200 with 7 results, the answer is the placeholder collection, not the Pexels one | a failed Unsplash search moves on to Pexels, and then to placeholders | not executed | Assets.AutoNeverAsksPexels | Assets.AutoFallsBack |
| dialect-game/src/services/ai/CognitiveOptimizer.ts:138 | the relaxed branch tests `learningPattern.performance < 0.6`, but `performance` is a category string, so the comparison is always false | a relaxed learner with a completion rate of 0.2 gets "You're in a good learning state" | a relaxed learner whose completion rate is below 0.6 is offered a challenge | not executed | Cognitive.RelaxedNeverChallengedAsWritten | Cognitive.RelaxedChallenge |
