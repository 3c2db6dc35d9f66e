# NeuroQuest quiz-analysis engine in Dafny

This project models the deterministic core of the NeuroQuest backend:

- **Quiz-level feedback** (`aiService.js`). A quiz's accuracy falls into one of five levels. Each level picks a message, three recommendations and a next-steps record, and there is a generic fallback bundle.
- **Answer-pattern analysis** (`aiService.js`). This covers:
  - the longest correct and incorrect streaks;
  - the trend (improving, consistent or variable), read from the half means and the variance of the 0/1 answer sequence;
  - the consistency label.
- **Per-question analysis** (`aiService.js`):
  - resolving the selected and the correct option;
  - the understanding level;
  - the misconception suggestion from the category/tag tables;
  - the explanation, the key points and the related topics;
  - the next difficulty and the practice recommendation;
  - the reduced analysis used when the explanation cannot be built.
- **The `/submit` route** (`attempts.js`):
  - grading each answer against the stored question;
  - the statistics record;
  - the per-category tallies and accuracies;
  - the split of the feedback into strengths, weaknesses and suggestions;
  - the stored attempt;
  - the update of the user's running average accuracy.
- **The documents.** The quiz attempt with its `calculateStats` method, and the question with its options, difficulty tiers and the `successRate` virtual.

## Design

**Modules.** One Dafny module per concern:

| module | content |
|---|---|
| `JsValues` | JavaScript numbers and string helpers |
| `Lookup` | first-hit and all-hits table scans over tags, and duplicate-free lists (a `Set` read back as an array) |
| `QuestionModel` | the question document |
| `QuizAttemptModel` | the quiz-attempt document |
| `PerformanceFeedback` | quiz-level feedback |
| `AnswerPattern` | streaks, trend and consistency |
| `QuestionAnalysis` | per-question analysis |
| `SubmitAttempt` | the `/submit` route |

**Numbers.** JavaScript numbers are modelled as `Number = NaN | Num(real)`. Every division in the core either divides by a non-zero count or is `0/0` over an empty list. `Divide` and `Percent` therefore return NaN exactly for an empty list, and comparisons with NaN are false. The model accepts empty inputs as the source does; bounds such as "accuracy lies in [0, 100]" are stated for the `Num` case.

**Imperative and pure code.** Code that updates state step by step in the source is written as methods:

| source code | Dafny |
|---|---|
| the streak counters | `FindStreaks` |
| the breaking tag loop | `GenerateMisconceptionFeedback` |
| the related-topics `Set` | `GetRelatedTopics` and `AddTopics` |
| the category dictionary | `CategoryPerformance` |
| the statistics assigned after construction | `InlineStats` |
| `calculateStats` | the `QuizAttempt` class |
| the user's counters | the `UserStats` class |

Each method is proved against a specification function. Properties of that function are proved as lemmas. Expression code (table lookups, `reduce`/`filter` folds, thresholds) is written as functions.

**Exceptions.** A `try`/`catch` in the source becomes an explicit branch. `analyzeQuestionResponse` can throw only when the answer is wrong and the question has no correct option, because `correctOption.text` is then read from `undefined`. `GenerateExplanation` returns `None` exactly in that case, and the analysis falls back to `GetFallbackQuestionAnalysis`. In `/submit`, the modelled errors are an unknown question id and the rejected NaN statistics of an empty list.

**Where the model follows the code.** For an empty answer list, the model follows the code instead of requiring a non-empty list: the accuracy, average time and variance are NaN (0/0). In `/submit`, such statistics cannot be stored: Mongoose casts the `Number` fields of `stats` and rejects NaN, so `create` fails and the route answers 500 without touching the user.

## Model

| member | source | states |
|---|---|---|
| JsValues.Percent | backend/routes/attempts.js:46 | `(part / whole) * 100`: NaN exactly when there are no items; otherwise value × whole = 100 × part, and the value lies in [0, 100] when 0 ≤ part ≤ whole |
| JsValues.PercentExtremes | backend/models/QuizAttempt.js:63 | for a positive whole, the percentage is 100 exactly for the whole and 0 exactly for nothing |
| JsValues.ToLower | backend/services/aiService.js:299-300 | `toLowerCase` on ASCII: same length, no upper-case letter left, every other character unchanged, and each upper-case letter moved to its lower-case partner |
| JsValues.LowerIdempotent | backend/services/aiService.js:299-300 | lowercasing twice is lowercasing once |
| Lookup.FirstHit | backend/services/aiService.js:302-313 | the entry of the first key present in the table, or None exactly when no key is present |
| Lookup.FirstHitAt | backend/services/aiService.js:302-313 | a key at index i that is present, with no earlier key present, makes the scan return that key's entry |
| Lookup.AllHits | backend/services/aiService.js:384-387 | `map(...).filter(...).flat()`: an item is in the result exactly when it is in the entry of some present key |
| Lookup.Dedup | backend/services/aiService.js:412-418 | the same members as the input, with no repetitions |
| Lookup.DedupSnoc | backend/services/aiService.js:412-418 | adding one more item appends it exactly when it is new, so the items stay in first-occurrence order |
| QuestionModel.SuccessRate | backend/models/Question.js:46-50 | 0 when never answered; otherwise rate × answered = 100 × correct, and the rate lies in [0, 100] when correct ≤ answered |
| QuestionModel.InitialSuccessRate | backend/models/Question.js:36-50 | the counters of a new question start at 0, so its success rate is 0 |
| QuestionModel.FindById | backend/services/aiService.js:228 | the first option with the given id, or None exactly when no option has it |
| QuestionModel.FindCorrect | backend/services/aiService.js:229 | the first correct option, or None exactly when no option is correct; zero or several correct options are allowed |
| QuestionModel.SelectionCorrectness | backend/routes/attempts.js:24-26 | choosing id x is correct exactly when the first option with id x is correct; an unmatched id is incorrect (the same `?.isCorrect` reading as `SelectionIsCorrect`, aiService.js:232) |
| QuizAttemptModel.CountCorrect | backend/models/QuizAttempt.js:56 | the count of correct answers is at most the number of answers; it is 0 exactly when none is correct, and equals the number of answers exactly when all are |
| QuizAttemptModel.TotalTime | backend/models/QuizAttempt.js:57 | the sum of `timeSpent` is 0 for no answers |
| QuizAttemptModel.TotalTimeNonNegative | backend/models/QuizAttempt.js:57 | times that are never negative add up to a non-negative total |
| QuizAttemptModel.StatsOf | backend/models/QuizAttempt.js:55-64 | `totalQuestions` is the number of answers, correct ≤ total, and `totalTime` is the time sum; the ratios are NaN exactly for no answers; otherwise accuracy × total = 100 × correct with accuracy in [0, 100], and average × total = `totalTime` |
| QuizAttemptModel.CorrectAnswersCounted | backend/models/QuizAttempt.js:56 | the stored count of correct answers is the number of answers marked correct, and is 0 exactly when none is |
| QuizAttemptModel.AccuracyExtremes | backend/models/QuizAttempt.js:63 | for a non-empty attempt, accuracy is 100 exactly when every answer is correct, and 0 exactly when none is |
| QuizAttemptModel.QuizAttempt.constructor | backend/routes/attempts.js:73-90 | the stored attempt holds exactly the given user, answers, statistics, feedback split and categories |
| QuizAttemptModel.QuizAttempt.CalculateStats | backend/models/QuizAttempt.js:54-66 | `stats` becomes `StatsOf(answers)`; the answers, feedback and categories are unchanged |
| PerformanceFeedback.AnalyzePerformanceLevel | backend/services/aiService.js:26-33 | excellent exactly when accuracy ≥ 90, very good exactly when 80 ≤ accuracy < 90, good for [70, 80), fair for [60, 70), needs improvement below 60 or for NaN |
| PerformanceFeedback.LevelMonotone | backend/services/aiService.js:26-33 | a higher accuracy never gives a worse level |
| PerformanceFeedback.GetPerformanceFeedback | backend/services/aiService.js:35-57 | the performance record carries the level's name, the accuracy, the correct and total counts, and the level's opening words followed by the sentence with accuracy, correct and total |
| PerformanceFeedback.GetPerformanceMessage | backend/services/aiService.js:48-57 | a level name gets its opening words followed by the score sentence; any other string gets the `fair` opening |
| PerformanceFeedback.GetRecommendations | backend/services/aiService.js:59-91 | the level's own three recommendations; the `fair` default is never taken |
| PerformanceFeedback.GetNextSteps | backend/services/aiService.js:93-125 | the level's own record, with three topics and the practice count of the level's rank (5, 7, 10, 12, 15) |
| PerformanceFeedback.GenerateFeedback | backend/services/aiService.js:9-24 | performance, recommendations and next steps all follow the same level: its name, its three recommendations and its practice count |
| PerformanceFeedback.FeedbackShape | backend/services/aiService.js:59-124 | every level has its own table entries, so the `'fair'` default is never used; 3 recommendations and 3 topics; the practice count is 5/7/10/12/15 by level |
| PerformanceFeedback.PracticeCountGrowsAsLevelWorsens | backend/services/aiService.js:93-125 | the practice count strictly increases from each level to every worse one |
| PerformanceFeedback.PracticeCountAntitone | backend/services/aiService.js:93-125 | a lower accuracy never asks for fewer practice questions |
| PerformanceFeedback.GetFallbackFeedback | backend/services/aiService.js:127-141 | the fallback keeps the level's performance record, and has 3 recommendations, the action "Practice more", 2 topics and a practice count of 10 |
| PerformanceFeedback.FeedbackForSeventyFivePercent | backend/services/aiService.js:48-124 | 15 correct out of 20 (75%) is "good", with practice count 10 and a message that mentions 75, 15 and 20 |
| AnswerPattern.FindStreaks | backend/services/aiService.js:169-188 | the two counters end as the lengths of the longest all-correct and the longest all-incorrect run |
| AnswerPattern.StreaksFitTogether | backend/services/aiService.js:169-188 | each longest run is at most n, and the two together are at most n |
| AnswerPattern.NoCorrectStreak | backend/services/aiService.js:169-188 | the longest correct run is 0 exactly when no answer is correct |
| AnswerPattern.Mean | backend/services/aiService.js:209 | NaN exactly for an empty pattern; otherwise mean × n = the number of ones |
| AnswerPattern.Variance | backend/services/aiService.js:209-210 | NaN exactly for an empty pattern; otherwise variance × n = the sum of squared deviations from the mean |
| AnswerPattern.IsImproving | backend/services/aiService.js:200-206 | never holds for fewer than two answers, because the first half is then empty and its mean NaN |
| AnswerPattern.IsConsistent | backend/services/aiService.js:208-212 | never holds for an empty pattern, whose variance is NaN |
| AnswerPattern.DeterminePattern | backend/services/aiService.js:190-198 | fewer than two answers are never Improving, and no answers give Variable |
| AnswerPattern.CalculateConsistency | backend/services/aiService.js:214-223 | no answers give "Inconsistent" |
| AnswerPattern.SquaredDeviationsOfBits | backend/services/aiService.js:208-211 | for a 0/1 sequence with k ones, the sum of squared deviations from c is k(1 − 2c) + n·c² |
| AnswerPattern.VarianceBounds | backend/services/aiService.js:208-223 | the variance of a non-empty 0/1 sequence lies in [0, 0.25]; it is below 0.25 exactly when the ones are not exactly half; it is 0 when all answers agree |
| AnswerPattern.ConsistencyLabels | backend/services/aiService.js:214-223 | "Inconsistent" occurs only for the empty sequence; "Somewhat Consistent" occurs exactly when half the answers are correct; all-equal answers are "Very Consistent" |
| AnswerPattern.ImprovingCrossMultiplied | backend/services/aiService.js:200-206 | improving exactly when ones(first ⌊n/2⌋) × ⌈n/2⌉ < ones(rest) × ⌊n/2⌋ |
| AnswerPattern.TrendRules | backend/services/aiService.js:190-212 | Improving exactly when `isImproving`, never for n < 2; otherwise Consistent exactly when the ones are not exactly half, else Variable; Variable for no answers |
| AnswerPattern.ImprovingExample | backend/services/aiService.js:190-206 | wrong, wrong, right, right is improving |
| AnswerPattern.UniformExamples | backend/services/aiService.js:190-223 | all-correct and all-wrong sequences are Consistent and Very Consistent |
| AnswerPattern.Accuracy | backend/services/aiService.js:146-151 | NaN exactly for no answers; otherwise in [0, 100] with value × n = 100 × correct |
| AnswerPattern.AnalyzeAnswerPattern | backend/services/aiService.js:143-156 | the report holds the accuracy, the two longest runs (their sum at most n), the trend and the consistency label |
| QuestionAnalysis.MisconceptionSuggestion | backend/services/aiService.js:282-316 | the generic text exactly when no lowercased tag hits the lowercased category's table; otherwise the first hit's entry, a record of three pairs |
| QuestionAnalysis.GenerateMisconceptionFeedback | backend/services/aiService.js:282-316 | the breaking loop yields level needs_improvement with the misconception suggestion |
| QuestionAnalysis.AnalyzeConceptUnderstanding | backend/services/aiService.js:263-280 | unknown exactly when no option was selected, with "Please provide a valid answer choice."; good exactly when the selection is correct, with "Excellent understanding of <category>. …"; a wrong selection gets the misconception feedback |
| QuestionAnalysis.GetSpecificMisconceptionExplanation | backend/services/aiService.js:340-365 | the generic sentence (category and tags) when no raw tag has an entry for the chosen option's text; the category is not consulted for the lookup |
| QuestionAnalysis.SpecificExplanationFirstHit | backend/services/aiService.js:355-360 | when tag i is the first raw tag whose table has an entry for the chosen text, the explanation is that entry |
| QuestionAnalysis.GetKeyPoints | backend/services/aiService.js:367-394 | the generic bullets when no tag hits; otherwise one "• " bullet per point of every hit, in tag order |
| QuestionAnalysis.KeyPointsText | backend/services/aiService.js:335-336 | the key points interpolated into the template are never empty |
| QuestionAnalysis.WrongAnswerExplanation | backend/services/aiService.js:327-337 | six segments; the second is the stored explanation, the fourth the specific misconception explanation, and the last, the key points, is never empty |
| QuestionAnalysis.CorrectAnswerExplanation | backend/services/aiService.js:323-325 | the explanation of a correct answer starts with "Correct! " |
| QuestionAnalysis.GenerateExplanation | backend/services/aiService.js:318-338 | no answer gives the no-answer text and a correct answer the "Correct!" text; a wrong answer gives the six template segments (the correct option, the stored explanation, the chosen option, the specific explanation, a header and the key points one per line) when a correct option exists, and fails otherwise |
| QuestionAnalysis.AddTopics | backend/services/aiService.js:412-416 | adding each entry to the set gives the duplicate-free list of everything seen so far plus the entry |
| QuestionAnalysis.GetRelatedTopics | backend/services/aiService.js:396-419 | the duplicate-free union, in first-seen order, of the topics of every tag that hits the lowercased category |
| QuestionAnalysis.RelatedTopicsMembers | backend/services/aiService.js:396-419 | a topic is related exactly when some tag's entry lists it |
| QuestionAnalysis.IndexOf | backend/services/aiService.js:439 | the first index of the value, or −1 exactly when it is absent |
| QuestionAnalysis.GetNextDifficulty | backend/services/aiService.js:437-443 | always a schema difficulty; an unknown one becomes "beginner"; a known one moves one tier up, saturating at "advanced" |
| QuestionAnalysis.NextDifficultySteps | backend/services/aiService.js:437-443 | beginner → intermediate → advanced → advanced |
| QuestionAnalysis.NextDifficultyReachesTop | backend/services/aiService.js:437-443 | three steps from any difficulty reach "advanced" |
| QuestionAnalysis.GetPracticeRecommendation | backend/services/aiService.js:421-435 | correct: next difficulty, two advanced focus areas, 5 questions; incorrect: same difficulty, two fundamentals focus areas, 10 questions |
| QuestionAnalysis.GetFallbackQuestionAnalysis | backend/services/aiService.js:445-467 | the reduced analysis: correctness of the chosen option, good or needs_improvement, the stored explanation, "Basic <category>", the unchanged difficulty, and 5 or 10 questions |
| QuestionAnalysis.AnalyzeQuestionResponse | backend/services/aiService.js:225-261 | unmatched id: unknown, "Please provide a valid answer choice." and the no-answer text; correct: good, "Excellent understanding of <category>. …" and the "Correct!" text; wrong with a correct option present: needs_improvement with the misconception suggestion and the six segments; wrong with no correct option: exactly the fallback analysis |
| QuestionAnalysis.NeuronExplanationExample | backend/utils/seedQuestions.js:6-19 | choosing "To produce hormones" on the neurons seed question gives the neurons table's explanation for that text |
| QuestionAnalysis.NeuronSuggestionExample | backend/utils/seedQuestions.js:6-19 | the neurons seed question's misconception suggestion is the three-entry neurons record |
| SubmitAttempt.Grade | backend/routes/attempts.js:24-33 | the stored answer is correct exactly when the first option with the chosen id is correct; a missing time becomes 0 |
| SubmitAttempt.ProcessAnswers | backend/routes/attempts.js:18-34 | succeeds exactly when every id is known, grading each answer in order; otherwise the error names the first unknown id |
| SubmitAttempt.InlineStats | backend/routes/attempts.js:37-47 | the record built with zeros and then assigned equals `calculateStats`'s record for the same answers |
| SubmitAttempt.CountIn | backend/routes/attempts.js:53-65 | a category's total is positive exactly when the category occurs |
| SubmitAttempt.CorrectIn | backend/routes/attempts.js:53-65 | a category's correct count never exceeds its total |
| SubmitAttempt.TallyOf | backend/routes/attempts.js:53-65 | every entry of the dictionary has total ≥ 1 and correct ≤ total |
| SubmitAttempt.Add | backend/routes/attempts.js:58-64 | one answer creates or keeps its category's key and leaves every other entry unchanged |
| SubmitAttempt.TallyOfCounts | backend/routes/attempts.js:53-65 | the dictionary has an entry exactly for the categories that occur, holding their correct and total counts |
| SubmitAttempt.CategoryPerformance | backend/routes/attempts.js:53-65 | the loop builds the dictionary, with its keys in first-seen order |
| SubmitAttempt.TallyBounds | backend/routes/attempts.js:58-64 | every listed category has total ≥ 1 and correct ≤ total |
| SubmitAttempt.TotalsAddUp | backend/routes/attempts.js:53-65 | the category totals add up to the number of answers |
| SubmitAttempt.Score | backend/routes/attempts.js:68-69 | a category's accuracy satisfies accuracy × total = 100 × correct, and lies in [0, 100] |
| SubmitAttempt.CategoryScores | backend/routes/attempts.js:67-70 | one score per dictionary key, in key order, each carrying the key as its name and an accuracy in [0, 100] with accuracy × total = 100 × correct |
| SubmitAttempt.SplitFeedback | backend/routes/attempts.js:84-86 | strengths followed by weaknesses is the recommendation list, with at most two strengths; suggestions is the single next-steps action |
| SubmitAttempt.FeedbackSplitShape | backend/routes/attempts.js:84-86 | for every level's feedback: 2 strengths and 1 weakness, the third recommendation |
| SubmitAttempt.RunningAverage | backend/routes/attempts.js:94-96 | new average × (n + 1) = old average × n + accuracy; NaN exactly when either is NaN |
| SubmitAttempt.AverageAfter | backend/routes/attempts.js:93-96 | the average after a list of accuracies is NaN only when one of them is NaN |
| SubmitAttempt.UserStats.constructor | backend/models/User.js:21-23 | a user starts with 0 quizzes and average 0 |
| SubmitAttempt.UserStats.RecordQuiz | backend/routes/attempts.js:93-96 | the quiz count grows by exactly 1, and the average becomes the running average |
| SubmitAttempt.RunningAverageIsMean | backend/routes/attempts.js:93-96 | from the defaults, the average after finite accuracies is their mean; a single NaN makes it NaN for good (`Submit` never passes one) |
| SubmitAttempt.ProcessedQuestionsKnown | backend/routes/attempts.js:18-33 | every processed answer refers to a question in the store |
| SubmitAttempt.CategoryReport | backend/routes/attempts.js:53-70 | one score per category of the graded answers, in first-seen order, each that category's correct answers as a percentage of its answers |
| SubmitAttempt.StorableExactlyWithAnswers | backend/routes/attempts.js:73-90 | the statistics pass the `Number` cast of `create` exactly when the attempt has answers |
| SubmitAttempt.Submit | backend/routes/attempts.js:9-116 | a non-array gives 400; an unknown id gives 500 with "Question not found: id"; an empty list gives 500 because `create` rejects the NaN statistics; all three leave the user unchanged. Otherwise a fresh attempt holds the graded answers, `StatsOf` them (both ratios finite), the split feedback and one score per category of the graded answers in first-seen order, and the user's quiz count grows by one and the average becomes the running average |

## Left out

- The Hugging Face client (`HfInference`) is not used by any analysed function and is not modelled. Neither is the `console.error` logging.
- IEEE-754 rounding is left out: accuracies, means and variances are exact reals. The way JavaScript renders a number inside a message is not modelled; a number in a message stays a `Value` piece.
- The whitespace of the multi-line explanation template is left out: a wrong answer's explanation is a list of six segments. The same holds for the generic misconception sentence (`GenericExplanation`), whose line break and indentation before "Review" become one space. The generic key points are a list of three bullets, not one indented string.
- `aiGeneratedFeedback` (the `JSON.stringify` of the whole feedback) is not stored in the modelled attempt.
- The `catch` branches of `generateFeedback` and `analyzeAnswerPattern` cannot be reached with well-typed input, and are not modelled as taken. `GetFallbackFeedback` is modelled as a separate function.
- Mongo and Express I/O is reduced to values. This covers `findById`, `create`, `save`, the response bodies, the `/history` route and the `/test-ai` route. The question store is a map from id to question.
- Submit: the second `findById` in the category loop is assumed to return the same question as the first, so concurrent deletion between the two is not modelled. Under `Promise.all` with several unknown ids, the rejection that arrives first wins; the model reports the first unknown id in list order.
- Submit: a falsy `timeSpent` (missing, 0, NaN, empty string) becomes 0. Only "missing" is modelled, as `None`.
- Object keys: the ordering JavaScript gives integer-like keys in `Object.entries`, and keys inherited from `Object.prototype` (such as `"constructor"` used as a category or tag), are not modelled. Lowercasing covers ASCII letters only.
- Submit: the modelled errors are an unknown question id and NaN statistics. A malformed answer element (for example, `null`) is not modelled. A question id that is not a valid ObjectId makes `findById` throw a CastError; the status is still 500, but its message is not "Question not found: …", and the model does not distinguish such ids from unknown ones.
- Submit: the text of Mongoose's validation error for NaN statistics is reduced to one fixed message, `NaNCastError`.
- Authentication, the user's other fields, quiz selection, the OpenAI feedback route, seeding, the frontend and the server wiring are not part of this model.
