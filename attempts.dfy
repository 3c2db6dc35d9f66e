/**
 * The `/submit` route: grading the submitted answers against the stored
 * questions, the statistics record, the per-category tallies, the split of
 * the feedback into strengths and weaknesses, the stored attempt and the
 * user's running average accuracy.
 */
module SubmitAttempt {
  import opened JsValues
  import opened Lookup
  import opened QuestionModel
  import opened QuizAttemptModel
  import opened PerformanceFeedback

  datatype Result<T> = Ok(value: T) | Err(message: string)

  /** One element of the request's `answers` array; `timeSpent` may be absent. */
  datatype SubmittedAnswer = SubmittedAnswer(
    questionId: string,
    selectedOptionId: string,
    timeSpent: Option<real>)

  /** The request body's `answers`: missing or not an array, or an array. */
  datatype Body = NotAnArray | Answers(list: seq<SubmittedAnswer>)

  // ---------------------------------------------------------------- grading

  /**
   * The stored form of one answer to question `q`: correct exactly when the
   * chosen id names a correct option, false when it names none.
   */
  function Grade(q: Question, a: SubmittedAnswer): (r: AttemptAnswer)
    ensures r.question == q.id && r.userAnswer == a.selectedOptionId
    ensures r.isCorrect <==>
      exists i :: 0 <= i < |q.options| && q.options[i].id == a.selectedOptionId &&
        q.options[i].isCorrect && forall j :: 0 <= j < i ==> q.options[j].id != a.selectedOptionId
    ensures a.timeSpent.None? ==> r.timeSpent == 0.0
    ensures a.timeSpent.Some? ==> r.timeSpent == a.timeSpent.value
  {
    SelectionCorrectness(q.options, a.selectedOptionId);
    AttemptAnswer(q.id, a.selectedOptionId, SelectionIsCorrect(FindById(q.options, a.selectedOptionId)),
      if a.timeSpent.Some? then a.timeSpent.value else 0.0)
  }

  /**
   * `Promise.all(answers.map(...))` over the question store `db`: every
   * answer graded in order, or the error for the first unknown question id.
   */
  function ProcessAnswers(db: map<string, Question>, answers: seq<SubmittedAnswer>)
    : (r: Result<seq<AttemptAnswer>>)
    ensures r.Ok? <==> forall i :: 0 <= i < |answers| ==> answers[i].questionId in db
    ensures r.Ok? ==> |r.value| == |answers|
    ensures r.Ok? ==>
      forall i :: 0 <= i < |answers| ==> r.value[i] == Grade(db[answers[i].questionId], answers[i])
    ensures r.Err? ==>
      exists i :: 0 <= i < |answers| && answers[i].questionId !in db &&
        r.message == "Question not found: " + answers[i].questionId &&
        forall j :: 0 <= j < i ==> answers[j].questionId in db
    decreases |answers|
  {
    if |answers| == 0 then Ok([])
    else if answers[0].questionId !in db then Err("Question not found: " + answers[0].questionId)
    else
      var rest := ProcessAnswers(db, answers[1..]);
      assert forall i :: 1 <= i < |answers| ==> answers[i] == answers[1..][i - 1];
      if rest.Err? then rest
      else Ok([Grade(db[answers[0].questionId], answers[0])] + rest.value)
  }

  // ------------------------------------------------------------- statistics

  /**
   * The inline statistics of the route: the record is built with zero
   * ratios, then the accuracy and the average time are assigned. The result
   * is the record `QuizAttempt.calculateStats` computes.
   */
  method InlineStats(answers: seq<AttemptAnswer>) returns (stats: Stats)
    ensures stats == StatsOf(answers)
  {
    stats := Stats(|answers|, CountCorrect(answers), TotalTime(answers), Num(0.0), Num(0.0));
    stats := stats.(accuracy := Percent(stats.correctAnswers as real, stats.totalQuestions as real));
    stats := stats.(averageTimePerQuestion := Divide(stats.totalTime, stats.totalQuestions as real));
  }

  // ---------------------------------------------------- category performance

  /** The category of each graded answer, with its correctness. */
  type Graded = (string, bool)

  function Categories(g: seq<Graded>): seq<string> {
    seq(|g|, i requires 0 <= i < |g| => g[i].0)
  }

  /** The number of answers in category `c`. */
  function CountIn(g: seq<Graded>, c: string): (r: nat)
    ensures r <= |g|
    ensures r > 0 <==> c in Categories(g)
    decreases |g|
  {
    if |g| == 0 then 0
    else
      var init := g[..|g| - 1];
      assert Categories(g) == Categories(init) + [g[|g| - 1].0];
      CountIn(init, c) + if g[|g| - 1].0 == c then 1 else 0
  }

  /** The number of correct answers in category `c`; never more than the category's total. */
  function CorrectIn(g: seq<Graded>, c: string): (r: nat)
    ensures r <= CountIn(g, c)
    decreases |g|
  {
    if |g| == 0 then 0
    else
      var init := g[..|g| - 1];
      CorrectIn(init, c) + if g[|g| - 1].0 == c && g[|g| - 1].1 then 1 else 0
  }

  /** The `{ correct, total }` entry of a category. */
  datatype Tally = Tally(correct: nat, total: nat)

  /** Extending the answers by one adds it to its own category's tally only. */
  lemma CountsSnoc(g: seq<Graded>, x: Graded, c: string)
    ensures CountIn(g + [x], c) == CountIn(g, c) + (if x.0 == c then 1 else 0)
    ensures CorrectIn(g + [x], c) == CorrectIn(g, c) + (if x.0 == c && x.1 then 1 else 0)
    ensures Categories(g + [x]) == Categories(g) + [x.0]
  {
    assert (g + [x])[..|g + [x]| - 1] == g;
  }

  /** The dictionary after adding the answers of `g` in order, starting from `{}`. */
  function TallyOf(g: seq<Graded>): (r: map<string, Tally>)
    ensures forall c :: c in r ==> 0 < r[c].total && r[c].correct <= r[c].total
    decreases |g|
  {
    if |g| == 0 then map[] else Add(TallyOf(g[..|g| - 1]), g[|g| - 1])
  }

  /** One answer counted into its category's entry, created at zero when absent. */
  function Add(t: map<string, Tally>, x: Graded): (r: map<string, Tally>)
    ensures forall c :: c in r <==> c in t || c == x.0
    ensures forall c :: c in t && c != x.0 ==> r[c] == t[c]
  {
    var entry := if x.0 in t then t[x.0] else Tally(0, 0);
    t[x.0 := Tally(entry.correct + (if x.1 then 1 else 0), entry.total + 1)]
  }

  /** The dictionary has an entry for each category that occurs, holding its correct and total counts. */
  lemma {:induction false} TallyOfCounts(g: seq<Graded>)
    ensures forall c :: c in TallyOf(g) <==> c in Categories(g)
    ensures forall c :: c in TallyOf(g) ==> TallyOf(g)[c] == Tally(CorrectIn(g, c), CountIn(g, c))
    decreases |g|
  {
    if |g| > 0 {
      var init := g[..|g| - 1];
      var x := g[|g| - 1];
      assert g == init + [x];
      TallyOfCounts(init);
      assert Categories(g) == Categories(init) + [x.0];
      forall c {
        CountsSnoc(init, x, c);
      }
    }
  }

  /** One loop step extends the first-seen category list and the dictionary by `g[i]`. */
  lemma NamesStep(g: seq<Graded>, i: nat)
    requires i < |g|
    ensures TallyOf(g[..i + 1]) == Add(TallyOf(g[..i]), g[i])
    ensures Dedup(Categories(g[..i + 1])) ==
      if g[i].0 in TallyOf(g[..i]) then Dedup(Categories(g[..i]))
      else Dedup(Categories(g[..i])) + [g[i].0]
  {
    TallyOfCounts(g[..i]);
    assert g[..i + 1][..i] == g[..i];
    assert Categories(g[..i + 1]) == Categories(g[..i]) + [g[i].0];
    DedupSnoc(Categories(g[..i]), g[i].0);
  }

  /**
   * The category loop: `names` lists the categories in first-seen order
   * (the order `Object.entries` reports them) and `tally` is the dictionary.
   */
  method CategoryPerformance(g: seq<Graded>) returns (names: seq<string>, tally: map<string, Tally>)
    ensures names == Dedup(Categories(g))
    ensures tally == TallyOf(g)
    ensures forall c :: c in tally <==> c in names
    ensures forall c :: c in tally ==> tally[c] == Tally(CorrectIn(g, c), CountIn(g, c))
  {
    names := [];
    tally := map[];
    for i := 0 to |g|
      invariant names == Dedup(Categories(g[..i]))
      invariant tally == TallyOf(g[..i])
    {
      var category := g[i].0;
      NamesStep(g, i);
      var prev := tally;
      var entry := Tally(0, 0);
      if category in tally {
        entry := tally[category];
      } else {
        names := names + [category];
      }
      tally := tally[category := Tally(entry.correct + (if g[i].1 then 1 else 0), entry.total + 1)];
      assert tally == Add(prev, g[i]);
    }
    assert g[..|g|] == g;
    TallyOfCounts(g);
  }

  /** Every listed category has at least one answer, and no more correct ones than answers. */
  lemma TallyBounds(g: seq<Graded>, c: string)
    requires c in Dedup(Categories(g))
    ensures 1 <= CountIn(g, c) && CorrectIn(g, c) <= CountIn(g, c)
  {
  }

  /** The sum of the category totals of `names`. */
  function SumCounts(names: seq<string>, g: seq<Graded>): nat
    decreases |names|
  {
    if |names| == 0 then 0
    else SumCounts(names[..|names| - 1], g) + CountIn(g, names[|names| - 1])
  }

  /** One more answer raises the sum over distinct `names` by one exactly when its category is listed. */
  lemma {:induction false} SumCountsSnoc(names: seq<string>, g: seq<Graded>, x: Graded)
    requires Distinct(names)
    ensures SumCounts(names, g + [x]) == SumCounts(names, g) + (if x.0 in names then 1 else 0)
    decreases |names|
  {
    if |names| > 0 {
      var init := names[..|names| - 1];
      var last := names[|names| - 1];
      assert forall y :: y in names <==> y in init || y == last;
      assert last !in init;
      SumCountsSnoc(init, g, x);
      CountsSnoc(g, x, last);
    }
  }

  /** The category totals add up to the number of answers. */
  lemma {:induction false} TotalsAddUp(g: seq<Graded>)
    ensures SumCounts(Dedup(Categories(g)), g) == |g|
    decreases |g|
  {
    if |g| > 0 {
      var init := g[..|g| - 1];
      var x := g[|g| - 1];
      assert g == init + [x];
      TotalsAddUp(init);
      CountsSnoc(init, x, x.0);
      DedupSnoc(Categories(init), x.0);
      var names := Dedup(Categories(init));
      SumCountsSnoc(names, init, x);
      if x.0 !in Categories(init) {
        assert (names + [x.0])[..|names|] == names;
      }
    }
  }

  /** One category's score: its correct answers as a percentage of its answers. */
  function Score(name: string, t: Tally): (r: CategoryScore)
    requires 0 < t.total && t.correct <= t.total
    ensures r.name == name && 0.0 <= r.accuracy <= 100.0
    ensures r.accuracy * (t.total as real) == 100.0 * (t.correct as real)
  {
    PercentBounds(t.correct as real, t.total as real);
    CategoryScore(name, (t.correct as real / t.total as real) * 100.0)
  }

  /** `Object.entries(categoryPerformance).map(...)`: one score per category, in key order. */
  function CategoryScores(names: seq<string>, tally: map<string, Tally>): (r: seq<CategoryScore>)
    requires forall k :: 0 <= k < |names| ==>
      names[k] in tally && 0 < tally[names[k]].total && tally[names[k]].correct <= tally[names[k]].total
    ensures |r| == |names|
    ensures forall k :: 0 <= k < |names| ==> r[k] == Score(names[k], tally[names[k]])
    ensures forall k :: 0 <= k < |names| ==>
      && r[k].name == names[k]
      && 0.0 <= r[k].accuracy <= 100.0
      && r[k].accuracy * (tally[names[k]].total as real) == 100.0 * (tally[names[k]].correct as real)
  {
    seq(|names|, k requires 0 <= k < |names| && names[k] in tally && 0 < tally[names[k]].total
                   && tally[names[k]].correct <= tally[names[k]].total =>
      Score(names[k], tally[names[k]]))
  }

  // ---------------------------------------------------------------- feedback

  /**
   * `strengths` are the recommendations at positions 0 and 1, `weaknesses`
   * the rest, and `suggestions` the next-steps action.
   */
  function SplitFeedback(recommendations: seq<string>, action: string): (f: AttemptFeedback)
    ensures f.strengths + f.weaknesses == recommendations
    ensures |f.strengths| == if |recommendations| < 2 then |recommendations| else 2
    ensures f.suggestions == [action]
  {
    var cut := if |recommendations| < 2 then |recommendations| else 2;
    AttemptFeedback(recommendations[..cut], recommendations[cut..], [action])
  }

  /** The level bundles have three recommendations: two strengths and one weakness. */
  lemma FeedbackSplitShape(q: Stats)
    ensures var fb := GenerateFeedback(q);
      var f := SplitFeedback(fb.recommendations, fb.nextSteps.action);
      |f.strengths| == 2 && |f.weaknesses| == 1 && f.weaknesses[0] == fb.recommendations[2]
  {
    FeedbackShape(q);
  }

  // -------------------------------------------------------------- user stats

  /** `(average * count + accuracy) / (count + 1)`: NaN once either operand is NaN. */
  function RunningAverage(average: Number, count: nat, accuracy: Number): (r: Number)
    ensures r.NaN? <==> average.NaN? || accuracy.NaN?
    ensures r.Num? ==>
      r.value * ((count + 1) as real) == average.value * (count as real) + accuracy.value
  {
    if average.NaN? || accuracy.NaN? then NaN
    else Divide(average.value * (count as real) + accuracy.value, (count + 1) as real)
  }

  /** The user's quiz counters. */
  class UserStats {
    var totalQuizzesTaken: nat
    var averageAccuracy: Number

    /** The schema defaults. */
    constructor ()
      ensures totalQuizzesTaken == 0 && averageAccuracy == Num(0.0)
    {
      totalQuizzesTaken := 0;
      averageAccuracy := Num(0.0);
    }

    /** The update after a submission: one more quiz, its accuracy folded into the average. */
    method RecordQuiz(accuracy: Number)
      modifies this
      ensures totalQuizzesTaken == old(totalQuizzesTaken) + 1
      ensures averageAccuracy ==
        RunningAverage(old(averageAccuracy), old(totalQuizzesTaken), accuracy)
    {
      totalQuizzesTaken := totalQuizzesTaken + 1;
      if averageAccuracy.NaN? || accuracy.NaN? {
        averageAccuracy := NaN;
      } else {
        averageAccuracy := Divide(
          averageAccuracy.value * ((totalQuizzesTaken - 1) as real) + accuracy.value,
          totalQuizzesTaken as real);
      }
    }
  }

  /** The average after recording `accuracies` in order, starting from the defaults. */
  function AverageAfter(accuracies: seq<Number>): (r: Number)
    ensures r.NaN? ==> exists i :: 0 <= i < |accuracies| && accuracies[i].NaN?
    decreases |accuracies|
  {
    if |accuracies| == 0 then Num(0.0)
    else
      var init := accuracies[..|accuracies| - 1];
      RunningAverage(AverageAfter(init), |init|, accuracies[|accuracies| - 1])
  }

  function Sum(xs: seq<Number>): real
    decreases |xs|
  {
    if |xs| == 0 then 0.0
    else Sum(xs[..|xs| - 1]) + (if xs[|xs| - 1].Num? then xs[|xs| - 1].value else 0.0)
  }

  /**
   * Starting from the defaults, the running average after a list of finite
   * accuracies is their mean; one NaN accuracy makes it NaN for good.
   */
  lemma {:induction false} RunningAverageIsMean(accuracies: seq<Number>)
    ensures (forall i :: 0 <= i < |accuracies| ==> accuracies[i].Num?) ==>
      AverageAfter(accuracies).Num? &&
      AverageAfter(accuracies).value * (|accuracies| as real) == Sum(accuracies)
    ensures (exists i :: 0 <= i < |accuracies| && accuracies[i].NaN?) ==>
      AverageAfter(accuracies).NaN?
    decreases |accuracies|
  {
    if |accuracies| > 0 {
      var init := accuracies[..|accuracies| - 1];
      var last := accuracies[|accuracies| - 1];
      assert forall i :: 0 <= i < |init| ==> init[i] == accuracies[i];
      RunningAverageIsMean(init);
      if last.NaN? {
      } else if exists i :: 0 <= i < |init| && init[i].NaN? {
      } else {
        assert AverageAfter(init).Num?;
      }
    }
  }

  // -------------------------------------------------------------- the route

  /** The route's response: 400, 500, or 201 with the stored attempt. */
  datatype Response =
    | BadRequest(error: string)
    | ServerError(error: string, details: string)
    | Created(attempt: QuizAttempt, stats: Stats, feedback: Feedback, categories: seq<CategoryScore>)

  /** The category and correctness of each stored answer, from the questions it refers to. */
  function GradedOf(db: map<string, Question>, answers: seq<AttemptAnswer>): seq<Graded>
    requires KnownQuestions(db, answers)
  {
    seq(|answers|, i requires 0 <= i < |answers| && answers[i].question in db =>
      (db[answers[i].question].category, answers[i].isCorrect))
  }

  /** The graded answers refer only to stored questions. */
  lemma ProcessedQuestionsKnown(db: map<string, Question>, list: seq<SubmittedAnswer>)
    requires forall id :: id in db ==> db[id].id == id
    requires ProcessAnswers(db, list).Ok?
    ensures KnownQuestions(db, ProcessAnswers(db, list).value)
  {
    var answers := ProcessAnswers(db, list).value;
    forall i | 0 <= i < |answers| ensures answers[i].question in db {
      assert answers[i] == Grade(db[list[i].questionId], list[i]);
    }
  }

  /** The score of category `c` from its counts in `g`; `c` occurs in `g`. */
  function ScoreIn(g: seq<Graded>, c: string): CategoryScore
    requires c in Categories(g)
  {
    Score(c, Tally(CorrectIn(g, c), CountIn(g, c)))
  }

  /** One score per category of `g`, in first-seen order. */
  predicate ScoresCategories(g: seq<Graded>, categories: seq<CategoryScore>) {
    && |categories| == |Dedup(Categories(g))|
    && forall k :: 0 <= k < |categories| ==> categories[k] == ScoreIn(g, Dedup(Categories(g))[k])
  }

  /** Every processed answer refers to a stored question. */
  predicate KnownQuestions(db: map<string, Question>, answers: seq<AttemptAnswer>) {
    forall i :: 0 <= i < |answers| ==> answers[i].question in db
  }

  /**
   * The category dictionary and its scores: one score per category, in
   * first-seen order, each the category's correct answers as a percentage
   * of its answers.
   */
  method CategoryReport(g: seq<Graded>) returns (categories: seq<CategoryScore>)
    ensures |categories| == |Dedup(Categories(g))|
    ensures forall k :: 0 <= k < |categories| ==> categories[k] == ScoreIn(g, Dedup(Categories(g))[k])
    ensures ScoresCategories(g, categories)
  {
    var names, tally := CategoryPerformance(g);
    forall k | 0 <= k < |names|
      ensures names[k] in tally && 0 < tally[names[k]].total
      ensures tally[names[k]].correct <= tally[names[k]].total
    {
      TallyBounds(g, names[k]);
    }
    categories := CategoryScores(names, tally);
  }

  /**
   * The `Number` fields of the stored statistics as Mongoose casts them:
   * NaN fails the cast, so `QuizAttempt.create` rejects the document.
   */
  predicate Storable(s: Stats) {
    s.accuracy.Num? && s.averageTimePerQuestion.Num?
  }

  /** The message of the rejected cast, for an attempt without answers. */
  const NaNCastError := "Cast to Number failed for value \"NaN\" at path \"stats.accuracy\""

  /** The statistics of an attempt can be stored exactly when it has answers. */
  lemma StorableExactlyWithAnswers(answers: seq<AttemptAnswer>)
    ensures Storable(StatsOf(answers)) <==> answers != []
  {
  }

  /**
   * `POST /submit` for a user against the question store `db`: rejects a
   * body without an answer array, aborts on the first unknown question or
   * when `create` rejects NaN statistics (no answers), and otherwise stores
   * the attempt and updates the user's counters.
   */
  method Submit(db: map<string, Question>, userId: string, user: UserStats, body: Body)
    returns (response: Response)
    requires forall id :: id in db ==> db[id].id == id
    modifies user
    ensures body.NotAnArray? ==>
      response == BadRequest("Invalid answers format") &&
      user.totalQuizzesTaken == old(user.totalQuizzesTaken) &&
      user.averageAccuracy == old(user.averageAccuracy)
    ensures body.Answers? && ProcessAnswers(db, body.list).Err? ==>
      response == ServerError("Error submitting quiz", ProcessAnswers(db, body.list).message) &&
      user.totalQuizzesTaken == old(user.totalQuizzesTaken) &&
      user.averageAccuracy == old(user.averageAccuracy)
    ensures body.Answers? && ProcessAnswers(db, body.list).Ok? && ProcessAnswers(db, body.list).value == [] ==>
      response == ServerError("Error submitting quiz", NaNCastError) &&
      user.totalQuizzesTaken == old(user.totalQuizzesTaken) &&
      user.averageAccuracy == old(user.averageAccuracy)
    ensures body.Answers? && ProcessAnswers(db, body.list).Ok? && ProcessAnswers(db, body.list).value != [] ==>
      var answers := ProcessAnswers(db, body.list).value;
      var stats := StatsOf(answers);
      && response.Created?
      && stats.accuracy.Num? && stats.averageTimePerQuestion.Num?
      && fresh(response.attempt)
      && response.stats == stats
      && response.feedback == GenerateFeedback(stats)
      && response.attempt.user == userId
      && response.attempt.answers == answers
      && response.attempt.stats == stats
      && response.attempt.feedback ==
           SplitFeedback(response.feedback.recommendations, response.feedback.nextSteps.action)
      && response.attempt.categories == response.categories
      && user.totalQuizzesTaken == old(user.totalQuizzesTaken) + 1
      && user.averageAccuracy ==
           RunningAverage(old(user.averageAccuracy), old(user.totalQuizzesTaken), stats.accuracy)
    ensures body.Answers? && ProcessAnswers(db, body.list).Ok? && ProcessAnswers(db, body.list).value != [] ==>
      var answers := ProcessAnswers(db, body.list).value;
      KnownQuestions(db, answers) && ScoresCategories(GradedOf(db, answers), response.categories)
  {
    if body.NotAnArray? {
      return BadRequest("Invalid answers format");
    }
    var processed := ProcessAnswers(db, body.list);
    if processed.Err? {
      return ServerError("Error submitting quiz", processed.message);
    }
    var answers := processed.value;
    var stats := InlineStats(answers);
    if !Storable(stats) {
      // the route builds the feedback and the categories before `create`; both are pure
      return ServerError("Error submitting quiz", NaNCastError);
    }
    var feedback := GenerateFeedback(stats);
    ProcessedQuestionsKnown(db, body.list);
    var categories := CategoryReport(GradedOf(db, answers));
    var attempt := new QuizAttempt(userId, answers, stats,
      SplitFeedback(feedback.recommendations, feedback.nextSteps.action), categories);
    user.RecordQuiz(stats.accuracy);
    response := Created(attempt, stats, feedback, categories);
  }
}
