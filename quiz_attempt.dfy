/**
 * The quiz-attempt document: the graded answers, the statistics derived
 * from them, the feedback split and the per-category accuracies, with the
 * `calculateStats` method that recomputes the statistics in place.
 */
module QuizAttemptModel {
  import opened JsValues

  /** One graded answer as stored in an attempt. */
  datatype AttemptAnswer = AttemptAnswer(
    question: string,
    userAnswer: string,
    isCorrect: bool,
    timeSpent: real)

  /** The `stats` record. `accuracy` is a percentage; both ratios are NaN for no answers. */
  datatype Stats = Stats(
    totalQuestions: nat,
    correctAnswers: nat,
    totalTime: real,
    accuracy: Number,
    averageTimePerQuestion: Number)

  datatype AttemptFeedback = AttemptFeedback(
    strengths: seq<string>,
    weaknesses: seq<string>,
    suggestions: seq<string>)

  datatype CategoryScore = CategoryScore(name: string, accuracy: real)

  /** `answers.filter(a => a.isCorrect).length`. */
  function CountCorrect(answers: seq<AttemptAnswer>): (r: nat)
    ensures r <= |answers|
    ensures r == 0 <==> forall i :: 0 <= i < |answers| ==> !answers[i].isCorrect
    ensures r == |answers| <==> forall i :: 0 <= i < |answers| ==> answers[i].isCorrect
    decreases |answers|
  {
    if |answers| == 0 then 0
    else
      var init := answers[..|answers| - 1];
      assert forall i :: 0 <= i < |init| ==> init[i] == answers[i];
      CountCorrect(init) + if answers[|answers| - 1].isCorrect then 1 else 0
  }

  /** `answers.reduce((sum, a) => sum + a.timeSpent, 0)`. */
  function TotalTime(answers: seq<AttemptAnswer>): (r: real)
    ensures answers == [] ==> r == 0.0
    decreases |answers|
  {
    if |answers| == 0 then 0.0
    else
      var init := answers[..|answers| - 1];
      assert forall i :: 0 <= i < |init| ==> init[i] == answers[i];
      TotalTime(init) + answers[|answers| - 1].timeSpent
  }

  /** Times that are never negative add up to a non-negative total. */
  lemma {:induction false} TotalTimeNonNegative(answers: seq<AttemptAnswer>)
    requires forall i :: 0 <= i < |answers| ==> answers[i].timeSpent >= 0.0
    ensures TotalTime(answers) >= 0.0
    decreases |answers|
  {
    if |answers| > 0 {
      var init := answers[..|answers| - 1];
      assert forall i :: 0 <= i < |init| ==> init[i] == answers[i];
      TotalTimeNonNegative(init);
    }
  }

  /**
   * The statistics of a list of answers. The divisions are unguarded in the
   * source, so an empty list yields NaN ratios.
   */
  function StatsOf(answers: seq<AttemptAnswer>): (s: Stats)
    ensures s.totalQuestions == |answers|
    ensures s.correctAnswers <= s.totalQuestions
    ensures s.totalTime == TotalTime(answers)
    ensures s.accuracy.NaN? <==> answers == []
    ensures s.averageTimePerQuestion.NaN? <==> answers == []
    ensures s.accuracy.Num? ==>
      0.0 <= s.accuracy.value <= 100.0 &&
      s.accuracy.value * (s.totalQuestions as real) == 100.0 * (s.correctAnswers as real)
    ensures s.averageTimePerQuestion.Num? ==>
      s.averageTimePerQuestion.value * (s.totalQuestions as real) == s.totalTime
  {
    Stats(|answers|, CountCorrect(answers), TotalTime(answers),
          Percent(CountCorrect(answers) as real, |answers| as real),
          Divide(TotalTime(answers), |answers| as real))
  }

  /** The stored count of correct answers is the number of answers marked correct. */
  lemma CorrectAnswersCounted(answers: seq<AttemptAnswer>)
    ensures StatsOf(answers).correctAnswers == CountCorrect(answers)
    ensures StatsOf(answers).correctAnswers == 0 <==>
      forall i :: 0 <= i < |answers| ==> !answers[i].isCorrect
  {
  }

  /** Perfect and zero scores: accuracy is 100 exactly when every answer is correct. */
  lemma AccuracyExtremes(answers: seq<AttemptAnswer>)
    requires answers != []
    ensures StatsOf(answers).accuracy == Num(100.0) <==>
      forall i :: 0 <= i < |answers| ==> answers[i].isCorrect
    ensures StatsOf(answers).accuracy == Num(0.0) <==>
      forall i :: 0 <= i < |answers| ==> !answers[i].isCorrect
  {
    PercentExtremes(CountCorrect(answers) as real, |answers| as real);
  }

  /** A stored attempt. The `user` reference is its id. */
  class QuizAttempt {
    const user: string
    var answers: seq<AttemptAnswer>
    var stats: Stats
    var feedback: AttemptFeedback
    var categories: seq<CategoryScore>

    /** `QuizAttempt.create({...})`: a document holding exactly the given fields. */
    constructor (user: string, answers: seq<AttemptAnswer>, stats: Stats,
                 feedback: AttemptFeedback, categories: seq<CategoryScore>)
      ensures this.user == user && this.answers == answers && this.stats == stats
      ensures this.feedback == feedback && this.categories == categories
    {
      this.user := user;
      this.answers := answers;
      this.stats := stats;
      this.feedback := feedback;
      this.categories := categories;
    }

    /** Recomputes `stats` from `answers`; no other field changes. */
    method CalculateStats()
      modifies this`stats
      ensures stats == StatsOf(answers)
      ensures answers == old(answers) && feedback == old(feedback) && categories == old(categories)
    {
      var totalQuestions := |answers|;
      var correctAnswers := CountCorrect(answers);
      var totalTime := TotalTime(answers);
      stats := Stats(
        totalQuestions,
        correctAnswers,
        totalTime,
        Percent(correctAnswers as real, totalQuestions as real),
        Divide(totalTime, totalQuestions as real));
    }
  }
}
