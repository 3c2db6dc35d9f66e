/**
 * Quiz-level feedback: the accuracy is classified into one of five levels,
 * and each level selects a message, three recommendations and a next-steps
 * record from static tables keyed by the level's name.
 */
module PerformanceFeedback {
  import opened JsValues
  import opened QuizAttemptModel

  /** The performance levels, best first. */
  datatype Level = Excellent | VeryGood | Good | Fair | NeedsImprovement

  /** The name the service gives a level; two of them contain a space. */
  function Name(l: Level): string {
    match l
    case Excellent => "excellent"
    case VeryGood => "very good"
    case Good => "good"
    case Fair => "fair"
    case NeedsImprovement => "needs improvement"
  }

  /** Position of a level in the order best to worst. */
  function Rank(l: Level): nat {
    match l
    case Excellent => 0
    case VeryGood => 1
    case Good => 2
    case Fair => 3
    case NeedsImprovement => 4
  }

  /**
   * `analyzePerformanceLevel`: inclusive lower thresholds 90, 80, 70, 60.
   * An accuracy that is NaN fails every comparison.
   */
  function AnalyzePerformanceLevel(accuracy: Number): (l: Level)
    ensures l == Excellent <==> AtLeast(accuracy, 90.0)
    ensures l == VeryGood <==> AtLeast(accuracy, 80.0) && !AtLeast(accuracy, 90.0)
    ensures l == Good <==> AtLeast(accuracy, 70.0) && !AtLeast(accuracy, 80.0)
    ensures l == Fair <==> AtLeast(accuracy, 60.0) && !AtLeast(accuracy, 70.0)
    ensures l == NeedsImprovement <==> !AtLeast(accuracy, 60.0)
  {
    if AtLeast(accuracy, 90.0) then Excellent
    else if AtLeast(accuracy, 80.0) then VeryGood
    else if AtLeast(accuracy, 70.0) then Good
    else if AtLeast(accuracy, 60.0) then Fair
    else NeedsImprovement
  }

  /** A higher accuracy never yields a worse level. */
  lemma LevelMonotone(a: real, b: real)
    requires a <= b
    ensures Rank(AnalyzePerformanceLevel(Num(b))) <= Rank(AnalyzePerformanceLevel(Num(a)))
  {
  }

  /** A piece of a message: literal text, or a number rendered by JavaScript. */
  datatype Piece = Text(text: string) | Value(number: Number)

  type Message = seq<Piece>

  datatype NextSteps = NextSteps(action: string, suggestedTopics: seq<string>, practiceCount: nat)

  datatype Performance = Performance(
    level: string,
    score: Number,
    correctAnswers: nat,
    totalQuestions: nat,
    message: Message)

  datatype Feedback = Feedback(
    performance: Performance,
    recommendations: seq<string>,
    nextSteps: NextSteps)

  /** `table[level] || table['fair']`. */
  function ByLevel<V>(table: map<string, V>, level: string): V
    requires "fair" in table
  {
    if level in table then table[level] else table["fair"]
  }

  /** The part of every message after its level-specific opening. */
  function ScoreSentence(q: Stats): Message {
    [Text("You scored "), Value(q.accuracy), Text("% with "),
     Value(Num(q.correctAnswers as real)), Text(" correct answers out of "),
     Value(Num(q.totalQuestions as real)), Text(".")]
  }

  function MessageTable(q: Stats): map<string, Message> {
    map[
      "excellent" := [Text("Outstanding! ")] + ScoreSentence(q),
      "very good" := [Text("Great work! ")] + ScoreSentence(q),
      "good" := [Text("Good job! ")] + ScoreSentence(q),
      "fair" := [Text("You're making progress. ")] + ScoreSentence(q),
      "needs improvement" := [Text("Keep practicing! ")] + ScoreSentence(q)
    ]
  }

  const RecommendationTable: map<string, seq<string>> := map[
    "excellent" := [
      "Challenge yourself with more advanced topics",
      "Try questions with shorter time limits",
      "Help others understand difficult concepts"],
    "very good" := [
      "Focus on the few questions you missed",
      "Practice more complex scenarios",
      "Review advanced concepts"],
    "good" := [
      "Review the questions you missed",
      "Practice similar questions more",
      "Focus on understanding core concepts"],
    "fair" := [
      "Focus on basic concepts first",
      "Take more practice quizzes",
      "Spend more time on each question"],
    "needs improvement" := [
      "Review fundamental concepts",
      "Start with easier questions",
      "Consider using additional study resources"]
  ]

  const NextStepsTable: map<string, NextSteps> := map[
    "excellent" := NextSteps("Advance to next level",
      ["Advanced concepts", "Complex problem-solving", "Teaching others"], 5),
    "very good" := NextSteps("Reinforce and advance",
      ["Missed concepts", "Advanced applications", "Time management"], 7),
    "good" := NextSteps("Practice and improve",
      ["Core concepts", "Problem areas", "Timed practice"], 10),
    "fair" := NextSteps("Review and practice",
      ["Basic concepts", "Fundamental principles", "Practice exercises"], 12),
    "needs improvement" := NextSteps("Focus on basics",
      ["Foundational concepts", "Basic principles", "Simple exercises"], 15)
  ]

  /** The opening words of a level's message. */
  function Opening(l: Level): string {
    match l
    case Excellent => "Outstanding! "
    case VeryGood => "Great work! "
    case Good => "Good job! "
    case Fair => "You're making progress. "
    case NeedsImprovement => "Keep practicing! "
  }

  /** The number of practice questions each level asks for, best level first. */
  const PracticeCounts: seq<nat> := [5, 7, 10, 12, 15]

  /**
   * `getPerformanceMessage`: a level's opening followed by the score
   * sentence; a level name outside the table gets the `fair` opening.
   */
  function GetPerformanceMessage(level: string, q: Stats): (m: Message)
    ensures forall l :: level == Name(l) ==> m == [Text(Opening(l))] + ScoreSentence(q)
    ensures (forall l :: level != Name(l)) ==> m == [Text(Opening(Fair))] + ScoreSentence(q)
  {
    assert (forall l :: level != Name(l)) ==>
      level != Name(Excellent) && level != Name(VeryGood) && level != Name(Good) &&
      level != Name(Fair) && level != Name(NeedsImprovement);
    ByLevel(MessageTable(q), level)
  }

  function GetPerformanceFeedback(q: Stats): (p: Performance)
    ensures p.score == q.accuracy
    ensures p.correctAnswers == q.correctAnswers && p.totalQuestions == q.totalQuestions
    ensures var l := AnalyzePerformanceLevel(q.accuracy);
      p.level == Name(l) && p.message == [Text(Opening(l))] + ScoreSentence(q)
  {
    var level := Name(AnalyzePerformanceLevel(q.accuracy));
    Performance(level, q.accuracy, q.correctAnswers, q.totalQuestions, GetPerformanceMessage(level, q))
  }

  /** `getRecommendations`: the level's own three recommendations; the `fair` default is never used. */
  function GetRecommendations(q: Stats): (r: seq<string>)
    ensures var l := Name(AnalyzePerformanceLevel(q.accuracy));
      l in RecommendationTable && r == RecommendationTable[l]
    ensures |r| == 3
  {
    ByLevel(RecommendationTable, Name(AnalyzePerformanceLevel(q.accuracy)))
  }

  /** `getNextSteps`: three topics, and the practice count of the level's rank. */
  function GetNextSteps(q: Stats): (r: NextSteps)
    ensures var l := AnalyzePerformanceLevel(q.accuracy);
      Name(l) in NextStepsTable && r == NextStepsTable[Name(l)] && r.practiceCount == PracticeCounts[Rank(l)]
    ensures |r.suggestedTopics| == 3
  {
    ByLevel(NextStepsTable, Name(AnalyzePerformanceLevel(q.accuracy)))
  }

  /** `generateFeedback`: the bundle for the level of `q.accuracy`. */
  function GenerateFeedback(q: Stats): (f: Feedback)
    ensures var l := AnalyzePerformanceLevel(q.accuracy);
      && f.performance.level == Name(l)
      && |f.recommendations| == 3 && f.recommendations == RecommendationTable[Name(l)]
      && f.nextSteps.practiceCount == PracticeCounts[Rank(l)]
  {
    Feedback(GetPerformanceFeedback(q), GetRecommendations(q), GetNextSteps(q))
  }

  /** `getFallbackFeedback`: the level-independent bundle. */
  function GetFallbackFeedback(q: Stats): (f: Feedback)
    ensures f.performance == GetPerformanceFeedback(q)
    ensures |f.recommendations| == 3
    ensures f.nextSteps.action == "Practice more" && f.nextSteps.practiceCount == 10
    ensures |f.nextSteps.suggestedTopics| == 2
  {
    Feedback(
      GetPerformanceFeedback(q),
      ["Continue practicing regularly", "Review incorrect answers", "Focus on understanding core concepts"],
      NextSteps("Practice more", ["Review basics", "Core concepts"], 10))
  }

  /**
   * Every level has its own entry in each table, so the `'fair'` default is
   * never used; each bundle has three recommendations, three topics, the
   * level's practice count, and a message that opens with the level's words.
   */
  lemma FeedbackShape(q: Stats)
    ensures var l := AnalyzePerformanceLevel(q.accuracy);
      var f := GenerateFeedback(q);
      && Name(l) in MessageTable(q) && Name(l) in RecommendationTable && Name(l) in NextStepsTable
      && f.performance.level == Name(l)
      && f.performance.message == [Text(Opening(l))] + ScoreSentence(q)
      && |f.recommendations| == 3
      && |f.nextSteps.suggestedTopics| == 3
      && f.nextSteps.practiceCount == PracticeCounts[Rank(l)]
  {
  }

  /** The practice count strictly increases as the level worsens. */
  lemma PracticeCountGrowsAsLevelWorsens(l1: Level, l2: Level)
    requires Rank(l1) < Rank(l2)
    ensures NextStepsTable[Name(l1)].practiceCount < NextStepsTable[Name(l2)].practiceCount
  {
  }

  /** A lower accuracy never asks for fewer practice questions. */
  lemma PracticeCountAntitone(q1: Stats, q2: Stats)
    requires q1.accuracy.Num? && q2.accuracy.Num? && q1.accuracy.value <= q2.accuracy.value
    ensures GenerateFeedback(q2).nextSteps.practiceCount <= GenerateFeedback(q1).nextSteps.practiceCount
  {
    var l1 := AnalyzePerformanceLevel(q1.accuracy);
    var l2 := AnalyzePerformanceLevel(q2.accuracy);
    LevelMonotone(q1.accuracy.value, q2.accuracy.value);
    FeedbackShape(q1);
    FeedbackShape(q2);
    assert PracticeCounts[Rank(l2)] <= PracticeCounts[Rank(l1)];
  }

  /** The bundle for 15 correct answers out of 20 (75%). */
  lemma FeedbackForSeventyFivePercent()
    ensures var f := GenerateFeedback(Stats(20, 15, 600.0, Num(75.0), Num(30.0)));
      && f.performance.level == "good"
      && f.nextSteps.practiceCount == 10
      && Value(Num(75.0)) in f.performance.message
      && Value(Num(15.0)) in f.performance.message
      && Value(Num(20.0)) in f.performance.message
  {
    var q := Stats(20, 15, 600.0, Num(75.0), Num(30.0));
    FeedbackShape(q);
    assert GenerateFeedback(q).performance.message[2] == Value(Num(75.0));
  }
}
