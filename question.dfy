/**
 * The question document: its options, difficulty tier, tags and the
 * answer counters behind the `successRate` virtual.
 */
module QuestionModel {
  import opened JsValues

  datatype QuestionType = MultipleChoice | TrueFalse | OpenEnded

  /** One answer choice. The schema does not limit how many of them are correct. */
  datatype AnswerOption = AnswerOption(id: string, text: string, isCorrect: bool)

  datatype QuestionStats = QuestionStats(
    timesAnswered: real,
    timesCorrect: real,
    averageTime: real,
    difficultyRating: real)

  /**
   * A question. `difficulty` is kept as the stored string, because the
   * analysis code also handles strings outside the schema's enumeration.
   */
  datatype Question = Question(
    id: string,
    text: string,
    kind: QuestionType,
    options: seq<AnswerOption>,
    explanation: string,
    category: string,
    difficulty: string,
    tags: seq<string>,
    stats: QuestionStats)

  /** The difficulty tiers, easiest first. */
  const Difficulties: seq<string> := ["beginner", "intermediate", "advanced"]

  /** The schema's enumeration for `difficulty`. */
  predicate ValidDifficulty(d: string) {
    d in Difficulties
  }

  /** The counters a new question document starts with. */
  const InitialStats: QuestionStats := QuestionStats(0.0, 0.0, 0.0, 0.0)

  /** The `successRate` virtual: percentage of correct answers, 0 before any answer. */
  function SuccessRate(s: QuestionStats): (r: real)
    ensures s.timesAnswered <= 0.0 ==> r == 0.0
    ensures s.timesAnswered > 0.0 ==> r * s.timesAnswered == 100.0 * s.timesCorrect
    ensures 0.0 <= s.timesCorrect <= s.timesAnswered ==> 0.0 <= r <= 100.0
  {
    if s.timesAnswered > 0.0 then (s.timesCorrect / s.timesAnswered) * 100.0 else 0.0
  }

  /** A new question has no answers yet, so its success rate is 0. */
  lemma InitialSuccessRate()
    ensures InitialStats.timesAnswered == 0.0 && SuccessRate(InitialStats) == 0.0
  {
  }

  /** `options.find(opt => opt._id.toString() === id)`: the first option with that id. */
  function FindById(options: seq<AnswerOption>, id: string): (r: Option<AnswerOption>)
    ensures r.None? <==> forall i :: 0 <= i < |options| ==> options[i].id != id
    ensures r.Some? ==>
      exists i :: 0 <= i < |options| && options[i] == r.value && r.value.id == id &&
        forall j :: 0 <= j < i ==> options[j].id != id
    decreases |options|
  {
    if |options| == 0 then None
    else if options[0].id == id then Some(options[0])
    else
      var r := FindById(options[1..], id);
      assert forall j :: 1 <= j < |options| ==> options[j] == options[1..][j - 1];
      r
  }

  /** `options.find(opt => opt.isCorrect)`: the first correct option. */
  function FindCorrect(options: seq<AnswerOption>): (r: Option<AnswerOption>)
    ensures r.None? <==> forall i :: 0 <= i < |options| ==> !options[i].isCorrect
    ensures r.Some? ==>
      exists i :: 0 <= i < |options| && options[i] == r.value && r.value.isCorrect &&
        forall j :: 0 <= j < i ==> !options[j].isCorrect
    decreases |options|
  {
    if |options| == 0 then None
    else if options[0].isCorrect then Some(options[0])
    else
      var r := FindCorrect(options[1..]);
      assert forall j :: 1 <= j < |options| ==> options[j] == options[1..][j - 1];
      r
  }

  /** `selectedOption?.isCorrect || false`. */
  function SelectionIsCorrect(selected: Option<AnswerOption>): bool {
    selected.Some? && selected.value.isCorrect
  }

  /**
   * The correctness of choosing option `id`: that of the first option with
   * that id, false when no option has it.
   */
  lemma SelectionCorrectness(options: seq<AnswerOption>, id: string)
    ensures SelectionIsCorrect(FindById(options, id)) <==>
      exists i :: 0 <= i < |options| && options[i].id == id && options[i].isCorrect &&
        forall j :: 0 <= j < i ==> options[j].id != id
  {
    var r := FindById(options, id);
    if r.Some? {
      var i :| 0 <= i < |options| && options[i] == r.value && r.value.id == id &&
        forall j :: 0 <= j < i ==> options[j].id != id;
      forall k | 0 <= k < |options| && options[k].id == id &&
        forall j :: 0 <= j < k ==> options[j].id != id
        ensures k == i
      {
      }
    }
  }
}
