/**
 * Per-question analysis: the understanding level and suggestion for the
 * chosen option, an explanation built from static tables keyed by category
 * and tag, the related topics, a practice recommendation with a saturating
 * difficulty step, and the reduced analysis used when the full one throws.
 */
module QuestionAnalysis {
  import opened JsValues
  import opened Lookup
  import opened QuestionModel

  // ------------------------------------------------------------- the tables

  /**
   * The `misconceptions` table, category then tag. It is read two levels
   * deep, so what a hit yields is the innermost record of three strings.
   */
  const Misconceptions: map<string, map<string, seq<(string, string)>>> := map[
    "neuroscience" := map[
      "neurons" := [
        ("function", "Review the basic functions of neurons, focusing on signal transmission."),
        ("structure", "Study the structural components of neurons and their specific roles."),
        ("types", "Learn about different types of neurons and their specialized functions.")],
      "brain" := [
        ("anatomy", "Focus on brain anatomy and the functions of different regions."),
        ("physiology", "Study brain physiology and how different parts work together."),
        ("pathways", "Review neural pathways and information flow in the brain.")]
    ]
  ]

  /** The `misconceptionMap` table, tag then the text of the chosen option. */
  const MisconceptionMap: map<string, map<string, string>> := map[
    "neurons" := map[
      "To produce hormones" :=
        "Neurons primarily transmit signals; hormone production is mainly done by endocrine cells.",
      "To filter blood" :=
        "Blood filtration is done by the kidneys; neurons are specialized for signal transmission.",
      "To store memories" :=
        "While neurons are involved in memory, their primary function is signal transmission."
    ],
    "brain anatomy" := map[
      "Cerebellum" := "The cerebellum is primarily involved in motor control and balance.",
      "Medulla" := "The medulla controls automatic functions like breathing and heart rate.",
      "Thalamus" := "The thalamus is a relay station for sensory and motor signals."
    ]
  ]

  /** The `keyPoints` table, category then tag. */
  const KeyPointTable: map<string, map<string, seq<string>>> := map[
    "neuroscience" := map[
      "neurons" := [
        "Neurons are specialized cells for signal transmission",
        "They have distinct structural components (dendrites, axon, cell body)",
        "They communicate through electrical and chemical signals"],
      "brain anatomy" := [
        "Different brain regions have specialized functions",
        "Brain regions work together in networks",
        "Structure relates directly to function"]
    ]
  ]

  /** The `relatedTopicsMap` table, category then tag. */
  const RelatedTopicsMap: map<string, map<string, seq<string>>> := map[
    "neuroscience" := map[
      "neurons" := ["Neurotransmitters", "Action Potentials", "Synaptic Transmission"],
      "brain anatomy" := ["Neural Circuits", "Brain Development", "Neuroplasticity"]
    ]
  ]

  /** `table[category]?.`: the inner table of a category, empty when there is none. */
  function CategoryTable<V>(tables: map<string, map<string, V>>, category: string): map<string, V> {
    if category in tables then tables[category] else map[]
  }

  // ------------------------------------------------- concept understanding

  datatype Understanding = Unknown | Good | NeedsImprovement

  /** The level names; the third is spelled with an underscore. */
  function UnderstandingName(u: Understanding): string {
    match u
    case Unknown => "unknown"
    case Good => "good"
    case NeedsImprovement => "needs_improvement"
  }

  /** A suggestion is a string, except that a misconception hit yields the table's record. */
  datatype Suggestion = Text(text: string) | Record(entries: seq<(string, string)>)

  datatype ConceptFeedback = ConceptFeedback(level: Understanding, suggestion: Suggestion)

  function GenericSuggestion(q: Question): string {
    "Review " + q.category + " fundamentals, particularly regarding " + Join(q.tags, ", ") + "."
  }

  /**
   * The suggestion for a wrong answer: the record of the first lowercased
   * tag found under the lowercased category, otherwise the generic text.
   */
  function MisconceptionSuggestion(q: Question): (r: Suggestion)
    ensures r.Text? <==>
      forall i :: 0 <= i < |q.tags| ==>
        ToLower(q.tags[i]) !in CategoryTable(Misconceptions, ToLower(q.category))
    ensures r.Text? ==> r.text == GenericSuggestion(q)
    ensures r.Record? ==>
      var table := CategoryTable(Misconceptions, ToLower(q.category));
      exists i :: 0 <= i < |q.tags| && ToLower(q.tags[i]) in table &&
        r.entries == table[ToLower(q.tags[i])] &&
        forall j :: 0 <= j < i ==> ToLower(q.tags[j]) !in table
  {
    var tags := LowerAll(q.tags);
    assert forall i :: 0 <= i < |q.tags| ==> tags[i] == ToLower(q.tags[i]);
    var hit := FirstHit(tags, CategoryTable(Misconceptions, ToLower(q.category)));
    if hit.Some? then Record(hit.value) else Text(GenericSuggestion(q))
  }

  /**
   * `generateMisconceptionFeedback`: scans the lowercased tags and keeps the
   * first table hit.
   */
  method GenerateMisconceptionFeedback(q: Question) returns (f: ConceptFeedback)
    ensures f == ConceptFeedback(NeedsImprovement, MisconceptionSuggestion(q))
  {
    var table := CategoryTable(Misconceptions, ToLower(q.category));
    var tags := LowerAll(q.tags);
    f := ConceptFeedback(NeedsImprovement, Text(GenericSuggestion(q)));
    var i := 0;
    while i < |tags|
      invariant 0 <= i <= |tags|
      invariant forall j :: 0 <= j < i ==> tags[j] !in table
      invariant f == ConceptFeedback(NeedsImprovement, Text(GenericSuggestion(q)))
    {
      if tags[i] in table {
        FirstHitAt(tags, table, i);
        f := f.(suggestion := Record(table[tags[i]]));
        return;
      }
      i := i + 1;
    }
  }

  const InvalidChoiceSuggestion := "Please provide a valid answer choice."

  function CorrectChoiceSuggestion(q: Question): string {
    "Excellent understanding of " + q.category + ". Consider exploring more advanced topics in this area."
  }

  /**
   * `analyzeConceptUnderstanding`: unknown without a chosen option, good for
   * a correct one, otherwise the misconception feedback.
   */
  method AnalyzeConceptUnderstanding(q: Question, selected: Option<AnswerOption>)
    returns (f: ConceptFeedback)
    ensures f.level == Unknown <==> selected.None?
    ensures f.level == Good <==> SelectionIsCorrect(selected)
    ensures selected.None? ==> f.suggestion == Text(InvalidChoiceSuggestion)
    ensures SelectionIsCorrect(selected) ==> f.suggestion == Text(CorrectChoiceSuggestion(q))
    ensures selected.Some? && !selected.value.isCorrect ==>
      f == ConceptFeedback(NeedsImprovement, MisconceptionSuggestion(q))
  {
    if selected.None? {
      return ConceptFeedback(Unknown, Text(InvalidChoiceSuggestion));
    }
    if selected.value.isCorrect {
      return ConceptFeedback(Good, Text(CorrectChoiceSuggestion(q)));
    }
    f := GenerateMisconceptionFeedback(q);
  }

  // ------------------------------------------------------------ explanation

  /** The tags under which `misconceptionMap` explains choosing `text`, with that explanation. */
  function ExplanationsFor(text: string): map<string, string> {
    map tag | tag in MisconceptionMap && text in MisconceptionMap[tag] :: MisconceptionMap[tag][text]
  }

  /** The explanation used when no tag explains the chosen text. */
  function GenericExplanation(q: Question): string {
    "The answer you chose suggests a common misconception about " + q.category +
    ". Review the fundamental concepts and pay attention to " + Join(q.tags, ", ") + "."
  }

  /**
   * `getSpecificMisconceptionExplanation`: the explanation of the first raw
   * tag that explains the chosen text; the category is not consulted except
   * in the generic text.
   */
  function GetSpecificMisconceptionExplanation(q: Question, selected: AnswerOption): (r: string)
    ensures (forall i :: 0 <= i < |q.tags| ==> q.tags[i] !in ExplanationsFor(selected.text)) ==>
      r == GenericExplanation(q)
  {
    var hit := FirstHit(q.tags, ExplanationsFor(selected.text));
    if hit.Some? then hit.value else GenericExplanation(q)
  }

  /** When some raw tag explains the chosen text, the first such tag's explanation is used. */
  lemma SpecificExplanationFirstHit(q: Question, selected: AnswerOption, i: nat)
    requires i < |q.tags| && q.tags[i] in ExplanationsFor(selected.text)
    requires forall j :: 0 <= j < i ==> q.tags[j] !in ExplanationsFor(selected.text)
    ensures GetSpecificMisconceptionExplanation(q, selected) == MisconceptionMap[q.tags[i]][selected.text]
  {
    var table := ExplanationsFor(selected.text);
    FirstHitAt(q.tags, table, i);
  }

  /** The three bullets used when no tag has key points. */
  function GenericKeyPoints(q: Question): seq<string> {
    ["• Focus on understanding the core concepts of " + q.category,
     "• Review the relationship between different components",
     "• Practice similar questions to reinforce understanding"]
  }

  /**
   * `getKeyPoints`, one bullet per line: the points of every raw tag found
   * under the lowercased category, in tag order, or the generic bullets.
   */
  function GetKeyPoints(q: Question): (r: seq<string>)
    ensures var points := AllHits(q.tags, CategoryTable(KeyPointTable, ToLower(q.category)));
      points == [] ==> r == GenericKeyPoints(q)
    ensures var points := AllHits(q.tags, CategoryTable(KeyPointTable, ToLower(q.category)));
      points != [] ==> |r| == |points| && forall i :: 0 <= i < |points| ==> r[i] == "• " + points[i]
  {
    var points := AllHits(q.tags, CategoryTable(KeyPointTable, ToLower(q.category)));
    if points == [] then GenericKeyPoints(q)
    else seq(|points|, i requires 0 <= i < |points| => "• " + points[i])
  }

  const NoAnswerExplanation := "No answer was selected. Make sure to choose an answer for each question."

  /**
   * The segments of the explanation of a wrong answer, in template order:
   * the correct option, the stored explanation, the chosen option, why it
   * is wrong, and the key points one per line.
   */
  function WrongAnswerExplanation(q: Question, selected: AnswerOption, correct: AnswerOption)
    : (r: seq<string>)
    ensures |r| == 6 && r[1] == q.explanation
    ensures r[3] == GetSpecificMisconceptionExplanation(q, selected)
    ensures r[5] != ""
  {
    WrongAnswerSegments(correct.text, q.explanation, selected.text,
      GetSpecificMisconceptionExplanation(q, selected), KeyPointsText(q))
  }

  /** The template of a wrong answer's explanation, filled with its five parts. */
  function WrongAnswerSegments(correctText: string, explanation: string, chosenText: string,
                               why: string, keyPoints: string): (r: seq<string>)
    ensures |r| == 6 && r[1] == explanation && r[3] == why && r[5] == keyPoints
  {
    ["The correct answer was: \"" + correctText + "\"",
     explanation,
     "Your answer \"" + chosenText + "\" is incorrect because:",
     why,
     "Key points to remember:",
     keyPoints]
  }

  /** `getKeyPoints(question)` as interpolated into the template: never empty. */
  function KeyPointsText(q: Question): (r: string)
    ensures r != ""
  {
    var points := GetKeyPoints(q);
    assert points != [] && points[0] != "";
    JoinNonEmpty(points, "\n");
    Join(points, "\n")
  }

  function CorrectAnswerExplanation(q: Question): (r: string)
    ensures StartsWith(r, "Correct! ")
  {
    "Correct! " + q.explanation + " This demonstrates good understanding of " + q.category + "."
  }

  /**
   * `generateExplanation`, as its list of segments. Reading the text of a
   * missing correct option throws; that outcome is `None`.
   */
  function GenerateExplanation(q: Question, selected: Option<AnswerOption>,
                               correct: Option<AnswerOption>): (r: Option<seq<string>>)
    ensures r.None? <==> selected.Some? && !selected.value.isCorrect && correct.None?
    ensures selected.None? ==> r == Some([NoAnswerExplanation])
    ensures SelectionIsCorrect(selected) ==> r == Some([CorrectAnswerExplanation(q)])
    ensures selected.Some? && !selected.value.isCorrect && correct.Some? ==>
      r == Some(WrongAnswerExplanation(q, selected.value, correct.value))
  {
    if selected.None? then Some([NoAnswerExplanation])
    else if selected.value.isCorrect then Some([CorrectAnswerExplanation(q)])
    else if correct.None? then None
    else Some(WrongAnswerExplanation(q, selected.value, correct.value))
  }

  // --------------------------------------------------------- related topics

  /** Extending the keys by one appends that key's entry to the hits. */
  lemma AllHitsSnoc<V(!new)>(keys: seq<string>, table: map<string, seq<V>>, i: nat)
    requires i < |keys|
    ensures AllHits(keys[..i + 1], table) == AllHits(keys[..i], table) + EntryOrEmpty(table, keys[i])
  {
    assert keys[..i + 1][..i] == keys[..i];
  }

  /** Adds the topics of one entry to the set, in order. */
  method AddTopics(topics: seq<string>, ghost seen: seq<string>, entry: seq<string>)
    returns (r: seq<string>)
    requires topics == Dedup(seen)
    ensures r == Dedup(seen + entry)
  {
    r := topics;
    assert seen + entry[..0] == seen;
    for j := 0 to |entry|
      invariant r == Dedup(seen + entry[..j])
    {
      AddStep(seen, entry, j, r);
      if entry[j] !in r {
        r := r + [entry[j]];
      }
    }
    assert entry[..|entry|] == entry;
  }

  /** Adding `entry[j]` to the set of everything before it. */
  lemma AddStep(seen: seq<string>, entry: seq<string>, j: nat, r: seq<string>)
    requires j < |entry| && r == Dedup(seen + entry[..j])
    ensures Dedup(seen + entry[..j + 1]) == if entry[j] in r then r else r + [entry[j]]
  {
    DedupSnoc(seen + entry[..j], entry[j]);
    assert seen + entry[..j + 1] == seen + entry[..j] + [entry[j]];
  }

  /**
   * `getRelatedTopics`: every topic of every raw tag found under the
   * lowercased category goes into a set; the result lists the set in
   * insertion order.
   */
  method GetRelatedTopics(category: string, tags: seq<string>) returns (topics: seq<string>)
    ensures topics == Dedup(AllHits(tags, CategoryTable(RelatedTopicsMap, ToLower(category))))
    ensures Distinct(topics)
  {
    var table := CategoryTable(RelatedTopicsMap, ToLower(category));
    topics := [];
    for i := 0 to |tags|
      invariant topics == Dedup(AllHits(tags[..i], table))
    {
      topics := AddTopics(topics, AllHits(tags[..i], table), EntryOrEmpty(table, tags[i]));
      AllHitsSnoc(tags, table, i);
    }
    assert tags[..|tags|] == tags;
  }

  /** A topic is related exactly when some tag's entry under the category lists it. */
  lemma RelatedTopicsMembers(category: string, tags: seq<string>, topic: string)
    ensures var table := CategoryTable(RelatedTopicsMap, ToLower(category));
      topic in Dedup(AllHits(tags, table)) <==>
        exists i :: 0 <= i < |tags| && tags[i] in table && topic in table[tags[i]]
  {
  }

  // ------------------------------------------------------ practice and step

  /** `Array.prototype.indexOf`: the first position of `x`, or -1. */
  function IndexOf(s: seq<string>, x: string): (i: int)
    ensures -1 <= i < |s|
    ensures i == -1 <==> x !in s
    ensures 0 <= i ==> s[i] == x && forall j :: 0 <= j < i ==> s[j] != x
    decreases |s|
  {
    if |s| == 0 then -1
    else if s[0] == x then 0
    else
      var k := IndexOf(s[1..], x);
      assert forall j :: 1 <= j < |s| ==> s[j] == s[1..][j - 1];
      if k == -1 then -1 else k + 1
  }

  /** `getNextDifficulty`: one tier up, staying at the top; an unknown tier gives the first. */
  function GetNextDifficulty(current: string): (r: string)
    ensures ValidDifficulty(r)
    ensures !ValidDifficulty(current) ==> r == Difficulties[0]
    ensures ValidDifficulty(current) ==>
      var i := IndexOf(Difficulties, current);
      IndexOf(Difficulties, r) == if i + 1 < |Difficulties| then i + 1 else i
  {
    var i := IndexOf(Difficulties, current);
    if i < |Difficulties| - 1 then Difficulties[i + 1] else current
  }

  /** The three tiers step as the schema orders them. */
  lemma NextDifficultySteps()
    ensures GetNextDifficulty("beginner") == "intermediate"
    ensures GetNextDifficulty("intermediate") == "advanced"
    ensures GetNextDifficulty("advanced") == "advanced"
  {
    assert IndexOf(Difficulties, "beginner") == 0;
    assert IndexOf(Difficulties, "intermediate") == 1;
    assert IndexOf(Difficulties, "advanced") == 2;
  }

  /** From any string, three steps reach the top tier; an unknown tier first becomes beginner. */
  lemma NextDifficultyReachesTop(d: string)
    ensures GetNextDifficulty(GetNextDifficulty(GetNextDifficulty(d))) == "advanced"
  {
    NextDifficultySteps();
  }

  datatype PracticeRecommendation = PracticeRecommendation(
    nextDifficulty: string,
    focusAreas: seq<string>,
    recommendedCount: nat)

  /** `getPracticeRecommendation`. */
  function GetPracticeRecommendation(category: string, difficulty: string, isCorrect: bool)
    : (r: PracticeRecommendation)
    ensures |r.focusAreas| == 2
    ensures isCorrect ==>
      r.nextDifficulty == GetNextDifficulty(difficulty) && r.recommendedCount == 5 &&
      r.focusAreas[0] == "Advanced " + category + " concepts"
    ensures !isCorrect ==>
      r.nextDifficulty == difficulty && r.recommendedCount == 10 &&
      r.focusAreas[0] == category + " fundamentals"
  {
    if isCorrect then
      PracticeRecommendation(GetNextDifficulty(difficulty),
        ["Advanced " + category + " concepts", "Application-based questions"], 5)
    else
      PracticeRecommendation(difficulty,
        [category + " fundamentals", "Basic concept questions"], 10)
  }

  // -------------------------------------------------------- the analysis

  datatype Analysis = Analysis(
    topic: string,
    concept: string,
    isCorrect: bool,
    timeSpent: Option<real>,
    understanding: Understanding,
    suggestion: Suggestion,
    explanation: seq<string>,
    relatedTopics: seq<string>,
    practice: PracticeRecommendation)

  /** `getFallbackQuestionAnalysis`: the reduced analysis, without a time. */
  function GetFallbackQuestionAnalysis(q: Question, selectedOptionId: string): (r: Analysis)
    ensures r.isCorrect == SelectionIsCorrect(FindById(q.options, selectedOptionId))
    ensures r.understanding == (if r.isCorrect then Good else NeedsImprovement)
    ensures r.timeSpent.None? && r.explanation == [q.explanation]
    ensures r.relatedTopics == ["Basic " + q.category]
    ensures r.practice.nextDifficulty == q.difficulty && |r.practice.focusAreas| == 1
    ensures r.practice.recommendedCount == if r.isCorrect then 5 else 10
  {
    var isCorrect := SelectionIsCorrect(FindById(q.options, selectedOptionId));
    Analysis(
      q.category,
      q.text,
      isCorrect,
      None,
      if isCorrect then Good else NeedsImprovement,
      Text(if isCorrect then "Good understanding of " + q.category
           else "Review the concepts related to " + q.category),
      [q.explanation],
      ["Basic " + q.category],
      PracticeRecommendation(q.difficulty, [q.category + " fundamentals"], if isCorrect then 5 else 10))
  }

  /**
   * `analyzeQuestionResponse`: the full analysis, or the fallback when the
   * explanation cannot be built (a wrong answer to a question without a
   * correct option).
   */
  method AnalyzeQuestionResponse(q: Question, selectedOptionId: string, timeSpent: real)
    returns (r: Analysis)
    ensures var selected := FindById(q.options, selectedOptionId);
      && r.topic == q.category && r.concept == q.text
      && r.isCorrect == SelectionIsCorrect(selected)
      && (selected.None? ==>
            r.understanding == Unknown && r.suggestion == Text(InvalidChoiceSuggestion) &&
            r.explanation == [NoAnswerExplanation] &&
            r.timeSpent == Some(timeSpent) &&
            r.practice == GetPracticeRecommendation(q.category, q.difficulty, false))
      && (SelectionIsCorrect(selected) ==>
            r.understanding == Good && r.suggestion == Text(CorrectChoiceSuggestion(q)) &&
            r.timeSpent == Some(timeSpent) &&
            r.explanation == [CorrectAnswerExplanation(q)] &&
            r.practice == GetPracticeRecommendation(q.category, q.difficulty, true))
      && (selected.Some? && !selected.value.isCorrect && FindCorrect(q.options).None? ==>
            r == GetFallbackQuestionAnalysis(q, selectedOptionId))
      && (selected.Some? && !selected.value.isCorrect && FindCorrect(q.options).Some? ==>
            r.understanding == NeedsImprovement && r.suggestion == MisconceptionSuggestion(q) &&
            r.explanation == WrongAnswerExplanation(q, selected.value, FindCorrect(q.options).value) &&
            r.timeSpent == Some(timeSpent) &&
            r.practice == GetPracticeRecommendation(q.category, q.difficulty, false))
    ensures r.timeSpent.Some? ==>
      r.relatedTopics == Dedup(AllHits(q.tags, CategoryTable(RelatedTopicsMap, ToLower(q.category))))
  {
    var selected := FindById(q.options, selectedOptionId);
    var correct := FindCorrect(q.options);
    var explanation := GenerateExplanation(q, selected, correct);
    if explanation.None? {
      // reading the text of the missing correct option throws
      r := GetFallbackQuestionAnalysis(q, selectedOptionId);
      return;
    }
    var isCorrect := SelectionIsCorrect(selected);
    var understanding := AnalyzeConceptUnderstanding(q, selected);
    var related := GetRelatedTopics(q.category, q.tags);
    r := Analysis(
      q.category,
      q.text,
      isCorrect,
      Some(timeSpent),
      understanding.level,
      understanding.suggestion,
      explanation.value,
      related,
      GetPracticeRecommendation(q.category, q.difficulty, isCorrect));
  }

  // ------------------------------------------------------------ examples

  /** The first sample question, with option ids of our choosing. */
  const NeuronQuestion := Question(
    "q1",
    "What is the primary function of neurons in the nervous system?",
    MultipleChoice,
    [AnswerOption("a", "To transmit electrical and chemical signals", true),
     AnswerOption("b", "To produce hormones", false),
     AnswerOption("c", "To filter blood", false),
     AnswerOption("d", "To store memories", false)],
    "Neurons are specialized cells that transmit electrical and chemical signals throughout the nervous system.",
    "neuroscience",
    "beginner",
    ["neurons", "basics"],
    InitialStats)

  /** Choosing "To produce hormones" hits the specific explanation for the tag `neurons`. */
  lemma NeuronExplanationExample()
    ensures GetSpecificMisconceptionExplanation(NeuronQuestion, NeuronQuestion.options[1]) ==
      MisconceptionMap["neurons"]["To produce hormones"]
  {
    var q := NeuronQuestion;
    var text := q.options[1].text;
    assert text == "To produce hormones";
    assert "neurons" in MisconceptionMap && text in MisconceptionMap["neurons"];
    assert q.tags[0] == "neurons" && q.tags[0] in ExplanationsFor(text);
    SpecificExplanationFirstHit(q, q.options[1], 0);
  }

  /** A wrong answer to that question gets the `neurons` record as its suggestion. */
  lemma NeuronSuggestionExample()
    ensures MisconceptionSuggestion(NeuronQuestion) == Record(Misconceptions["neuroscience"]["neurons"])
  {
    var q := NeuronQuestion;
    assert ToLower("neurons") == "neurons";
    assert ToLower("basics") == "basics";
    assert LowerAll(q.tags) == ["neurons", "basics"];
    assert ToLower("neuroscience") == "neuroscience";
    var table := CategoryTable(Misconceptions, "neuroscience");
    assert "neurons" in table;
    FirstHitAt(LowerAll(q.tags), table, 0);
  }
}
