/** The quiz vocabulary: questions, their response modes, answers, the four
    personality results with their per-theme texts, and the fixed question
    sets. */
module Questions {

  /** How the user responds to a question. */
  datatype ResponseType = Single | Multiple | Ranged

  /** One selectable answer; it votes for exactly one result. */
  datatype Answer = Answer(text: string, animal: AnimalType)

  datatype Question = Question(text: string, kind: ResponseType, answers: seq<Answer>)

  /** The closed set of personality results. */
  datatype AnimalType = Lion | Cat | Rabbit | Turtle

  /** The raw value (one emoji character) of each case. */
  function RawValue(a: AnimalType): char
  {
    match a
    case Lion => '\U{1F981}'
    case Cat => '\U{1F431}'
    case Rabbit => '\U{1F430}'
    case Turtle => '\U{1F422}'
  }

  /** `AnimalType.allCases`: every case once, in declaration order. */
  function AllCases(): (r: seq<AnimalType>)
    ensures |r| == 4
    ensures forall i, j :: 0 <= i < j < |r| ==> r[i] != r[j]
  {
    [Lion, Cat, Rabbit, Turtle]
  }

  /** `allCases` lists every case. */
  lemma AllCasesComplete(a: AnimalType)
    ensures a in AllCases()
  {
    var r := AllCases();
    match a
    case Lion => assert r[0] == a;
    case Cat => assert r[1] == a;
    case Rabbit => assert r[2] == a;
    case Turtle => assert r[3] == a;
  }

  /** No two cases share a raw character. */
  lemma RawValueInjective(a: AnimalType, b: AnimalType)
    ensures RawValue(a) == RawValue(b) ==> a == b
  {
  }

  /** `definition`. The long texts are written as a few shorter literals
      joined together; the joined text is the one the app shows. */
  function Definition(a: AnimalType): string
  {
    match a
    case Lion =>
      "You are incredibly outgoing. "
      + "You surround yourself with "
      + "the people you love and "
      + "enjoy activities with your "
      + "friends."
    case Cat =>
      "Mischievous, yet "
      + "mild-tempered, you enjoy "
      + "doing things on your own "
      + "terms."
    case Rabbit =>
      "You love everything that's "
      + "soft. You are healthy and "
      + "full of energy."
    case Turtle =>
      "You are wise beyond your "
      + "years, and you focus on the "
      + "details. Slow and steady "
      + "wins the race."
  }

  function ColorEmoji(a: AnimalType): string
  {
    match a
    case Lion => "\U{1F534}"
    case Cat => "\U{1F7E3}"
    case Rabbit => "\U{1F7E1}"
    case Turtle => "\U{1F535}"
  }

  function ColorDefinition(a: AnimalType): string
  {
    match a
    case Lion =>
      "Red represents your "
      + "passionate and energetic "
      + "nature. You're "
      + "action-oriented, bold, and "
      + "love to take charge!"
    case Cat =>
      "Purple represents your "
      + "creative and mysterious "
      + "personality. You're unique, "
      + "imaginative, and value "
      + "independence."
    case Rabbit =>
      "Yellow represents your "
      + "cheerful and optimistic "
      + "spirit. You're warm, "
      + "friendly, and bring joy to "
      + "others!"
    case Turtle =>
      "Blue represents your calm "
      + "and thoughtful demeanor. "
      + "You're peaceful, reliable, "
      + "and value harmony."
  }

  function ColorName(a: AnimalType): string
  {
    match a
    case Lion => "Red"
    case Cat => "Purple"
    case Rabbit => "Yellow"
    case Turtle => "Blue"
  }

  /** The colour texts tell the results apart: each colour emoji is a single
      character, and both the emoji and the colour name name one case only. */
  lemma ColorTextsInjective(a: AnimalType, b: AnimalType)
    ensures |ColorEmoji(a)| == 1
    ensures ColorEmoji(a) == ColorEmoji(b) ==> a == b
    ensures ColorName(a) == ColorName(b) ==> a == b
    ensures ColorEmoji(a)[0] != RawValue(b)
  {
  }

  // ---------------------------------------------------------------------
  // Shape predicates used by the catalog lemmas
  // ---------------------------------------------------------------------

  /** The results the answers of a question vote for, in order. */
  function AnswerTypes(answers: seq<Answer>): (r: seq<AnimalType>)
    ensures |r| == |answers|
    ensures forall k :: 0 <= k < |answers| ==> r[k] == answers[k].animal
  {
    if answers == [] then [] else [answers[0].animal] + AnswerTypes(answers[1..])
  }

  /** The answers vote for every result exactly once. */
  predicate CoversEachTypeOnce(answers: seq<Answer>)
  {
    multiset(AnswerTypes(answers)) == multiset(AllCases())
  }

  /** Four answers that vote for every result exactly once. */
  predicate FourOfEach(answers: seq<Answer>)
  {
    |answers| == 4 && CoversEachTypeOnce(answers)
  }

  // ---------------------------------------------------------------------
  // Fixed question sets
  // ---------------------------------------------------------------------

  /** `Question.sampleQuestions`, the "Which Animal Are You?" set. */
  const SampleQuestions: seq<Question> := [
    Question("Which food do you like the most?", Single, [
      Answer("Steak", Lion), Answer("Fish", Cat), Answer("Carrots", Rabbit), Answer("Corn", Turtle)]),
    Question("Which activities do you enjoy?", Multiple, [
      Answer("Swimming", Turtle), Answer("Sleeping", Cat), Answer("Cuddling", Rabbit), Answer("Eating", Lion)]),
    Question("How much do you enjoy car rides?", Ranged, [
      Answer("I dislike them", Cat), Answer("I get a little nervous", Rabbit),
      Answer("I barely notice them", Turtle), Answer("I like them", Lion)])
  ]

  /** `Question.colorQuizQuestions`. */
  const ColorQuizQuestions: seq<Question> := [
    Question("What environment makes you happiest?", Single, [
      Answer("Vibrant city life", Lion), Answer("Artistic studio", Cat),
      Answer("Sunny beach", Rabbit), Answer("Peaceful mountains", Turtle)]),
    Question("How do you prefer to spend your free time?", Multiple, [
      Answer("Socializing with friends", Lion), Answer("Creating art", Cat),
      Answer("Outdoor activities", Rabbit), Answer("Reading and learning", Turtle)]),
    Question("How adventurous are you?", Ranged, [
      Answer("Very cautious", Turtle), Answer("Moderately careful", Rabbit),
      Answer("Quite bold", Cat), Answer("Extremely daring", Lion)])
  ]

  /** `Question.twoAnswerQuestion`. */
  const TwoAnswerQuestion: Question :=
    Question("Are you a morning person or a night owl?", Single, [
      Answer("Morning person \U{1F305}", Rabbit), Answer("Night owl \U{1F989}", Cat)])

  /** `Question.threeAnswerQuestion`. */
  const ThreeAnswerQuestion: Question :=
    Question("What's your preferred pace?", Single, [
      Answer("Fast and energetic", Lion), Answer("Moderate and steady", Rabbit),
      Answer("Slow and careful", Turtle)])

  /** Three questions, one per response mode in the order single, multiple,
      ranged; each offers four answers that vote for every result once. */
  lemma SampleQuestionsShape()
    ensures |SampleQuestions| == 3
    ensures SampleQuestions[0].kind == Single
    ensures SampleQuestions[1].kind == Multiple
    ensures SampleQuestions[2].kind == Ranged
    ensures FourOfEach(SampleQuestions[0].answers) && FourOfEach(SampleQuestions[1].answers)
    ensures FourOfEach(SampleQuestions[2].answers)
  {
    SampleQuestionFourOfEach(0);
    SampleQuestionFourOfEach(1);
    SampleQuestionFourOfEach(2);
  }

  lemma SampleQuestionFourOfEach(i: nat)
    requires i < 3
    ensures |SampleQuestions| == 3 && FourOfEach(SampleQuestions[i].answers)
  {
    CoverLemma(SampleQuestions[i].answers);
  }

  /** The same shape for the colour set. */
  lemma ColorQuizQuestionsShape()
    ensures |ColorQuizQuestions| == 3
    ensures ColorQuizQuestions[0].kind == Single
    ensures ColorQuizQuestions[1].kind == Multiple
    ensures ColorQuizQuestions[2].kind == Ranged
    ensures FourOfEach(ColorQuizQuestions[0].answers) && FourOfEach(ColorQuizQuestions[1].answers)
    ensures FourOfEach(ColorQuizQuestions[2].answers)
  {
    ColorQuestionFourOfEach(0);
    ColorQuestionFourOfEach(1);
    ColorQuestionFourOfEach(2);
  }

  lemma ColorQuestionFourOfEach(i: nat)
    requires i < 3
    ensures |ColorQuizQuestions| == 3 && FourOfEach(ColorQuizQuestions[i].answers)
  {
    CoverLemma(ColorQuizQuestions[i].answers);
  }

  /** The dynamic-answer-count questions are single-choice with two and
      three answers. */
  lemma TestQuestionsShape()
    ensures TwoAnswerQuestion.kind == Single && |TwoAnswerQuestion.answers| == 2
    ensures ThreeAnswerQuestion.kind == Single && |ThreeAnswerQuestion.answers| == 3
  {
  }

  /** Four answers whose results are pairwise distinct vote for every result once. */
  lemma CoverLemma(answers: seq<Answer>)
    requires |answers| == 4
    requires forall i, j :: 0 <= i < j < 4 ==> answers[i].animal != answers[j].animal
    ensures CoversEachTypeOnce(answers)
  {
    var ts := AnswerTypes(answers);
    forall t ensures multiset(ts)[t] == multiset(AllCases())[t] {
      DistinctFourOnce(ts, t);
      DistinctFourOnce(AllCases(), t);
    }
  }

  /** Four pairwise distinct results include every result (pigeonhole). */
  lemma DistinctFourInclude(ts: seq<AnimalType>, t: AnimalType)
    requires |ts| == 4
    requires forall i, j :: 0 <= i < j < 4 ==> ts[i] != ts[j]
    ensures t in ts
  {
    assert ts[0] == t || ts[1] == t || ts[2] == t || ts[3] == t by {
      match t
      case Lion => {}
      case Cat => {}
      case Rabbit => {}
      case Turtle => {}
    }
  }

  /** Four pairwise distinct results hold every result exactly once. */
  lemma DistinctFourOnce(ts: seq<AnimalType>, t: AnimalType)
    requires |ts| == 4
    requires forall i, j :: 0 <= i < j < 4 ==> ts[i] != ts[j]
    ensures multiset(ts)[t] == 1
  {
    DistinctFourInclude(ts, t);
    assert ts == [ts[0]] + [ts[1]] + [ts[2]] + [ts[3]];
    assert multiset(ts) == multiset{ts[0]} + multiset{ts[1]} + multiset{ts[2]} + multiset{ts[3]};
  }
}
