/** The variant quiz manager at the top of the app folder: the same catalog
    (with its emoji stored as mis-decoded text), and the history calls. It
    has no selection state and no randomisation. */
module QuizManagerRoot {
  import opened Foundation
  import opened Questions
  import opened QuizResults

  /** A quiz; here its questions are immutable. */
  datatype Quiz = Quiz(id: Uuid, title: string, emoji: string, questions: seq<Question>)

  /** The "Which Animal Are You?" quiz. */
  const AnimalQuiz: Quiz := Quiz(Uuid(1), "Which Animal Are You?", "\U{00F0}\U{0178}\U{00BE}", [
    Question("Which food do you like the most?", Single, [
      Answer("Steak", Lion), Answer("Fish", Cat), Answer("Carrots", Rabbit), Answer("Corn", Turtle)]),
    Question("Which activities do you enjoy?", Multiple, [
      Answer("Swimming", Turtle), Answer("Sleeping", Cat), Answer("Cuddling", Rabbit), Answer("Eating", Lion)]),
    Question("How much do you enjoy car rides?", Ranged, [
      Answer("I dislike them", Cat), Answer("I get a little nervous", Rabbit),
      Answer("I barely notice them", Turtle), Answer("I like them", Lion)])
  ])

  /** The "What Color Are You?" quiz. */
  const ColorQuiz: Quiz := Quiz(Uuid(2), "What Color Are You?", "\U{00F0}\U{0178}\U{017D}\U{00A8}", [
    Question("How do you handle stress?", Single, [
      Answer("Stay calm and collected", Turtle), Answer("Take action immediately", Lion),
      Answer("Seek support from others", Rabbit), Answer("Retreat and reflect", Cat)]),
    Question("What environments do you prefer?", Multiple, [
      Answer("Peaceful and quiet", Turtle), Answer("Energetic and lively", Lion),
      Answer("Warm and welcoming", Rabbit), Answer("Creative and inspiring", Cat)]),
    Question("How emotional are you?", Ranged, [
      Answer("Very logical", Turtle), Answer("Balanced", Cat),
      Answer("Quite emotional", Rabbit), Answer("Very passionate", Lion)])
  ])

  /** `availableQuizzes`. */
  const AvailableQuizzes: seq<Quiz> := [AnimalQuiz, ColorQuiz]

  /** The catalog lists the animal quiz, then the colour quiz, with the
      fixed distinct ids 1 and 2. */
  lemma CatalogOrder()
    ensures |AvailableQuizzes| == 2
    ensures AvailableQuizzes[0] == AnimalQuiz && AvailableQuizzes[1] == ColorQuiz
    ensures AnimalQuiz.id == Uuid(1) && ColorQuiz.id == Uuid(2) && AnimalQuiz.id != ColorQuiz.id
  {
  }

  /** Each built-in quiz has three questions (single, multiple, ranged),
      each with four answers voting for every result once. */
  lemma AnimalQuizShape()
    ensures |AnimalQuiz.questions| == 3
    ensures AnimalQuiz.questions[0].kind == Single && AnimalQuiz.questions[1].kind == Multiple
    ensures AnimalQuiz.questions[2].kind == Ranged
    ensures FourOfEach(AnimalQuiz.questions[0].answers) && FourOfEach(AnimalQuiz.questions[1].answers)
    ensures FourOfEach(AnimalQuiz.questions[2].answers)
  {
    AnimalQuestionFourOfEach(0);
    AnimalQuestionFourOfEach(1);
    AnimalQuestionFourOfEach(2);
  }

  lemma AnimalQuestionFourOfEach(i: nat)
    requires i < 3
    ensures |AnimalQuiz.questions| == 3 && FourOfEach(AnimalQuiz.questions[i].answers)
  {
    CoverLemma(AnimalQuiz.questions[i].answers);
  }

  lemma ColorQuizShape()
    ensures |ColorQuiz.questions| == 3
    ensures ColorQuiz.questions[0].kind == Single && ColorQuiz.questions[1].kind == Multiple
    ensures ColorQuiz.questions[2].kind == Ranged
    ensures FourOfEach(ColorQuiz.questions[0].answers) && FourOfEach(ColorQuiz.questions[1].answers)
    ensures FourOfEach(ColorQuiz.questions[2].answers)
  {
    ColorQuestionFourOfEach(0);
    ColorQuestionFourOfEach(1);
    ColorQuestionFourOfEach(2);
  }

  lemma ColorQuestionFourOfEach(i: nat)
    requires i < 3
    ensures |ColorQuiz.questions| == 3 && FourOfEach(ColorQuiz.questions[i].answers)
  {
    CoverLemma(ColorQuiz.questions[i].answers);
  }

  /** `QuizManager.shared` of this variant. */
  class QuizManager {
    /** `QuizHistoryManager.shared`. */
    const history: QuizHistoryManager

    constructor (history: QuizHistoryManager)
      ensures this.history == history
    {
      this.history := history;
    }

    /** `saveQuizResult`: the loaded history with exactly `result` appended is
        written back, in the same order. */
    method SaveQuizResult(result: QuizResult)
      modifies history.defaults
      ensures StoredHistory(history.defaults.entries) == old(StoredHistory(history.defaults.entries)) + [result]
      ensures history.defaults.entries == old(history.defaults.entries)[HistoryKey := Encoded(old(StoredHistory(history.defaults.entries)) + [result])]
    {
      var h := history.LoadHistory();
      h := h + [result];
      history.SaveHistory(h);
    }

    /** `loadQuizHistory`: the stored list, unchanged. */
    method LoadQuizHistory() returns (h: seq<QuizResult>)
      ensures h == StoredHistory(history.defaults.entries)
    {
      h := history.LoadHistory();
    }

    /** `clearHistory`: a load afterwards gives `[]`. */
    method ClearHistory()
      modifies history.defaults
      ensures history.defaults.entries == old(history.defaults.entries) - {HistoryKey}
      ensures StoredHistory(history.defaults.entries) == []
    {
      history.ClearHistory();
    }
  }
}
