/** The quiz catalog, the current selection, the randomisation of a quiz and
    the history calls of the manager in PersonalityQuiz/Model. */
module QuizManagerModel {
  import opened Foundation
  import opened Questions
  import opened QuizResults

  /** A quiz: identity plus its ordered questions. */
  datatype Quiz = Quiz(id: Uuid, title: string, emoji: string, questions: seq<Question>)

  /** The "Which Animal Are You?" quiz. */
  const AnimalQuiz: Quiz := Quiz(Uuid(1), "Which Animal Are You?", "\U{1F43E}", [
    Question("Which food do you like the most?", Single, [
      Answer("Steak", Lion), Answer("Fish", Cat), Answer("Carrots", Rabbit), Answer("Corn", Turtle)]),
    Question("Which activities do you enjoy?", Multiple, [
      Answer("Swimming", Turtle), Answer("Sleeping", Cat), Answer("Cuddling", Rabbit), Answer("Eating", Lion)]),
    Question("How much do you enjoy car rides?", Ranged, [
      Answer("I dislike them", Cat), Answer("I get a little nervous", Rabbit),
      Answer("I barely notice them", Turtle), Answer("I like them", Lion)])
  ])

  /** The "What Color Are You?" quiz. */
  const ColorQuiz: Quiz := Quiz(Uuid(2), "What Color Are You?", "\U{1F3A8}", [
    Question("How do you handle stress?", Single, [
      Answer("Stay calm and collected", Turtle), Answer("Take action immediately", Lion),
      Answer("Seek support from others", Rabbit), Answer("Retreat and reflect", Cat)]),
    Question("What environments do you prefer?", Multiple, [
      Answer("Peaceful and quiet", Turtle), Answer("Energetic and lively", Lion),
      Answer("Warm and welcoming", Rabbit), Answer("Creative and inspiring", Cat)]),
    Question("How emotional are you?", Ranged, [
      Answer("Very logical", Turtle), Answer("Balanced", Cat),
      Answer("Quite emotional", Rabbit), Answer("Very passionate", Lion)])
  ])

  /** `availableQuizzes`. */
  const AvailableQuizzes: seq<Quiz> := [AnimalQuiz, ColorQuiz]

  /** The catalog lists the animal quiz, then the colour quiz, with the
      fixed distinct ids 1 and 2. */
  lemma CatalogOrder()
    ensures |AvailableQuizzes| == 2
    ensures AvailableQuizzes[0] == AnimalQuiz && AvailableQuizzes[1] == ColorQuiz
    ensures AnimalQuiz.id == Uuid(1) && ColorQuiz.id == Uuid(2) && AnimalQuiz.id != ColorQuiz.id
  {
  }

  /** Each built-in quiz has three questions (single, multiple, ranged),
      each with four answers voting for every result once. */
  lemma AnimalQuizShape()
    ensures |AnimalQuiz.questions| == 3
    ensures AnimalQuiz.questions[0].kind == Single && AnimalQuiz.questions[1].kind == Multiple
    ensures AnimalQuiz.questions[2].kind == Ranged
    ensures FourOfEach(AnimalQuiz.questions[0].answers) && FourOfEach(AnimalQuiz.questions[1].answers)
    ensures FourOfEach(AnimalQuiz.questions[2].answers)
  {
    AnimalQuestionFourOfEach(0);
    AnimalQuestionFourOfEach(1);
    AnimalQuestionFourOfEach(2);
  }

  lemma AnimalQuestionFourOfEach(i: nat)
    requires i < 3
    ensures |AnimalQuiz.questions| == 3 && FourOfEach(AnimalQuiz.questions[i].answers)
  {
    CoverLemma(AnimalQuiz.questions[i].answers);
  }

  lemma ColorQuizShape()
    ensures |ColorQuiz.questions| == 3
    ensures ColorQuiz.questions[0].kind == Single && ColorQuiz.questions[1].kind == Multiple
    ensures ColorQuiz.questions[2].kind == Ranged
    ensures FourOfEach(ColorQuiz.questions[0].answers) && FourOfEach(ColorQuiz.questions[1].answers)
    ensures FourOfEach(ColorQuiz.questions[2].answers)
  {
    ColorQuestionFourOfEach(0);
    ColorQuestionFourOfEach(1);
    ColorQuestionFourOfEach(2);
  }

  lemma ColorQuestionFourOfEach(i: nat)
    requires i < 3
    ensures |ColorQuiz.questions| == 3 && FourOfEach(ColorQuiz.questions[i].answers)
  {
    CoverLemma(ColorQuiz.questions[i].answers);
  }

  // ---------------------------------------------------------------------
  // Randomisation
  // ---------------------------------------------------------------------

  /** A question with its answers shuffled by `draws`. */
  function WithShuffledAnswers(q: Question, draws: seq<nat>): Question
  {
    q.(answers := Shuffled(q.answers, draws))
  }

  /** `questions.map { ... answers.shuffle() ... }`: question `i` uses the
      draws `answerDraws[i]` (none if missing). */
  function ShuffleEachAnswers(questions: seq<Question>, answerDraws: seq<seq<nat>>): (r: seq<Question>)
  {
    seq(|questions|, i requires 0 <= i < |questions| =>
      WithShuffledAnswers(questions[i], if i < |answerDraws| then answerDraws[i] else []))
  }

  /** `q` and `q'` are the same question up to the order of its answers. */
  predicate SameUpToAnswerOrder(q: Question, q': Question)
  {
    q'.text == q.text && q'.kind == q.kind && multiset(q'.answers) == multiset(q.answers)
  }

  /** Shuffling every question's answers keeps each question's text and mode
      and permutes its answers. */
  lemma ShuffleEachAnswersKeepsQuestions(questions: seq<Question>, answerDraws: seq<seq<nat>>)
    ensures |ShuffleEachAnswers(questions, answerDraws)| == |questions|
    ensures forall i :: 0 <= i < |questions| ==>
      SameUpToAnswerOrder(questions[i], ShuffleEachAnswers(questions, answerDraws)[i])
  {
    var r := ShuffleEachAnswers(questions, answerDraws);
    forall i | 0 <= i < |questions| ensures SameUpToAnswerOrder(questions[i], r[i]) {
      ShuffledIsPermutation(questions[i].answers, if i < |answerDraws| then answerDraws[i] else []);
    }
  }

  /** `QuizManager.shared`. */
  class QuizManager {
    var currentQuiz: Option<Quiz>
    var shouldRandomizeQuestions: bool
    var shouldRandomizeAnswers: bool
    /** `QuizHistoryManager.shared`. */
    const history: QuizHistoryManager

    constructor (history: QuizHistoryManager)
      ensures currentQuiz == None
      ensures shouldRandomizeQuestions && shouldRandomizeAnswers
      ensures this.history == history
    {
      currentQuiz := None;
      shouldRandomizeQuestions := true;
      shouldRandomizeAnswers := true;
      this.history := history;
    }

    /** `resetCurrentQuiz`. */
    method ResetCurrentQuiz()
      modifies this
      ensures currentQuiz == None
      ensures shouldRandomizeQuestions == old(shouldRandomizeQuestions)
      ensures shouldRandomizeAnswers == old(shouldRandomizeAnswers)
    {
      currentQuiz := None;
    }

    /** `getRandomizedQuiz`: a copy of `quiz` whose question order (when
        `shouldRandomizeQuestions`) and answer orders (when
        `shouldRandomizeAnswers`) are shuffled with the given random draws.
        `ordered` is the question list after the first step. */
    method GetRandomizedQuiz(quiz: Quiz, questionDraws: seq<nat>, answerDraws: seq<seq<nat>>)
      returns (r: Quiz, ghost ordered: seq<Question>)
      ensures r.id == quiz.id && r.title == quiz.title && r.emoji == quiz.emoji
      ensures ordered == if shouldRandomizeQuestions then Shuffled(quiz.questions, questionDraws)
                         else quiz.questions
      ensures multiset(ordered) == multiset(quiz.questions)
      ensures r.questions == if shouldRandomizeAnswers then ShuffleEachAnswers(ordered, answerDraws)
                             else ordered
      ensures |r.questions| == |quiz.questions|
      ensures forall i :: 0 <= i < |r.questions| ==> SameUpToAnswerOrder(ordered[i], r.questions[i])
      ensures !shouldRandomizeQuestions && !shouldRandomizeAnswers ==> r.questions == quiz.questions
    {
      var questions := quiz.questions;
      if shouldRandomizeQuestions {
        var a := new Question[|questions|](i requires 0 <= i < |questions| => questions[i]);
        assert a[..] == questions;
        ShuffleInPlace(a, questionDraws);
        questions := a[..];
      }
      ordered := questions;
      ShuffledIsPermutation(quiz.questions, questionDraws);
      if shouldRandomizeAnswers {
        ShuffleEachAnswersKeepsQuestions(questions, answerDraws);
        questions := ShuffleEachAnswers(questions, answerDraws);
      }
      r := Quiz(quiz.id, quiz.title, quiz.emoji, questions);
    }

    /** `saveQuizResult`: load, append, save. */
    method SaveQuizResult(result: QuizResult)
      modifies history.defaults
      ensures StoredHistory(history.defaults.entries) == old(StoredHistory(history.defaults.entries)) + [result]
      ensures history.defaults.entries == old(history.defaults.entries)[HistoryKey := Encoded(old(StoredHistory(history.defaults.entries)) + [result])]
    {
      var h := history.LoadHistory();
      h := h + [result];
      history.SaveHistory(h);
    }

    /** `loadQuizHistory`. */
    method LoadQuizHistory() returns (h: seq<QuizResult>)
      ensures h == StoredHistory(history.defaults.entries)
    {
      h := history.LoadHistory();
    }

    /** `clearHistory`. */
    method ClearHistory()
      modifies history.defaults
      ensures history.defaults.entries == old(history.defaults.entries) - {HistoryKey}
      ensures StoredHistory(history.defaults.entries) == []
    {
      history.ClearHistory();
    }
  }
}
