/** The results screen of PersonalityQuiz/Controllers: the vote count built
    with `reduce(into:)`, the winner's labels and the history entry it
    appends. */
module ResultsController {
  import opened Foundation
  import opened Questions
  import opened Votes
  import opened QuizResults
  import opened QuizManagerModel

  /** `responses.reduce(into: [:]) { counts[answer.type, default: 0] += 1 }`:
      the fold visits the responses from first to last. */
  function Tally(rs: seq<Answer>): (freq: map<AnimalType, nat>)
    ensures IsTallyOf(freq, rs)
  {
    if rs == [] then map[]
    else
      var counts := Tally(rs[..|rs| - 1]);
      var t := rs[|rs| - 1].animal;
      counts[t := CountOf(counts, t) + 1]
  }

  /** The result label of the animal theme. */
  function AnimalAnswerText(a: AnimalType): string
  {
    "You are a " + [RawValue(a)] + "!"
  }

  /** The animal result label names exactly one result. */
  lemma AnimalAnswerTextInjective(a: AnimalType, b: AnimalType)
    requires AnimalAnswerText(a) == AnimalAnswerText(b)
    ensures a == b
  {
    assert AnimalAnswerText(a)[10] == RawValue(a);
    assert AnimalAnswerText(b)[10] == RawValue(b);
    RawValueInjective(a, b);
  }

  class ResultsViewController {
    const responses: seq<Answer>
    /** `QuizManager.shared`. */
    const quizManager: QuizManager
    var title: string
    var answerLabel: string
    var definitionLabel: string

    /** `init?(coder:responses:)`. */
    constructor (responses: seq<Answer>, quizManager: QuizManager)
      ensures this.responses == responses && this.quizManager == quizManager
      ensures answerLabel == "" && definitionLabel == ""
    {
      this.responses := responses;
      this.quizManager := quizManager;
      title := "";
      answerLabel := "";
      definitionLabel := "";
    }

    /** `viewDidLoad`: set up, show the winner, then save it. `id` and `date`
        stand for the fresh `UUID()` and `Date()`. With no responses the
        source crashes in `first!`. */
    method ViewDidLoad(id: Uuid, date: Date) returns (shown: AnimalType, saved: Option<QuizResult>)
      requires responses != []
      modifies this, quizManager.history.defaults
      ensures title == "Results"
      ensures IsMostCommon(Tally(responses), shown)
      ensures answerLabel == AnimalAnswerText(shown) && definitionLabel == Definition(shown)
      ensures quizManager.currentQuiz.None? ==> saved == None
      ensures quizManager.currentQuiz.None? ==> unchanged(quizManager.history.defaults)
      ensures quizManager.currentQuiz.Some? ==> saved.Some?
      ensures saved.Some? ==>
        var r := saved.value;
        && quizManager.currentQuiz.Some?
        && r.id == id && r.quizTitle == quizManager.currentQuiz.value.title
        && r.quizEmoji == quizManager.currentQuiz.value.emoji
        && r.date == date && r.timeTaken == 0.0
        && IsMostCommon(Tally(responses), r.resultAnimal)
      ensures saved.Some? ==>
        StoredHistory(quizManager.history.defaults.entries)
          == old(StoredHistory(quizManager.history.defaults.entries)) + [saved.value]
    {
      title := "Results";
      shown := CalculatePersonalityResult();
      saved := SaveQuizResult(id, date);
    }

    /** `calculatePersonalityResult`: tally, pick a most common result and
        display it. */
    method CalculatePersonalityResult() returns (winner: AnimalType)
      requires responses != []
      modifies this
      ensures IsMostCommon(Tally(responses), winner)
      ensures exists i :: 0 <= i < |responses| && responses[i].animal == winner
      ensures forall u :: Count(responses, u) <= Count(responses, winner)
      ensures answerLabel == AnimalAnswerText(winner) && definitionLabel == Definition(winner)
      ensures title == old(title)
    {
      var frequencyOfAnswers := Tally(responses);
      TallyEmptyIffNoResponses(frequencyOfAnswers, responses);
      winner := MostCommon(frequencyOfAnswers);
      WinnerWasChosen(frequencyOfAnswers, responses, winner);
      DisplayResult(winner);
    }

    /** `displayResult(for:)`. */
    method DisplayResult(animalType: AnimalType)
      modifies this
      ensures answerLabel == AnimalAnswerText(animalType)
      ensures definitionLabel == Definition(animalType)
      ensures title == old(title)
    {
      answerLabel := "You are a " + [RawValue(animalType)] + "!";
      definitionLabel := Definition(animalType);
    }

    /** `saveQuizResult`: nothing without a current quiz or without
        responses; otherwise one record with the quiz's title and emoji, a
        most common result and no time taken is appended to the history. */
    method SaveQuizResult(id: Uuid, date: Date) returns (saved: Option<QuizResult>)
      modifies quizManager.history.defaults
      ensures quizManager.currentQuiz.None? || responses == [] ==>
        saved == None && unchanged(quizManager.history.defaults)
      ensures quizManager.currentQuiz.Some? && responses != [] ==> saved.Some?
      ensures saved.Some? ==>
        var quiz := quizManager.currentQuiz.value;
        var r := saved.value;
        && quizManager.currentQuiz.Some?
        && r.id == id && r.quizTitle == quiz.title && r.quizEmoji == quiz.emoji
        && r.date == date && r.timeTaken == 0.0
        && IsMostCommon(Tally(responses), r.resultAnimal)
        && quizManager.history.defaults.entries
           == old(quizManager.history.defaults.entries)[HistoryKey :=
                Encoded(old(StoredHistory(quizManager.history.defaults.entries)) + [r])]
        && StoredHistory(quizManager.history.defaults.entries)
           == old(StoredHistory(quizManager.history.defaults.entries)) + [r]
    {
      if quizManager.currentQuiz.None? {
        return None;
      }
      var quiz := quizManager.currentQuiz.value;
      var frequencyOfAnswers := Tally(responses);
      TallyEmptyIffNoResponses(frequencyOfAnswers, responses);
      if frequencyOfAnswers == map[] {
        return None;
      }
      var mostCommonAnswer := MostCommon(frequencyOfAnswers);
      var result := QuizResult(id, quiz.title, quiz.emoji, mostCommonAnswer, date, 0.0);
      quizManager.history.AddResult(result);
      saved := Some(result);
    }
  }
}
