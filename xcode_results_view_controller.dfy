/** The results screen of PersonalityQuiz.xcodeproj: a loop-built vote
    count, theme-dependent labels, and a history entry with defaults for a
    missing quiz or time. */
module XcodeResultsController {
  import opened Foundation
  import opened Questions
  import opened Votes
  import opened QuizResults
  import opened QuizManagerModel

  /** The title stored when no quiz is known. */
  const DefaultTitle: string := "Personality Quiz"
  /** The emoji stored when no quiz is known: the four result characters. */
  const DefaultEmoji: string := "\U{1F981}\U{1F431}\U{1F430}\U{1F422}"

  /** The default emoji lists the four results in declaration order. */
  lemma DefaultEmojiListsResults()
    ensures DefaultEmoji == [RawValue(Lion), RawValue(Cat), RawValue(Rabbit), RawValue(Turtle)]
    ensures forall i :: 0 <= i < 4 ==> DefaultEmoji[i] == RawValue(AllCases()[i])
  {
  }

  /** Whether the labels use the colour theme: the selected quiz's title
      contains "Color"; no selected quiz means the animal theme. */
  predicate UsesColorTheme(selectedQuiz: Option<Quiz>)
  {
    selectedQuiz.Some? && Contains(selectedQuiz.value.title, "Color")
  }

  /** The result label for `winner` under the theme of `selectedQuiz`. */
  function AnswerText(selectedQuiz: Option<Quiz>, winner: AnimalType): string
  {
    if UsesColorTheme(selectedQuiz) then "You are a " + ColorName(winner)
    else "You are a " + [RawValue(winner)] + "!"
  }

  /** The definition label for `winner` under the theme of `selectedQuiz`. */
  function DefinitionText(selectedQuiz: Option<Quiz>, winner: AnimalType): string
  {
    if UsesColorTheme(selectedQuiz) then ColorDefinition(winner) else Definition(winner)
  }

  /** The two themes' labels differ: only the animal label ends in '!', and
      under either theme the label names one result. */
  lemma AnswerTextTheme(q: Option<Quiz>, a: AnimalType, b: AnimalType)
    ensures var text := AnswerText(q, a);
      |text| > 10 && (text[|text| - 1] == '!' <==> !UsesColorTheme(q))
    ensures AnswerText(q, a) == AnswerText(q, b) ==> a == b
  {
    if AnswerText(q, a) == AnswerText(q, b) {
      if UsesColorTheme(q) {
        assert AnswerText(q, a)[10..] == ColorName(a);
        assert AnswerText(q, b)[10..] == ColorName(b);
        ColorTextsInjective(a, b);
      } else {
        assert AnswerText(q, a)[10] == RawValue(a);
        assert AnswerText(q, b)[10] == RawValue(b);
        RawValueInjective(a, b);
      }
    }
  }

  /** The record `saveResultToHistory` builds. */
  function HistoryRecord(id: Uuid, selectedQuiz: Option<Quiz>, winner: AnimalType, date: Date,
                         timeTaken: Option<real>): QuizResult
  {
    QuizResult(
      id,
      if selectedQuiz.Some? then selectedQuiz.value.title else DefaultTitle,
      if selectedQuiz.Some? then selectedQuiz.value.emoji else DefaultEmoji,
      winner,
      date,
      if timeTaken.Some? then timeTaken.value else 0.0)
  }

  /** A record for an unknown quiz displays in the animal theme. */
  lemma DefaultRecordIsAnimalThemed(id: Uuid, winner: AnimalType, date: Date, timeTaken: Option<real>)
    ensures !IsColorTitle(HistoryRecord(id, None, winner, date, timeTaken).quizTitle)
    ensures HistoryRecord(id, None, winner, date, timeTaken).timeTaken
            == if timeTaken.Some? then timeTaken.value else 0.0
  {
    NotContainsMissingChar(DefaultTitle, "Color", 'C');
  }

  class ResultsViewController {
    const responses: seq<Answer>
    const selectedQuiz: Option<Quiz>
    const timeTaken: Option<real>
    const historyManager: QuizHistoryManager
    var answerLabel: string
    var definitionLabel: string

    /** `init?(coder:responses:selectedQuiz:timeTaken:)`. */
    constructor (responses: seq<Answer>, selectedQuiz: Option<Quiz>, timeTaken: Option<real>,
                 historyManager: QuizHistoryManager)
      ensures this.responses == responses && this.selectedQuiz == selectedQuiz
      ensures this.timeTaken == timeTaken && this.historyManager == historyManager
      ensures answerLabel == "" && definitionLabel == ""
    {
      this.responses := responses;
      this.selectedQuiz := selectedQuiz;
      this.timeTaken := timeTaken;
      this.historyManager := historyManager;
      answerLabel := "";
      definitionLabel := "";
    }

    /** The `for response in responses` loop: one vote per response. */
    method Frequencies() returns (frequencyOfAnswers: map<AnimalType, nat>)
      ensures IsTallyOf(frequencyOfAnswers, responses)
    {
      frequencyOfAnswers := map[];
      for i := 0 to |responses|
        invariant IsTallyOf(frequencyOfAnswers, responses[..i])
      {
        var t := responses[i].animal;
        assert responses[..i + 1] == responses[..i] + [responses[i]];
        forall u ensures Count(responses[..i + 1], u) == Count(responses[..i], u) + (if u == t then 1 else 0) {
          CountAppend(responses[..i], responses[i], u);
        }
        frequencyOfAnswers := frequencyOfAnswers[t := CountOf(frequencyOfAnswers, t) + 1];
      }
      assert responses[..|responses|] == responses;
    }

    /** `calculatePersonalityResult`: a result of maximal count, shown with
        the colour texts for a colour quiz and the animal texts otherwise.
        With no responses the source crashes in `first!`. */
    method CalculatePersonalityResult() returns (winner: AnimalType)
      requires responses != []
      modifies this
      ensures exists i :: 0 <= i < |responses| && responses[i].animal == winner
      ensures forall u :: Count(responses, u) <= Count(responses, winner)
      ensures answerLabel == AnswerText(selectedQuiz, winner)
      ensures definitionLabel == DefinitionText(selectedQuiz, winner)
    {
      var frequencyOfAnswers := Frequencies();
      TallyEmptyIffNoResponses(frequencyOfAnswers, responses);
      winner := MostCommon(frequencyOfAnswers);
      WinnerWasChosen(frequencyOfAnswers, responses, winner);
      ShowResult(winner);
    }

    /** The theme branch of `calculatePersonalityResult`, which sets both
        labels from one theme. */
    method ShowResult(winner: AnimalType)
      modifies this
      ensures answerLabel == AnswerText(selectedQuiz, winner)
      ensures definitionLabel == DefinitionText(selectedQuiz, winner)
    {
      answerLabel := AnswerText(selectedQuiz, winner);
      definitionLabel := DefinitionText(selectedQuiz, winner);
    }

    /** `saveResultToHistory`: nothing with no responses; otherwise load,
        append one record, save. */
    method SaveResultToHistory(id: Uuid, date: Date) returns (saved: Option<QuizResult>)
      modifies historyManager.defaults
      ensures responses == [] ==> saved == None && unchanged(historyManager.defaults)
      ensures responses != [] ==> saved.Some?
      ensures saved.Some? ==>
        var r := saved.value;
        && r == HistoryRecord(id, selectedQuiz, r.resultAnimal, date, timeTaken)
        && (exists i :: 0 <= i < |responses| && responses[i].animal == r.resultAnimal)
        && (forall u :: Count(responses, u) <= Count(responses, r.resultAnimal))
        && historyManager.defaults.entries
           == old(historyManager.defaults.entries)[HistoryKey :=
                Encoded(old(StoredHistory(historyManager.defaults.entries)) + [r])]
        && StoredHistory(historyManager.defaults.entries)
           == old(StoredHistory(historyManager.defaults.entries)) + [r]
    {
      var frequencyOfAnswers := Frequencies();
      TallyEmptyIffNoResponses(frequencyOfAnswers, responses);
      if frequencyOfAnswers == map[] {
        return None;
      }
      var mostCommonAnswer := MostCommon(frequencyOfAnswers);
      WinnerWasChosen(frequencyOfAnswers, responses, mostCommonAnswer);
      var result := QuizResult(
        id,
        if selectedQuiz.Some? then selectedQuiz.value.title else "Personality Quiz",
        if selectedQuiz.Some? then selectedQuiz.value.emoji else DefaultEmoji,
        mostCommonAnswer,
        date,
        if timeTaken.Some? then timeTaken.value else 0.0);
      var history := historyManager.LoadHistory();
      history := history + [result];
      historyManager.SaveHistory(history);
      saved := Some(result);
    }

    /** `viewDidLoad`: compute and show the result, then save it. */
    method ViewDidLoad(id: Uuid, date: Date) returns (shown: AnimalType, saved: Option<QuizResult>)
      requires responses != []
      modifies this, historyManager.defaults
      ensures forall u :: Count(responses, u) <= Count(responses, shown)
      ensures answerLabel == AnswerText(selectedQuiz, shown)
      ensures definitionLabel == DefinitionText(selectedQuiz, shown)
      ensures saved.Some?
      ensures saved.value == HistoryRecord(id, selectedQuiz, saved.value.resultAnimal, date, timeTaken)
      ensures exists i :: 0 <= i < |responses| && responses[i].animal == saved.value.resultAnimal
      ensures forall u :: Count(responses, u) <= Count(responses, saved.value.resultAnimal)
      ensures StoredHistory(historyManager.defaults.entries)
              == old(StoredHistory(historyManager.defaults.entries)) + [saved.value]
    {
      shown := CalculatePersonalityResult();
      saved := SaveResultToHistory(id, date);
    }
  }
}
