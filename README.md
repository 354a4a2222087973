# PersonalityQuiz in Dafny

A model of the logic of the PersonalityQuiz iOS app, with proofs about it. In the app a user picks a quiz ("Which Animal Are You?" or "What Color Are You?") and answers its questions. There are three response modes:

- **single**: one button per answer;
- **multiple**: switches, then a submit button;
- **ranged**: a slider, then a submit button.

Each chosen answer votes for one of four personality results (lion, cat, rabbit, turtle). The result with the most votes is shown and appended to a history log kept in the app's key-value store. Two history screens show that log newest first. One screen is a table with swipe-to-delete; the other has three fixed item views.

The repository contains two variants of the quiz manager, the results screen and the history screen. Each variant is modelled in its own module.

| module | file | models |
|---|---|---|
| `Foundation` | foundation.dfy | optionals, UUID and Date values, `String.contains`, `"\(n)"` for integers, `reversed()`, `remove(at:)`, `shuffle()` |
| `Questions` | questions.dfy | `PersonalityQuiz.xcodeproj/Question.swift` |
| `QuizResults` | quiz_result.dfy | `PersonalityQuiz.xcodeproj/QuizResult.swift`, and the key-value store as a class holding a map |
| `QuizManagerModel` | model_quiz_manager.dfy | `PersonalityQuiz/Model/QuizManager.swift` |
| `QuizManagerRoot` | root_quiz_manager.dfy | `PersonalityQuiz/QuizManager.swift` |
| `Votes` | votes.dfy | the vote count and the choice of a most common result, shared by both results screens |
| `QuestionController` | question_view_controller.dfy | `PersonalityQuiz/Controllers/QuestionViewController.swift` |
| `ResultsController` | results_view_controller.dfy | `PersonalityQuiz/Controllers/ResultsViewController.swift` |
| `XcodeResultsController` | xcode_results_view_controller.dfy | `PersonalityQuiz.xcodeproj/ResultsViewController.swift` |
| `HistoryTable` | history_table.dfy | `PersonalityQuiz/HistoryTableViewController.swift` |
| `HistoryItems` | history_items.dfy | `PersonalityQuiz/Controllers/HistoryTableViewController.swift` |
| `QuizSelection` | quiz_selection.dfy | `PersonalityQuiz.xcodeproj/QuizSelectionViewController.swift` |

The model's form follows the source:

- Value types (`Question`, `Answer`, `AnimalType`, `Quiz`, `QuizResult`) are datatypes.
- Objects whose fields the app changes are classes, with `modifies` clauses on their methods. These are `UserDefaults`, `QuizHistoryManager`, `QuizManager` and the view controllers.
- Each label, switch, slider, border or item view that the controllers set is a field; UIKit itself is not modelled. On the question screen, the question label, the four single-answer button titles, the four multiple-answer labels and the two ranged labels are grouped into one `QuestionLabels` value.
- The shared singletons (`QuizManager.shared`, `QuizHistoryManager.shared`, `UserDefaults.standard`) are constructor arguments. Two controllers can therefore share one store.
- `shuffle()` is the forward Fisher–Yates loop over an array. Its random numbers are a parameter `draws`.

Only what a shuffle guarantees is proved about it: its result is a permutation.

Some vocabulary used in the table:

- **stored history**: `QuizResults.StoredHistory(entries)`, the list that `loadHistory` reads from the store. It is `[]` when the key is absent or its data does not decode.
- **tally**: a `map<AnimalType, nat>` that agrees with `Votes.Count`, the reference count of the responses voting for each result (`Votes.IsTallyOf`).
- **a most common result**: a key of the tally whose count no other key exceeds (`Votes.IsMostCommon`).

## Model

| member | source | states |
|---|---|---|
| Foundation.Contains | PersonalityQuiz.xcodeproj/QuizResult.swift:37 | `String.contains`: stated by ContainsIffOccurs, true exactly when the needle occurs at some position |
| Foundation.ContainsIffOccurs | PersonalityQuiz.xcodeproj/QuizResult.swift:37 | `contains` holds exactly when the needle occurs at some position of the text |
| Foundation.NotContainsMissingChar | PersonalityQuiz.xcodeproj/QuizSelectionViewController.swift:40-43 | a needle containing a character that the text lacks is not contained in it |
| Foundation.ContainsAt | PersonalityQuiz.xcodeproj/QuizSelectionViewController.swift:40-43 | a needle that occurs at some position is contained |
| Foundation.NatToStringRoundTrip | PersonalityQuiz.xcodeproj/QuizResult.swift:25 | the decimal text of a natural number is non-empty, all digits, and reads back as that number |
| Foundation.IntToString | PersonalityQuiz.xcodeproj/QuizResult.swift:25 | Int interpolation: stated by IntToStringRoundTrip, a leading '-' for a negative number, then digits that read back as the number |
| Foundation.IntToStringRoundTrip | PersonalityQuiz.xcodeproj/QuizResult.swift:25 | the text of an integer is '-' for a negative number followed by the digits of its magnitude, and it reads back as the integer |
| Foundation.Reversed | PersonalityQuiz/HistoryTableViewController.swift:46 | the result has the same length as the input, and element k is element n-1-k of the input |
| Foundation.ReversedTwice | PersonalityQuiz/HistoryTableViewController.swift:139 | reversing twice restores the original order |
| Foundation.RemoveAt | PersonalityQuiz/HistoryTableViewController.swift:136 | exactly one element is removed; the elements before i stay in place and the later ones shift down by one |
| Foundation.SwapIsPermutation | PersonalityQuiz/Model/QuizManager.swift:43 | swapping two positions keeps the multiset |
| Foundation.Partner | PersonalityQuiz/Model/QuizManager.swift:43 | the swap partner at step i lies in i..n-1 |
| Foundation.ShuffledFromIsPermutation | PersonalityQuiz/Model/QuizManager.swift:43 | shuffling from any step on keeps the length and the multiset, whatever the draws |
| Foundation.Shuffled | PersonalityQuiz/Model/QuizManager.swift:43 | `shuffle()` with its random numbers as a parameter: stated by ShuffledIsPermutation, a permutation of the input |
| Foundation.ShuffledIsPermutation | PersonalityQuiz/Model/QuizManager.swift:43 | a full shuffle is a permutation of its input |
| Foundation.ShuffleInPlace | PersonalityQuiz/Model/QuizManager.swift:43 | the Fisher–Yates loop leaves the array equal to the shuffle function of its old contents, so the array holds a permutation of them |
| Questions.AllCases | PersonalityQuiz.xcodeproj/Question.swift:39-43 | the case list has four pairwise distinct entries |
| Questions.AllCasesComplete | PersonalityQuiz.xcodeproj/Question.swift:39-43 | every result appears in the case list |
| Questions.RawValue | PersonalityQuiz.xcodeproj/Question.swift:39-43 | the raw character of each result: stated by RawValueInjective, no two results share one |
| Questions.RawValueInjective | PersonalityQuiz.xcodeproj/Question.swift:39-43 | no two results share a raw character |
| Questions.Definition | PersonalityQuiz.xcodeproj/Question.swift:45-56 | the animal description of each result, shown by ResultsController.ResultsViewController.DisplayResult and XcodeResultsController.ResultsViewController.ShowResult; nothing is proved about its wording |
| Questions.ColorEmoji | PersonalityQuiz.xcodeproj/Question.swift:61-72 | the colour emoji of each result: stated by ColorTextsInjective, one character that identifies the result and differs from every raw character |
| Questions.ColorDefinition | PersonalityQuiz.xcodeproj/Question.swift:74-85 | the colour description of each result, shown by XcodeResultsController.ResultsViewController.ShowResult under the colour theme; nothing is proved about its wording |
| Questions.ColorName | PersonalityQuiz.xcodeproj/Question.swift:87-94 | the colour name of each result: stated by ColorTextsInjective, the name identifies the result |
| Questions.ColorTextsInjective | PersonalityQuiz.xcodeproj/Question.swift:61-94 | each colour emoji is one character; the colour emoji and the colour name each identify the result; no colour emoji equals any raw animal character |
| Questions.AnswerTypes | PersonalityQuiz.xcodeproj/Question.swift:31-34 | the result voted for by each answer, position by position |
| Questions.SampleQuestionsShape | PersonalityQuiz.xcodeproj/Question.swift:103-134 | three questions: single, then multiple, then ranged; each has four answers that vote for every result exactly once |
| Questions.SampleQuestionFourOfEach | PersonalityQuiz.xcodeproj/Question.swift:103-134 | each sample question has four answers covering every result once |
| Questions.ColorQuizQuestionsShape | PersonalityQuiz.xcodeproj/Question.swift:137-168 | the same shape for the colour question set |
| Questions.ColorQuestionFourOfEach | PersonalityQuiz.xcodeproj/Question.swift:137-168 | each colour question has four answers covering every result once |
| Questions.TestQuestionsShape | PersonalityQuiz.xcodeproj/Question.swift:173-191 | the two test questions are single-choice, with exactly two and exactly three answers |
| Questions.CoverLemma | PersonalityQuiz.xcodeproj/Question.swift:103-168 | four answers voting for pairwise distinct results cover every result once |
| Questions.DistinctFourInclude | PersonalityQuiz.xcodeproj/Question.swift:39-43 | four pairwise distinct results include every one of the four results |
| Questions.DistinctFourOnce | PersonalityQuiz.xcodeproj/Question.swift:39-43 | four pairwise distinct results hold every result exactly once |
| QuizResults.TruncateToInt | PersonalityQuiz.xcodeproj/QuizResult.swift:23-24 | `Int(x)` truncates toward zero: the result is the integer part of x, for either sign |
| QuizResults.TruncDivRem | PersonalityQuiz.xcodeproj/QuizResult.swift:23-24 | Swift's `/` and `%` recombine to the dividend; the remainder has the dividend's sign and a magnitude below the divisor |
| QuizResults.FormattedTime | PersonalityQuiz.xcodeproj/QuizResult.swift:22-26 | "<minutes>m <seconds>s" of the truncated seconds: stated by FormattedTimeSplitsSeconds and FormattedTimeExample |
| QuizResults.FormattedTimeSplitsSeconds | PersonalityQuiz.xcodeproj/QuizResult.swift:22-26 | 60·minutes + seconds equals the whole seconds taken; for a non-negative time the seconds lie in 0..59 and the minutes are non-negative; for a negative time both are non-positive |
| QuizResults.FormattedTimeExample | PersonalityQuiz.xcodeproj/QuizResult.swift:21-26 | any time in [105, 106) seconds formats as "1m 45s" |
| QuizResults.ResultDisplayText | PersonalityQuiz.xcodeproj/QuizResult.swift:36-42 | the colour or animal display text by title: stated by ResultDisplayTextTheme and DisplayTextIdentifiesResult |
| QuizResults.ResultDisplayTextTheme | PersonalityQuiz.xcodeproj/QuizResult.swift:36-42 | a title containing "Color" gives a text that starts with the colour emoji and has no final '!'; any other title gives a text that starts with the raw animal character and ends in '!' |
| QuizResults.DisplayTextIdentifiesResult | PersonalityQuiz.xcodeproj/QuizResult.swift:36-42 | within one theme, equal display texts imply equal results |
| QuizResults.LoadMissingOrCorrupt | PersonalityQuiz.xcodeproj/QuizResult.swift:56-64 | an absent or undecodable slot loads as the empty history |
| QuizResults.SaveThenLoad | PersonalityQuiz.xcodeproj/QuizResult.swift:56-74 | saving h and then loading gives back exactly h |
| QuizResults.ClearThenLoad | PersonalityQuiz.xcodeproj/QuizResult.swift:56-80 | clearing and then loading gives the empty history |
| QuizResults.QuizHistoryManager.LoadHistory | PersonalityQuiz.xcodeproj/QuizResult.swift:56-64 | returns the stored history and never fails; an absent or undecodable key gives `[]` |
| QuizResults.QuizHistoryManager.SaveHistory | PersonalityQuiz.xcodeproj/QuizResult.swift:67-74 | only the key "quizHistoryKey" changes, and it now holds the given history |
| QuizResults.QuizHistoryManager.ClearHistory | PersonalityQuiz.xcodeproj/QuizResult.swift:77-80 | only the key "quizHistoryKey" is removed; the stored history is then empty |
| QuizResults.QuizHistoryManager.AddResult | PersonalityQuiz/Controllers/ResultsViewController.swift:111 | the stored history becomes the old one followed by the result; no other key changes |
| QuizManagerModel.CatalogOrder | PersonalityQuiz/Model/QuizManager.swift:28-30 | the catalog is the animal quiz followed by the colour quiz; their fixed ids (…0001 and …0002) differ |
| QuizManagerModel.AnimalQuizShape | PersonalityQuiz/Model/QuizManager.swift:59-97 | three questions (single, multiple, ranged), each with four answers covering every result once |
| QuizManagerModel.AnimalQuestionFourOfEach | PersonalityQuiz/Model/QuizManager.swift:59-97 | each animal-quiz question has four answers covering every result once |
| QuizManagerModel.ColorQuizShape | PersonalityQuiz/Model/QuizManager.swift:100-138 | the same shape for the colour quiz |
| QuizManagerModel.ColorQuestionFourOfEach | PersonalityQuiz/Model/QuizManager.swift:100-138 | each colour-quiz question has four answers covering every result once |
| QuizManagerModel.ShuffleEachAnswersKeepsQuestions | PersonalityQuiz/Model/QuizManager.swift:47-53 | shuffling each question's answers keeps the number of questions and each question's text and mode, and permutes its answers |
| QuizManagerModel.QuizManager.constructor | PersonalityQuiz/Model/QuizManager.swift:19-25 | no current quiz; both randomisation flags on |
| QuizManagerModel.QuizManager.ResetCurrentQuiz | PersonalityQuiz/Model/QuizManager.swift:33-35 | the current quiz becomes nil; the flags are unchanged |
| QuizManagerModel.QuizManager.GetRandomizedQuiz | PersonalityQuiz/Model/QuizManager.swift:38-56 | id, title and emoji are kept; with the question flag set the question order is a permutation of the input; with the answer flag set each question keeps its text and mode and its answers are permuted; with both flags off the questions are unchanged |
| QuizManagerModel.QuizManager.SaveQuizResult | PersonalityQuiz/Model/QuizManager.swift:143-147 | the stored history becomes the old one followed by exactly the result |
| QuizManagerModel.QuizManager.LoadQuizHistory | PersonalityQuiz/Model/QuizManager.swift:150-152 | returns the stored history |
| QuizManagerModel.QuizManager.ClearHistory | PersonalityQuiz/Model/QuizManager.swift:155-157 | the history key is removed; a load then gives `[]` |
| QuizManagerRoot.CatalogOrder | PersonalityQuiz/QuizManager.swift:19-21 | the catalog is the animal quiz followed by the colour quiz, with distinct fixed ids |
| QuizManagerRoot.AnimalQuizShape | PersonalityQuiz/QuizManager.swift:24-62 | three questions (single, multiple, ranged), each with four answers covering every result once |
| QuizManagerRoot.AnimalQuestionFourOfEach | PersonalityQuiz/QuizManager.swift:24-62 | each animal-quiz question has four answers covering every result once |
| QuizManagerRoot.ColorQuizShape | PersonalityQuiz/QuizManager.swift:65-103 | the same shape for the colour quiz |
| QuizManagerRoot.ColorQuestionFourOfEach | PersonalityQuiz/QuizManager.swift:65-103 | each colour-quiz question has four answers covering every result once |
| QuizManagerRoot.QuizManager.SaveQuizResult | PersonalityQuiz/QuizManager.swift:108-112 | exactly the result is appended to the loaded history, which is stored with its order unchanged |
| QuizManagerRoot.QuizManager.LoadQuizHistory | PersonalityQuiz/QuizManager.swift:115-117 | returns the stored list unchanged |
| QuizManagerRoot.QuizManager.ClearHistory | PersonalityQuiz/QuizManager.swift:120-122 | the history key is removed; a load then gives `[]` |
| Votes.Count | PersonalityQuiz.xcodeproj/ResultsViewController.swift:59-62 | the reference vote count of one result, at most one vote per response; CountAppend, CountsSumToLength and CountPositiveIffChosen state the rest |
| Votes.CountAppend | PersonalityQuiz.xcodeproj/ResultsViewController.swift:59-62 | one more response adds one vote to its own result and none to the others |
| Votes.CountsSumToLength | PersonalityQuiz/Controllers/ResultsViewController.swift:68-70 | each response is one vote: the four counts add up to the number of responses |
| Votes.CountPositiveIffChosen | PersonalityQuiz/Controllers/ResultsViewController.swift:68-70 | a result has votes exactly when some response chose it |
| Votes.TallyEmptyIffNoResponses | PersonalityQuiz/Controllers/ResultsViewController.swift:96-98 | a tally is empty exactly when there are no responses |
| Votes.WinnerWasChosen | PersonalityQuiz/Controllers/ResultsViewController.swift:73 | a most common result of a tally was chosen by some response, and no result has more votes |
| Votes.StrictMajorityWins | PersonalityQuiz/Controllers/ResultsViewController.swift:73 | a result with strictly more votes than every other result is the one picked |
| Votes.MostCommon | PersonalityQuiz/Controllers/ResultsViewController.swift:73 | for a non-empty table, returns a key whose count no other key exceeds |
| QuestionController.BuiltInQuizzesDisplayable | PersonalityQuiz/Controllers/QuestionViewController.swift:216-252 | every question of both built-in quizzes fits its layout: four slots for single and multiple questions |
| QuestionController.RandomizedDisplayable | PersonalityQuiz/Model/QuizManager.swift:38-56 | randomising a quiz whose questions all fit their layouts gives questions that all fit |
| QuestionController.Progress | PersonalityQuiz/Controllers/QuestionViewController.swift:198 | index / count as a real: stated by ProgressBounds |
| QuestionController.ProgressBounds | PersonalityQuiz/Controllers/QuestionViewController.swift:198 | the progress is 0 at the first question, lies in [0, 1) while a question is shown, and increases strictly with the index |
| QuestionController.QuestionTitle | PersonalityQuiz/Controllers/QuestionViewController.swift:192 | "Question #" and the 1-based number: stated by QuestionTitleNumber |
| QuestionController.QuestionTitleNumber | PersonalityQuiz/Controllers/QuestionViewController.swift:192 | the navigation title is "Question #" followed by digits that read back as index + 1 |
| QuestionController.TimerText | PersonalityQuiz/Controllers/QuestionViewController.swift:354 | the countdown label text: stated by TimerTextShowsTime |
| QuestionController.TimerTextShowsTime | PersonalityQuiz/Controllers/QuestionViewController.swift:354 | the countdown text is the clock prefix, then the seconds left, then 's'; for a non-negative count the middle reads back as that count |
| QuestionController.RangedIndex | PersonalityQuiz/Controllers/QuestionViewController.swift:307 | `Int(round(value * Float(count - 1)))`: stated by RangedIndexInRange and RangedDefaultOfFour |
| QuestionController.RangedIndexInRange | PersonalityQuiz/Controllers/QuestionViewController.swift:307 | for a slider value in [0, 1], `round(v·(count-1))` is a valid index; the two slider ends pick the first and the last answer |
| QuestionController.RangedDefaultOfFour | PersonalityQuiz/Controllers/QuestionViewController.swift:247 | the slider's reset value 0.5 picks answer index 2 of four, because halves round away from zero |
| QuestionController.SelectedIndices | PersonalityQuiz/Controllers/QuestionViewController.swift:280-298 | the indices of the switched-on options, in strictly ascending order, with none missing |
| QuestionController.SelectedFromLength | PersonalityQuiz/Controllers/QuestionViewController.swift:284-295 | the selection has exactly one answer per switched-on index |
| QuestionController.SelectedFromAt | PersonalityQuiz/Controllers/QuestionViewController.swift:284-295 | position j of the selection is the answer at the j-th switched-on index |
| QuestionController.SelectedFromAtIndices | PersonalityQuiz/Controllers/QuestionViewController.swift:280-298 | the selected answers are exactly the answers at those indices, in the same order |
| QuestionController.SelectedOfFour | PersonalityQuiz/Controllers/QuestionViewController.swift:284-295 | for four switches the selection is the four conditional appends in option order |
| QuestionController.AppendSwitchedOn | PersonalityQuiz/Controllers/QuestionViewController.swift:284-295 | the four switch checks extend the chosen answers by exactly the selection, every appended answer being one of the options |
| QuestionController.QuestionViewController.constructor | PersonalityQuiz/Controllers/QuestionViewController.swift:120-123 | index 0, no answers chosen, 30 seconds on the clock, no timer, nothing shown yet |
| QuestionController.QuestionViewController.ViewDidLoad | PersonalityQuiz/Controllers/QuestionViewController.swift:132-136 | the progress is reset and the timer label hidden, then the first question is shown with progress 0, title "Question #1" and its texts on the labels |
| QuestionController.QuestionViewController.ViewWillDisappear | PersonalityQuiz/Controllers/QuestionViewController.swift:138-141 | leaving the screen stops the timer and changes nothing else about the session |
| QuestionController.QuestionViewController.UpdateUI | PersonalityQuiz/Controllers/QuestionViewController.swift:183-252 | shows the current question with the stack of its mode, the progress index/count and the 1-based title; the question label holds the question's text; in single mode the four button titles, and in multiple mode the four labels, are the texts of answers 0 to 3; in ranged mode the two labels are the first and the last answer's texts (nil without answers); the labels of the other two stacks keep their texts; resets the switches (multiple) or sets the slider to 0.5 (ranged), the other control keeping its value; changes only these fields, so the index, the answers and the timer are untouched |
| QuestionController.LabelsFor | PersonalityQuiz/Controllers/QuestionViewController.swift:195-252 | the new labels show the question's text and the texts of its mode's stack (answers 0 to 3, or first and last); the other two stacks' labels are those given |
| QuestionController.QuestionViewController.IsLastQuestion | PersonalityQuiz/Controllers/QuestionViewController.swift:113-115 | no contract of its own; NextQuestion's contract gives its meaning: it held before the step exactly when the results are shown after it |
| QuestionController.QuestionViewController.SetSwitch | PersonalityQuiz/Controllers/QuestionViewController.swift:58 | the user flips switch k; the method may change only the switches, so the slider, progress, title, labels, timer and answers keep their values |
| QuestionController.QuestionViewController.SetSlider | PersonalityQuiz/Controllers/QuestionViewController.swift:81 | the user moves the slider within [0, 1]; the method may change only the slider, so the switches, progress, title, labels, timer and answers keep their values |
| QuestionController.QuestionViewController.SingleAnswerButtonPressed | PersonalityQuiz/Controllers/QuestionViewController.swift:257-275 | button k (1..4) appends exactly answer k−1 of the current question, any other sender appends nothing; in both cases the index advances by one; the next question, if any, has its texts on the labels and its controls reset, and the time left and the timer label are untouched |
| QuestionController.QuestionViewController.MultipleAnswerButtonPressed | PersonalityQuiz/Controllers/QuestionViewController.swift:280-298 | appends the answers whose switches are on, in ascending option order, possibly none; then advances by one; the next question, if any, has its texts on the labels and its controls reset, and the time left and the timer label are untouched |
| QuestionController.QuestionViewController.RangedAnswerButtonPressed | PersonalityQuiz/Controllers/QuestionViewController.swift:303-312 | appends exactly the answer at `round(v·(count−1))`, which is in range; then advances by one; the next question, if any, has its texts on the labels and its controls reset, and the time left and the timer label are untouched |
| QuestionController.QuestionViewController.NextQuestion | PersonalityQuiz/Controllers/QuestionViewController.swift:317-327 | stops the timer and increments the index by exactly one; shows the next question exactly when the new index is below the count and the results otherwise (exactly when it was the last question); a shown question's texts are on the labels, and the labels are unchanged when the results are shown; the chosen answers are untouched |
| QuestionController.QuestionViewController.StartTimer | PersonalityQuiz/Controllers/QuestionViewController.swift:337-350 | a running timer with 30 seconds left, the label visible, reading 30 seconds and not red; only the timer fields change, so the question, the controls and the answers are untouched |
| QuestionController.QuestionViewController.UpdateTimerLabel | PersonalityQuiz/Controllers/QuestionViewController.swift:353-362 | the label shows the seconds left and is red exactly from ten seconds down; only the label text and colour change |
| QuestionController.QuestionViewController.StopTimer | PersonalityQuiz/Controllers/QuestionViewController.swift:376-379 | the timer is off; nothing else changes |
| QuestionController.QuestionViewController.TimerTick | PersonalityQuiz/Controllers/QuestionViewController.swift:365-373 | the count drops by one and the label follows it; above zero the question stays on screen with the timer running; at zero or below the timer stops, the session advances one question without an answer, and the screen shows the next question or, after the last one, the results with the answers so far |
| QuestionController.QuestionViewController.HandleTimerExpired | PersonalityQuiz/Controllers/QuestionViewController.swift:382-396 | advances one question without appending an answer; the screen shows the next question or, after the last one, the results with the answers so far |
| ResultsController.Tally | PersonalityQuiz/Controllers/ResultsViewController.swift:68-70 | the `reduce(into:)` fold yields the tally of the responses |
| ResultsController.AnimalAnswerTextInjective | PersonalityQuiz/Controllers/ResultsViewController.swift:81 | the label "You are a <raw>!" identifies the result |
| ResultsController.ResultsViewController.constructor | PersonalityQuiz/Controllers/ResultsViewController.swift:28-31 | keeps the responses it is given |
| ResultsController.ResultsViewController.ViewDidLoad | PersonalityQuiz/Controllers/ResultsViewController.swift:40-45 | shows a most common result with its labels, then saves: nothing without a current quiz; otherwise one appended record with the given id and date, the current quiz's title and emoji, no time taken and a most common result |
| ResultsController.ResultsViewController.CalculatePersonalityResult | PersonalityQuiz/Controllers/ResultsViewController.swift:66-76 | for non-empty responses the result shown is a most common result of the tally; some response chose it and no result has more votes |
| ResultsController.ResultsViewController.DisplayResult | PersonalityQuiz/Controllers/ResultsViewController.swift:80-83 | the labels become "You are a <raw>!" and the result's definition |
| ResultsController.ResultsViewController.SaveQuizResult | PersonalityQuiz/Controllers/ResultsViewController.swift:88-114 | saves nothing, with the store unchanged, when there is no current quiz or no response; otherwise it appends exactly one record with the quiz's title and emoji, a most common result and time 0 |
| XcodeResultsController.DefaultEmojiListsResults | PersonalityQuiz.xcodeproj/ResultsViewController.swift:97 | the default emoji is the four raw characters in case order |
| XcodeResultsController.AnswerText | PersonalityQuiz.xcodeproj/ResultsViewController.swift:68-76 | the result label under the selected theme: stated by AnswerTextTheme |
| XcodeResultsController.DefinitionText | PersonalityQuiz.xcodeproj/ResultsViewController.swift:68-76 | the colour definition when the selected title contains "Color", the animal definition otherwise, including when no quiz is selected |
| XcodeResultsController.AnswerTextTheme | PersonalityQuiz.xcodeproj/ResultsViewController.swift:68-76 | the result label ends in '!' exactly in the animal theme, which includes the case of no selected quiz; in either theme the label identifies the result |
| XcodeResultsController.HistoryRecord | PersonalityQuiz.xcodeproj/ResultsViewController.swift:94-101 | the record with the quiz's title and emoji or the defaults, and the time or 0: stated by DefaultRecordIsAnimalThemed and SaveResultToHistory |
| XcodeResultsController.DefaultRecordIsAnimalThemed | PersonalityQuiz.xcodeproj/ResultsViewController.swift:94-101 | a record without a quiz carries the title "Personality Quiz", so it displays in the animal theme, and its time is `timeTaken ?? 0` |
| XcodeResultsController.ResultsViewController.constructor | PersonalityQuiz.xcodeproj/ResultsViewController.swift:32-37 | keeps the responses, the selected quiz and the time taken |
| XcodeResultsController.ResultsViewController.Frequencies | PersonalityQuiz.xcodeproj/ResultsViewController.swift:57-62 | the loop gives each response exactly one vote for its result: the table is the tally of the responses |
| XcodeResultsController.ResultsViewController.CalculatePersonalityResult | PersonalityQuiz.xcodeproj/ResultsViewController.swift:55-77 | for non-empty responses the result was chosen by some response and has maximal votes; the labels use the colour texts exactly when the selected title contains "Color" |
| XcodeResultsController.ResultsViewController.ShowResult | PersonalityQuiz.xcodeproj/ResultsViewController.swift:68-76 | both labels come from the same theme |
| XcodeResultsController.ResultsViewController.SaveResultToHistory | PersonalityQuiz.xcodeproj/ResultsViewController.swift:82-109 | does nothing with no responses; otherwise appends exactly one record: the quiz's title and emoji or the defaults, a most common result, and `timeTaken ?? 0` |
| XcodeResultsController.ResultsViewController.ViewDidLoad | PersonalityQuiz.xcodeproj/ResultsViewController.swift:45-50 | shows a result of maximal votes with its answer and definition labels; then the stored history grows by exactly one record, which has the given id and date, the selected quiz's title and emoji, the time taken and a result that was answered and has maximal votes |
| HistoryTable.DeleteInReversedViewAt | PersonalityQuiz/HistoryTableViewController.swift:136-140 | position k of the view-side and store-side results of a delete agree, and both have the same length |
| HistoryTable.DeleteInReversedView | PersonalityQuiz/HistoryTableViewController.swift:136-140 | deleting row i of the newest-first view and reversing back equals deleting element n−1−i of the stored order |
| HistoryTable.DeleteKeepsMirror | PersonalityQuiz/HistoryTableViewController.swift:136-140 | when the view mirrors the store, deleting row i and reversing back is the store without element n−1−i, and reversing twice gives the new view back |
| HistoryTable.HistoryTableViewController.constructor | PersonalityQuiz/HistoryTableViewController.swift:16 | starts with an empty list |
| HistoryTable.HistoryTableViewController.ViewDidLoad | PersonalityQuiz/HistoryTableViewController.swift:20-33 | title "Quiz History"; the list is the stored history newest first; the empty-state message is shown exactly when it is empty |
| HistoryTable.HistoryTableViewController.ViewWillAppear | PersonalityQuiz/HistoryTableViewController.swift:35-39 | reloads, so the list is again the stored history newest first with the empty-state message set accordingly; the title is kept |
| HistoryTable.HistoryTableViewController.LoadHistory | PersonalityQuiz/HistoryTableViewController.swift:44-50 | the list is the reverse of the stored history (newest first); the reload asks for the row count again, so the empty-state message is shown exactly when the list is empty |
| HistoryTable.HistoryTableViewController.NumberOfRows | PersonalityQuiz/HistoryTableViewController.swift:78-94 | one row per result; the empty-state message is shown exactly when there is none |
| HistoryTable.HistoryTableViewController.CellForRow | PersonalityQuiz/HistoryTableViewController.swift:96-109 | row i shows list[i], which is the i-th most recent stored result, with its title, date and time as detail |
| HistoryTable.HistoryTableViewController.DidSelectRow | PersonalityQuiz/HistoryTableViewController.swift:113-131 | the alert shows the row's display text and its quiz, date and time |
| HistoryTable.HistoryTableViewController.CommitEditing | PersonalityQuiz/HistoryTableViewController.swift:133-150 | a delete removes exactly the row (the length drops by one) and stores the list reversed back; when the list mirrored the store, the store then loses exactly its element n−1−row and keeps the others in order; a delete that empties the list shows the empty-state message; other editing styles change nothing |
| HistoryTable.HistoryTableViewController.RemoveRowAndSave | PersonalityQuiz/HistoryTableViewController.swift:134-140 | the delete branch before `deleteRows`: the row is removed, the list reversed back is stored, and a store the list mirrored loses exactly its element n−1−row |
| HistoryTable.HistoryTableViewController.ClearConfirmed | PersonalityQuiz/HistoryTableViewController.swift:63-67 | the store and the list both end up empty and the empty-state message is shown |
| HistoryItems.VisibleCountOfThree | PersonalityQuiz/Controllers/HistoryTableViewController.swift:90-127 | the number of visible views among three is the sum over the three views |
| HistoryItems.HistoryTableViewController.constructor | PersonalityQuiz/Controllers/HistoryTableViewController.swift:16-39 | starts with an empty list and three blank views |
| HistoryItems.HistoryTableViewController.ViewDidLoad | PersonalityQuiz/Controllers/HistoryTableViewController.swift:43-56 | title "Quiz History"; the list is the stored history newest first and the views show its first three entries |
| HistoryItems.HistoryTableViewController.ViewWillAppear | PersonalityQuiz/Controllers/HistoryTableViewController.swift:58-62 | reloads the list and the views |
| HistoryItems.HistoryTableViewController.LoadHistory | PersonalityQuiz/Controllers/HistoryTableViewController.swift:79-87 | the list is the reversed stored history, and view k shows the k-th most recent stored result |
| HistoryItems.HistoryTableViewController.UpdateHistoryUI | PersonalityQuiz/Controllers/HistoryTableViewController.swift:90-134 | view k (k = 1, 2, 3) is visible exactly when the list has more than k−1 entries, and then shows entry k−1; a hidden view keeps its old labels; exactly min(count, 3) views are visible |
| HistoryItems.HistoryTableViewController.ClearConfirmed | PersonalityQuiz/Controllers/HistoryTableViewController.swift:147-151 | the store and the list end up empty and all three views are hidden |
| QuizSelection.FirstWithTitleContaining | PersonalityQuiz.xcodeproj/QuizSelectionViewController.swift:56 | None exactly when no title contains the needle; otherwise the first quiz in catalog order whose title contains it |
| QuizSelection.CatalogLookup | PersonalityQuiz.xcodeproj/QuizSelectionViewController.swift:55-72 | on the built-in catalog "Animal" finds the animal quiz and "Color" finds the colour quiz |
| QuizSelection.AnimalLookup | PersonalityQuiz.xcodeproj/QuizSelectionViewController.swift:56 | on the built-in catalog "Animal" finds the animal quiz |
| QuizSelection.ColorLookup | PersonalityQuiz.xcodeproj/QuizSelectionViewController.swift:66 | on the built-in catalog "Color" finds the colour quiz, passing over the animal quiz |
| QuizSelection.AnimalTitleKeywords | PersonalityQuiz/Model/QuizManager.swift:62 | the animal title contains "Animal" and not "Color" |
| QuizSelection.ColorTitleKeywords | PersonalityQuiz/Model/QuizManager.swift:103 | the colour title contains "Color" and not "Animal" |
| QuizSelection.Highlight | PersonalityQuiz.xcodeproj/QuizSelectionViewController.swift:40-49 | Animal is red exactly when the title contains "Animal"; Color is red exactly when it contains "Color" but not "Animal"; at most one is red |
| QuizSelection.QuizSelectionViewController.constructor | PersonalityQuiz.xcodeproj/QuizSelectionViewController.swift:16 | no selection at the start |
| QuizSelection.QuizSelectionViewController.ViewDidLoad | PersonalityQuiz.xcodeproj/QuizSelectionViewController.swift:25-28 | the borders show the current selection |
| QuizSelection.QuizSelectionViewController.UpdateButtonStates | PersonalityQuiz.xcodeproj/QuizSelectionViewController.swift:33-50 | both borders are two points wide and at most one is red, as decided by the selected title |
| QuizSelection.QuizSelectionViewController.AnimalQuizButtonPressed | PersonalityQuiz.xcodeproj/QuizSelectionViewController.swift:55-62 | the first quiz whose title contains "Animal" is selected and highlighted; on the built-in catalog that is the animal quiz |
| QuizSelection.QuizSelectionViewController.ColorQuizButtonPressed | PersonalityQuiz.xcodeproj/QuizSelectionViewController.swift:65-72 | the first quiz whose title contains "Color" is selected; on the built-in catalog that is the colour quiz, and only the Color button is red |
| QuizSelection.QuizSelectionViewController.CancelButtonPressed | PersonalityQuiz.xcodeproj/QuizSelectionViewController.swift:75-79 | the selection becomes nil and the borders are left as they were |

## Left out

- UIKit presentation is not modelled: outlets, stack-view hiding, button styling, alerts, segues, `@IBSegueAction`, cell reuse and animation. The model only has the field values these screens set. A `reloadData` of the history table is modelled as its renewed row-count query, which sets the empty-state message.
- The real `Timer.scheduledTimer` and `DispatchQueue.main.asyncAfter` are left out. A tick is an explicit `TimerTick` call.
- `startTimer` is never called in the source, because the call in `updateUI` is commented out. The model keeps it callable.
- QuestionController.QuestionViewController.HandleTimerExpired: neither the "Time's Up!" alert nor the one-second delay before the advance is modelled. The advance happens at once, so the model has no input arriving during that second.
- JSON encoding and decoding are not modelled. `UserDefaults` is a map from keys to either an encoded history or undecodable data.
- Encoding a list of results is taken to succeed. The failure branch of `saveHistory`, which only prints, is therefore not modelled.
- `UUID()`, `Date()` and `DateFormatter` are parameters: fresh ids and dates are method arguments, and `formattedDate` is a function the history screens are given.
- Swift `Float` and `Double` are modelled as exact reals: the progress value, the slider value and `timeTaken`.
  - `round` is half away from zero.
  - `Int(_:)` truncates toward zero.
  - `/` and `%` on `Int` truncate toward zero.
  - Rounding errors of binary floating point are not modelled.
- Int overflow is not modelled. The counts and the indices are unbounded.
- Strings are sequences of Unicode scalars, so `contains` compares scalars, not grapheme clusters. This makes no difference for the ASCII needles "Color" and "Animal".
- `shuffle()` uses a parameter for its random numbers. Only the permutation property is claimed; the uniformity of the distribution is not.
- Votes.MostCommon: the source sorts the dictionary by count and takes the first entry. With ties the outcome depends on the dictionary's iteration order, so the model returns some key of maximal count, without saying which.
  - As a consequence, when a tie exists the result saved to the history need not be the result displayed. Both results screens compute the winner twice.
- QuizManagerModel.QuizManager.GetRandomizedQuiz: `Question` declares `answers` with `let` (PersonalityQuiz.xcodeproj/Question.swift:16), so `randomizedQuestion.answers.shuffle()` (PersonalityQuiz/Model/QuizManager.swift:50) mutates a constant and does not compile as written. The model follows the evident intent: each question's answers are shuffled.
- `QuizHistoryManager.addResult` is called by `PersonalityQuiz/Controllers/ResultsViewController.swift:111` but is not defined in `QuizResult.swift`. It is modelled as load-append-save, like every other save path of the app.
- Both `QuizManager` files declare a private `historyKey = "quizHistory"` that nothing reads. It is not modelled; the store key is "quizHistoryKey".
- The emoji of the variant catalog in `PersonalityQuiz/QuizManager.swift` (lines 28 and 69) are mis-decoded text ("ðŸ¾" and "ðŸŽ¨"). They are kept exactly as written.
- A question whose single or multiple layout has fewer than four answers crashes the source when it is shown (`answers[0..3]`).
  - The model requires the question about to be shown to have four answers (`Displayable` and `NextDisplayable`) instead of modelling the crash.
  - A ranged submit on an empty answer list is excluded the same way.
  - `Question.twoAnswerQuestion` and `threeAnswerQuestion` are single-choice questions with two and three answers, so they could not be shown by this screen. No built-in quiz uses them.
- QuestionController.QuestionViewController.ViewDidLoad: requires a quiz with at least one question. On a quiz without questions the source crashes in `updateUI`, which reads `questions[questionIndex]` (PersonalityQuiz/Controllers/QuestionViewController.swift:109, reached from lines 183-252); the model excludes that input instead of modelling the crash.
- `calculatePersonalityResult` in both results screens requires at least one response, because `first!` crashes on an empty table.
- The table delegate methods require a valid row, since UIKit only calls them with one.
- The back buttons, `print` logging, `navigationItem.hidesBackButton` and the results screen's `setupUI` styling are left out.
- The fields `responses`, `selectedQuiz` and `timeTaken` of `PersonalityQuiz.xcodeproj/ResultsViewController.swift` are declared `var` but never reassigned, so the model makes them constants.
- The description strings (`definition`, `colorDefinition`) are copied but nothing is proved about their wording. Their totality follows from the exhaustive `match`.
- These parts are outside the model: `IntroductionViewController`, the version of `QuizSelectionViewController` in the app folder, `SceneDelegate` and `AppDelegate`. They are app lifecycle, navigation and styling only.
