/** One attempt at a quiz: the question cursor, the append-only list of
    chosen answers, the three submit rules, the progress bar and the
    per-question countdown. */
module QuestionController {
  import opened Foundation
  import opened Questions
  import opened QuizManagerModel

  /** What the screen shows: nothing yet, the question at `index` with the
      stack of its response mode, or the results for `responses`. */
  datatype Screen = NotLoaded | QuestionShown(index: nat, stack: ResponseType) | ResultsShown(responses: seq<Answer>)

  /** The single and multiple layouts fill four fixed slots from
      `answers[0..3]`; the ranged layout reads only the first and last answer
      when there are any. */
  predicate Displayable(q: Question)
  {
    q.kind == Ranged || |q.answers| >= 4
  }

  predicate AllDisplayable(questions: seq<Question>)
  {
    forall i :: 0 <= i < |questions| ==> Displayable(questions[i])
  }

  /** Every question of both built-in quizzes can be laid out. */
  lemma BuiltInQuizzesDisplayable()
    ensures AllDisplayable(AnimalQuiz.questions) && AllDisplayable(ColorQuiz.questions)
  {
    AnimalQuestionFourOfEach(0);
    forall i | 0 <= i < |AnimalQuiz.questions| ensures Displayable(AnimalQuiz.questions[i]) {
      AnimalQuestionFourOfEach(i);
    }
    QuizManagerModel.ColorQuestionFourOfEach(0);
    forall i | 0 <= i < |ColorQuiz.questions| ensures Displayable(ColorQuiz.questions[i]) {
      QuizManagerModel.ColorQuestionFourOfEach(i);
    }
  }

  /** Randomising a quiz keeps every question displayable: the questions
      are only reordered and each keeps its mode and its number of answers. */
  lemma RandomizedDisplayable(questions: seq<Question>, ordered: seq<Question>, randomized: seq<Question>)
    requires AllDisplayable(questions)
    requires multiset(ordered) == multiset(questions)
    requires |randomized| == |ordered|
    requires forall i :: 0 <= i < |ordered| ==> SameUpToAnswerOrder(ordered[i], randomized[i])
    ensures AllDisplayable(randomized)
  {
    forall i | 0 <= i < |randomized| ensures Displayable(randomized[i]) {
      assert ordered[i] in multiset(questions);
      var j :| 0 <= j < |questions| && questions[j] == ordered[i];
      assert |multiset(randomized[i].answers)| == |multiset(ordered[i].answers)|;
    }
  }

  // ---------------------------------------------------------------------
  // Progress
  // ---------------------------------------------------------------------

  /** `Float(questionIndex) / Float(questions.count)`, as a rational. */
  function Progress(index: nat, count: nat): real
    requires count > 0
  {
    index as real / count as real
  }

  /** Progress starts at 0, grows by the same step with each question and
      stays below 1 while a question is on screen. */
  lemma ProgressBounds(index: nat, count: nat)
    requires count > 0
    ensures Progress(0, count) == 0.0
    ensures index < count ==> 0.0 <= Progress(index, count) < 1.0
    ensures index < count ==> Progress(index, count) <= Progress(count - 1, count)
    ensures Progress(index, count) < Progress(index + 1, count)
  {
    var c := count as real;
    assert Progress(index + 1, count) == Progress(index, count) + 1.0 / c;
    if index < count {
      assert index as real <= (count - 1) as real;
      assert index as real / c <= (count - 1) as real / c;
      assert (count - 1) as real / c < c / c;
    }
  }

  // ---------------------------------------------------------------------
  // Labels
  // ---------------------------------------------------------------------

  /** The navigation title of the question at `index`: its 1-based number. */
  function QuestionTitle(index: nat): string
  {
    "Question #" + NatToString(index + 1)
  }

  /** The title reads back as the question's 1-based number. */
  lemma QuestionTitleNumber(index: nat)
    ensures var t := QuestionTitle(index);
      |t| > 10 && t[..10] == "Question #" && IsDigits(t[10..]) && DecimalValue(t[10..]) == index + 1
  {
    NatToStringRoundTrip(index + 1);
    assert QuestionTitle(index)[10..] == NatToString(index + 1);
  }

  /** `updateTimerLabel`'s text for `t` seconds left. */
  function TimerText(t: int): string
  {
    "\U{23F1} Time: " + IntToString(t) + "s"
  }

  /** The countdown text reads back as the seconds left. */
  lemma TimerTextShowsTime(t: int)
    ensures var text := TimerText(t);
      |text| > 9 && text[..8] == "\U{23F1} Time: " && text[|text| - 1] == 's'
      && (t >= 0 ==> IsDigits(text[8..|text| - 1]) && DecimalValue(text[8..|text| - 1]) == t)
  {
    IntToStringRoundTrip(t);
    assert TimerText(t)[8..|TimerText(t)| - 1] == IntToString(t);
  }

  // ---------------------------------------------------------------------
  // The ranged rule
  // ---------------------------------------------------------------------

  /** Swift's `round`: halves go away from zero. */
  function RoundHalfAwayFromZero(x: real): int
  {
    if x >= 0.0 then (x + 0.5).Floor else -((-x + 0.5).Floor)
  }

  /** `Int(round(value * Float(count - 1)))`. */
  function RangedIndex(value: real, count: nat): int
  {
    RoundHalfAwayFromZero(value * (count as int - 1) as real)
  }

  /** For a slider value in [0, 1] the ranged index is a valid answer index;
      the ends of the slider pick the first and the last answer. */
  lemma RangedIndexInRange(value: real, count: nat)
    requires 0.0 <= value <= 1.0 && count >= 1
    ensures 0 <= RangedIndex(value, count) < count
    ensures value == 0.0 ==> RangedIndex(value, count) == 0
    ensures value == 1.0 ==> RangedIndex(value, count) == count - 1
  {
    var m := (count - 1) as real;
    assert 0.0 <= value * m <= 1.0 * m;
  }

  /** The slider's reset position picks answer 2 of four. */
  lemma RangedDefaultOfFour()
    ensures RangedIndex(0.5, 4) == 2
  {
  }

  // ---------------------------------------------------------------------
  // The multiple rule
  // ---------------------------------------------------------------------

  /** The indices from `k` on whose switch is on, in ascending order. */
  function SelectedIndices(on: seq<bool>, k: nat): (r: seq<nat>)
    ensures forall j :: 0 <= j < |r| ==> k <= r[j] < |on| && on[r[j]]
    ensures forall j, j' :: 0 <= j < j' < |r| ==> r[j] < r[j']
    ensures forall i :: k <= i < |on| && on[i] ==> i in r
    decreases |on| - k
  {
    if k >= |on| then [] else (if on[k] then [k] else []) + SelectedIndices(on, k + 1)
  }

  function If(b: bool, a: Answer): seq<Answer>
  {
    if b then [a] else []
  }

  /** The answers from option `k` on whose switches are on, in ascending
      option order: the four checks of `multipleAnswerButtonPressed`. */
  function SelectedFrom(answers: seq<Answer>, on: seq<bool>, k: nat): seq<Answer>
    requires |on| <= |answers|
    decreases |on| - k
  {
    if k >= |on| then [] else If(on[k], answers[k]) + SelectedFrom(answers, on, k + 1)
  }

  /** The answers whose switches are on. */
  function SelectedAnswers(answers: seq<Answer>, on: seq<bool>): seq<Answer>
    requires |on| <= |answers|
  {
    SelectedFrom(answers, on, 0)
  }

  /** The selection has one answer per switched-on index. */
  lemma {:induction false} SelectedFromLength(answers: seq<Answer>, on: seq<bool>, k: nat)
    requires |on| <= |answers|
    ensures |SelectedFrom(answers, on, k)| == |SelectedIndices(on, k)|
    decreases |on| - k
  {
    if k < |on| {
      SelectedFromLength(answers, on, k + 1);
    }
  }

  /** Position `j` of the selection is the answer at the `j`-th
      switched-on index. */
  lemma {:induction false} SelectedFromAt(answers: seq<Answer>, on: seq<bool>, k: nat, j: nat)
    requires |on| <= |answers| && j < |SelectedIndices(on, k)|
    requires |SelectedFrom(answers, on, k)| == |SelectedIndices(on, k)|
    ensures SelectedFrom(answers, on, k)[j] == answers[SelectedIndices(on, k)[j]]
    decreases |on| - k
  {
    var rest := SelectedIndices(on, k + 1);
    var selRest := SelectedFrom(answers, on, k + 1);
    SelectedFromLength(answers, on, k + 1);
    if on[k] {
      assert SelectedIndices(on, k) == [k] + rest;
      assert SelectedFrom(answers, on, k) == [answers[k]] + selRest;
      if j > 0 {
        SelectedFromAt(answers, on, k + 1, j - 1);
      }
    } else {
      assert SelectedIndices(on, k) == rest;
      assert SelectedFrom(answers, on, k) == selRest;
      SelectedFromAt(answers, on, k + 1, j);
    }
  }

  /** The selection is exactly the answers at the switched-on indices, in
      ascending order. */
  lemma SelectedFromAtIndices(answers: seq<Answer>, on: seq<bool>, k: nat)
    requires |on| <= |answers|
    ensures var idx := SelectedIndices(on, k);
      |SelectedFrom(answers, on, k)| == |idx|
      && forall j :: 0 <= j < |idx| ==> SelectedFrom(answers, on, k)[j] == answers[idx[j]]
  {
    SelectedFromLength(answers, on, k);
    forall j | 0 <= j < |SelectedIndices(on, k)|
      ensures SelectedFrom(answers, on, k)[j] == answers[SelectedIndices(on, k)[j]]
    {
      SelectedFromAt(answers, on, k, j);
    }
  }

  /** With four switches the selection is the switched-on answers taken in
      the order one, two, three, four. */
  lemma SelectedOfFour(answers: seq<Answer>, on: seq<bool>)
    requires |on| == 4 && |answers| >= 4
    ensures SelectedAnswers(answers, on)
         == If(on[0], answers[0]) + If(on[1], answers[1]) + If(on[2], answers[2]) + If(on[3], answers[3])
  {
    assert SelectedFrom(answers, on, 4) == [];
    assert SelectedFrom(answers, on, 3) == If(on[3], answers[3]);
    assert SelectedFrom(answers, on, 2) == If(on[2], answers[2]) + If(on[3], answers[3]);
    assert SelectedFrom(answers, on, 1)
        == If(on[1], answers[1]) + If(on[2], answers[2]) + If(on[3], answers[3]);
  }

  /** The four switch checks of `multipleAnswerButtonPressed`: `chosen`
      extends `prefix` by the answers whose switches are on, in ascending
      option order, and by nothing else. */
  method AppendSwitchedOn(prefix: seq<Answer>, answers: seq<Answer>, on: seq<bool>) returns (chosen: seq<Answer>)
    requires |on| == 4 && |answers| >= 4
    ensures chosen == prefix + SelectedAnswers(answers, on)
    ensures forall a :: a in chosen[|prefix|..] ==> a in answers
  {
    SelectedOfFour(answers, on);
    chosen := prefix;
    if on[0] {
      chosen := chosen + [answers[0]];
    }
    if on[1] {
      chosen := chosen + [answers[1]];
    }
    if on[2] {
      chosen := chosen + [answers[2]];
    }
    if on[3] {
      chosen := chosen + [answers[3]];
    }
    assert chosen[|prefix|..] == SelectedAnswers(answers, on);
  }

  // ---------------------------------------------------------------------
  // Bookkeeping: the answers recorded per answered question
  // ---------------------------------------------------------------------

  function Flatten(chunks: seq<seq<Answer>>): seq<Answer>
  {
    if chunks == [] then [] else Flatten(chunks[..|chunks| - 1]) + chunks[|chunks| - 1]
  }

  lemma FlattenAppend(chunks: seq<seq<Answer>>, c: seq<Answer>)
    ensures Flatten(chunks + [c]) == Flatten(chunks) + c
  {
    assert (chunks + [c])[..|chunks|] == chunks;
  }

  /** Answers recorded for question `q` are answers of `q`; a single or
      ranged question records at most one. */
  predicate RecordedFor(chunk: seq<Answer>, q: Question)
  {
    (forall a :: a in chunk ==> a in q.answers) && (q.kind != Multiple ==> |chunk| <= 1)
  }

  /** The texts `updateUI` puts on screen: `questionLabel`,
      `singleButton1...4`, `multiLabel1...4`, and `rangedLabel1/2`, which
      hold `answers.first?.text` and `answers.last?.text`. */
  datatype QuestionLabels = QuestionLabels(
    questionText: string,
    singleTitles: seq<string>,
    multiTexts: seq<string>,
    rangedFirst: Option<string>,
    rangedLast: Option<string>)

  /** The storyboard's labels before any question is shown. */
  const BlankLabels: QuestionLabels := QuestionLabels("", ["", "", "", ""], ["", "", "", ""], None, None)

  /** `texts` are the texts of the first four answers, in order. */
  predicate FirstFourTexts(texts: seq<string>, answers: seq<Answer>)
  {
    && |texts| == 4 && |answers| >= 4
    && texts[0] == answers[0].text && texts[1] == answers[1].text
    && texts[2] == answers[2].text && texts[3] == answers[3].text
  }

  /** The labels show question `q` in the stack of its mode: the question
      text, and the four button titles, the four switch labels, or the first
      and last answer's texts (nil when there is no answer). */
  predicate ShowsTexts(labels: QuestionLabels, q: Question)
  {
    && labels.questionText == q.text
    && (q.kind == Single ==> FirstFourTexts(labels.singleTitles, q.answers))
    && (q.kind == Multiple ==> FirstFourTexts(labels.multiTexts, q.answers))
    && (q.kind == Ranged ==>
          && labels.rangedFirst == (if q.answers == [] then None else Some(q.answers[0].text))
          && labels.rangedLast == (if q.answers == [] then None else Some(q.answers[|q.answers| - 1].text)))
  }

  /** The labels after `updateUI` shows displayable question `q`: the
      question text and the texts of the stack of `q`'s mode change; the
      labels of the two hidden stacks keep what they held. */
  function LabelsFor(labels: QuestionLabels, q: Question): (r: QuestionLabels)
    requires Displayable(q)
    ensures ShowsTexts(r, q)
    ensures q.kind != Single ==> r.singleTitles == labels.singleTitles
    ensures q.kind != Multiple ==> r.multiTexts == labels.multiTexts
    ensures q.kind != Ranged ==> r.rangedFirst == labels.rangedFirst && r.rangedLast == labels.rangedLast
  {
    var a := q.answers;
    match q.kind
    case Single =>
      labels.(questionText := q.text, singleTitles := [a[0].text, a[1].text, a[2].text, a[3].text])
    case Multiple =>
      labels.(questionText := q.text, multiTexts := [a[0].text, a[1].text, a[2].text, a[3].text])
    case Ranged =>
      labels.(questionText := q.text,
              rangedFirst := if a == [] then None else Some(a[0].text),
              rangedLast := if a == [] then None else Some(a[|a| - 1].text))
  }

  /** The question screen. */
  class QuestionViewController {
    const quiz: Quiz
    var questionIndex: nat
    var answersChosen: seq<Answer>
    var timeRemaining: int
    /** `questionTimer != nil`. */
    var timerRunning: bool
    /** `questionProgressView.progress`. */
    var progress: real
    /** `navigationItem.title`. */
    var navigationTitle: string
    /** `timerLabel`: its text, whether it is red, whether it is hidden. */
    var timerLabel: string
    var timerLabelRed: bool
    var timerLabelHidden: bool
    /** The question and answer texts on screen. */
    var labels: QuestionLabels
    /** `multiSwitch1...4.isOn`. */
    var switches: seq<bool>
    /** `rangedSlider.value`. */
    var sliderValue: real
    var screen: Screen
    /** The answers each answered question recorded, in order. */
    ghost var recorded: seq<seq<Answer>>

    /** The session bookkeeping: one recorded group per answered question,
        and the chosen answers are those groups in order. */
    ghost predicate Bookkeeping()
      reads this
    {
      Recording() && |switches| == 4 && 0.0 <= sliderValue <= 1.0
    }

    /** The recorded groups alone; the screen's own fields do not affect it. */
    ghost predicate Recording()
      reads this`questionIndex, this`recorded, this`answersChosen
    {
      && questionIndex <= |quiz.questions|
      && |recorded| == questionIndex
      && answersChosen == Flatten(recorded)
      && (forall j :: 0 <= j < questionIndex ==> RecordedFor(recorded[j], quiz.questions[j]))
    }

    ghost predicate Valid()
      reads this
    {
      && Bookkeeping()
      && (screen.QuestionShown? ==>
            && screen.index == questionIndex < |quiz.questions|
            && screen.stack == quiz.questions[questionIndex].kind
            && Displayable(quiz.questions[questionIndex])
            && progress == Progress(questionIndex, |quiz.questions|)
            && navigationTitle == QuestionTitle(questionIndex))
      && (screen.ResultsShown? ==> questionIndex == |quiz.questions| && screen.responses == answersChosen)
      && (screen.NotLoaded? ==> questionIndex == 0)
      && (timerRunning ==> screen.QuestionShown?)
    }

    /** The controls after showing a question of mode `kind`: a multiple
        stack starts with every switch off, a ranged stack with the slider in
        the middle, and the other control keeps its value. */
    ghost predicate StackReset(kind: ResponseType, oldSwitches: seq<bool>, oldSlider: real)
      reads this`switches, this`sliderValue
    {
      && switches == (if kind == Multiple then [false, false, false, false] else oldSwitches)
      && sliderValue == (if kind == Ranged then 0.5 else oldSlider)
    }

    /** After a step: the controls of the question now shown are reset, and
        with the results shown neither control changed. */
    ghost predicate NextStackReset(oldSwitches: seq<bool>, oldSlider: real)
      reads this`questionIndex, this`switches, this`sliderValue
    {
      if questionIndex < |quiz.questions|
      then StackReset(quiz.questions[questionIndex].kind, oldSwitches, oldSlider)
      else switches == oldSwitches && sliderValue == oldSlider
    }

    /** The question that would be shown next can be laid out. */
    ghost predicate NextDisplayable()
      reads this
    {
      questionIndex + 1 < |quiz.questions| ==> Displayable(quiz.questions[questionIndex + 1])
    }

    /** `isLastQuestion`. */
    function IsLastQuestion(): bool
      reads this
    {
      questionIndex as int >= |quiz.questions| - 1
    }

    /** `init?(coder:quiz:)`. */
    constructor (quiz: Quiz)
      ensures Valid()
      ensures this.quiz == quiz && questionIndex == 0 && answersChosen == []
      ensures timeRemaining == 30 && !timerRunning && screen == NotLoaded
      ensures labels == BlankLabels
    {
      this.quiz := quiz;
      questionIndex := 0;
      answersChosen := [];
      timeRemaining := 30;
      timerRunning := false;
      progress := 0.0;
      navigationTitle := "";
      timerLabel := "";
      timerLabelRed := false;
      timerLabelHidden := false;
      labels := BlankLabels;
      switches := [false, false, false, false];
      sliderValue := 0.5;
      screen := NotLoaded;
      recorded := [];
    }

    /** `viewDidLoad`: `setupUI` resets the progress bar, then the first
        question is shown. */
    method ViewDidLoad()
      requires Valid() && screen == NotLoaded
      requires |quiz.questions| > 0 && Displayable(quiz.questions[0])
      modifies this
      ensures Valid()
      ensures screen == QuestionShown(0, quiz.questions[0].kind) && progress == 0.0
      ensures navigationTitle == "Question #1" && timerLabelHidden
      ensures ShowsTexts(labels, quiz.questions[0])
      ensures answersChosen == [] && questionIndex == 0
    {
      progress := 0.0;
      timerLabelHidden := true;
      UpdateUI();
      ProgressBounds(0, |quiz.questions|);
    }

    /** `viewWillDisappear`: leaving the screen stops the countdown. */
    method ViewWillDisappear()
      requires Valid()
      modifies this
      ensures Valid() && !timerRunning
      ensures questionIndex == old(questionIndex) && answersChosen == old(answersChosen)
      ensures screen == old(screen) && timeRemaining == old(timeRemaining) && labels == old(labels)
    {
      StopTimer();
    }

    /** `updateUI`: show the current question with the stack of its mode;
        a multiple stack starts with every switch off, a ranged stack with
        the slider in the middle. */
    method UpdateUI()
      requires Bookkeeping() && questionIndex < |quiz.questions|
      requires Displayable(quiz.questions[questionIndex])
      requires timerRunning ==> screen.QuestionShown?
      modifies this`navigationTitle, this`progress, this`switches, this`sliderValue, this`screen, this`labels
      ensures Valid()
      ensures screen == QuestionShown(questionIndex, quiz.questions[questionIndex].kind)
      ensures progress == Progress(questionIndex, |quiz.questions|)
      ensures navigationTitle == QuestionTitle(questionIndex)
      ensures StackReset(quiz.questions[questionIndex].kind, old(switches), old(sliderValue))
      ensures ShowsTexts(labels, quiz.questions[questionIndex])
      ensures labels == LabelsFor(old(labels), quiz.questions[questionIndex])
    {
      var current := quiz.questions[questionIndex];
      navigationTitle := "Question #" + NatToString(questionIndex + 1);
      progress := questionIndex as real / |quiz.questions| as real;
      // only the stack of the question's mode is reset
      switches := if current.kind == Multiple then [false, false, false, false] else switches;
      sliderValue := if current.kind == Ranged then 0.5 else sliderValue;
      screen := QuestionShown(questionIndex, current.kind);
      labels := LabelsFor(labels, current);
    }

    /** The user flips switch `k` (0-based) of the multiple stack. */
    method SetSwitch(k: nat, on: bool)
      requires Valid() && k < 4
      modifies this`switches
      ensures Valid()
      ensures switches == old(switches)[k := on]
      ensures questionIndex == old(questionIndex) && answersChosen == old(answersChosen)
      ensures screen == old(screen) && labels == old(labels)
      ensures timerRunning == old(timerRunning) && timeRemaining == old(timeRemaining)
    {
      switches := switches[k := on];
    }

    /** The user moves the slider, whose range is [0, 1]. */
    method SetSlider(value: real)
      requires Valid() && 0.0 <= value <= 1.0
      modifies this`sliderValue
      ensures Valid()
      ensures sliderValue == value
      ensures questionIndex == old(questionIndex) && answersChosen == old(answersChosen)
      ensures screen == old(screen) && labels == old(labels)
      ensures timerRunning == old(timerRunning) && timeRemaining == old(timeRemaining)
    {
      sliderValue := value;
    }

    /** `singleAnswerButtonPressed`: button `sender` (1..4) appends the
        matching answer; any other sender appends nothing. Both advance. */
    method SingleAnswerButtonPressed(sender: nat)
      requires Valid() && screen.QuestionShown? && screen.stack == Single
      requires NextDisplayable()
      modifies this`answersChosen, this`timerRunning, this`questionIndex, this`recorded
      modifies this`navigationTitle, this`progress, this`switches, this`sliderValue, this`screen, this`labels
      ensures Valid()
      ensures questionIndex == old(questionIndex) + 1
      ensures answersChosen == old(answersChosen)
        + (if 1 <= sender <= 4 then [quiz.questions[old(questionIndex)].answers[sender - 1]] else [])
      ensures screen == if questionIndex < |quiz.questions|
                        then QuestionShown(questionIndex, quiz.questions[questionIndex].kind)
                        else ResultsShown(answersChosen)
      ensures !timerRunning
      ensures if questionIndex < |quiz.questions|
              then ShowsTexts(labels, quiz.questions[questionIndex])
              else labels == old(labels)
      ensures NextStackReset(old(switches), old(sliderValue))
    {
      var currentAnswers := quiz.questions[questionIndex].answers;
      ghost var chunk: seq<Answer> := [];
      match sender {
        case 1 =>
          answersChosen := answersChosen + [currentAnswers[0]];
          chunk := [currentAnswers[0]];
        case 2 =>
          answersChosen := answersChosen + [currentAnswers[1]];
          chunk := [currentAnswers[1]];
        case 3 =>
          answersChosen := answersChosen + [currentAnswers[2]];
          chunk := [currentAnswers[2]];
        case 4 =>
          answersChosen := answersChosen + [currentAnswers[3]];
          chunk := [currentAnswers[3]];
        case _ =>
      }
      NextQuestion(chunk);
    }

    /** `multipleAnswerButtonPressed`: appends the answers whose switches are
        on, in ascending option order (possibly none), then advances. */
    method MultipleAnswerButtonPressed()
      requires Valid() && screen.QuestionShown? && screen.stack == Multiple
      requires NextDisplayable()
      modifies this`answersChosen, this`timerRunning, this`questionIndex, this`recorded
      modifies this`navigationTitle, this`progress, this`switches, this`sliderValue, this`screen, this`labels
      ensures Valid()
      ensures questionIndex == old(questionIndex) + 1
      ensures answersChosen == old(answersChosen)
        + SelectedAnswers(quiz.questions[old(questionIndex)].answers, old(switches))
      ensures screen == if questionIndex < |quiz.questions|
                        then QuestionShown(questionIndex, quiz.questions[questionIndex].kind)
                        else ResultsShown(answersChosen)
      ensures !timerRunning
      ensures if questionIndex < |quiz.questions|
              then ShowsTexts(labels, quiz.questions[questionIndex])
              else labels == old(labels)
      ensures NextStackReset(old(switches), old(sliderValue))
    {
      var currentAnswers := quiz.questions[questionIndex].answers;
      answersChosen := AppendSwitchedOn(answersChosen, currentAnswers, switches);
      NextQuestion(SelectedAnswers(currentAnswers, switches));
    }

    /** `rangedAnswerButtonPressed`: appends the one answer at
        `round(value * (count - 1))`, then advances. */
    method RangedAnswerButtonPressed()
      requires Valid() && screen.QuestionShown? && screen.stack == Ranged
      requires |quiz.questions[questionIndex].answers| >= 1
      requires NextDisplayable()
      modifies this`answersChosen, this`timerRunning, this`questionIndex, this`recorded
      modifies this`navigationTitle, this`progress, this`switches, this`sliderValue, this`screen, this`labels
      ensures Valid()
      ensures questionIndex == old(questionIndex) + 1
      ensures 0 <= RangedIndex(old(sliderValue), |quiz.questions[old(questionIndex)].answers|)
               < |quiz.questions[old(questionIndex)].answers|
      ensures answersChosen == old(answersChosen)
        + [quiz.questions[old(questionIndex)].answers[
             RangedIndex(old(sliderValue), |quiz.questions[old(questionIndex)].answers|)]]
      ensures screen == if questionIndex < |quiz.questions|
                        then QuestionShown(questionIndex, quiz.questions[questionIndex].kind)
                        else ResultsShown(answersChosen)
      ensures !timerRunning
      ensures if questionIndex < |quiz.questions|
              then ShowsTexts(labels, quiz.questions[questionIndex])
              else labels == old(labels)
      ensures NextStackReset(old(switches), old(sliderValue))
    {
      var currentAnswers := quiz.questions[questionIndex].answers;
      RangedIndexInRange(sliderValue, |currentAnswers|);
      var index := RangedIndex(sliderValue, |currentAnswers|);
      answersChosen := answersChosen + [currentAnswers[index]];
      NextQuestion([currentAnswers[index]]);
    }

    /** `nextQuestion`: stop the timer and step the index by one; show the
        next question if there is one, the results otherwise. */
    method NextQuestion(ghost chunk: seq<Answer>)
      requires questionIndex < |quiz.questions|
      requires |recorded| == questionIndex
      requires answersChosen == Flatten(recorded) + chunk
      requires forall j :: 0 <= j < questionIndex ==> RecordedFor(recorded[j], quiz.questions[j])
      requires RecordedFor(chunk, quiz.questions[questionIndex])
      requires |switches| == 4 && 0.0 <= sliderValue <= 1.0
      requires NextDisplayable()
      modifies this`timerRunning, this`questionIndex, this`recorded
      modifies this`navigationTitle, this`progress, this`switches, this`sliderValue, this`screen, this`labels
      ensures Valid()
      ensures questionIndex == old(questionIndex) + 1
      ensures recorded == old(recorded) + [chunk]
      ensures old(IsLastQuestion()) <==> screen.ResultsShown?
      ensures screen == if questionIndex < |quiz.questions|
                        then QuestionShown(questionIndex, quiz.questions[questionIndex].kind)
                        else ResultsShown(answersChosen)
      ensures if questionIndex < |quiz.questions|
              then ShowsTexts(labels, quiz.questions[questionIndex])
              else labels == old(labels)
      ensures NextStackReset(old(switches), old(sliderValue))
      ensures !timerRunning
    {
      StopTimer();
      FlattenAppend(recorded, chunk);
      ghost var before := recorded;
      questionIndex := questionIndex + 1;
      recorded := recorded + [chunk];
      forall j | 0 <= j < questionIndex
        ensures RecordedFor(recorded[j], quiz.questions[j])
      {
        if j < |before| {
          assert recorded[j] == before[j];
        }
      }
      assert Recording();
      if questionIndex < |quiz.questions| {
        UpdateUI();
      } else {
        screen := ResultsShown(answersChosen);
      }
    }

    /** `startTimer`: a fresh 30-second countdown. */
    method StartTimer()
      requires Valid() && screen.QuestionShown?
      modifies this`timerRunning, this`timeRemaining, this`timerLabelHidden, this`timerLabel, this`timerLabelRed
      ensures Valid()
      ensures timeRemaining == 30 && timerRunning
      ensures !timerLabelHidden && timerLabel == TimerText(30) && !timerLabelRed
      ensures questionIndex == old(questionIndex) && answersChosen == old(answersChosen)
      ensures screen == old(screen) && labels == old(labels)
    {
      StopTimer();
      timeRemaining := 30;
      timerLabelHidden := false;
      UpdateTimerLabel();
      timerRunning := true;
    }

    /** `stopTimer`. */
    method StopTimer()
      modifies this`timerRunning
      ensures !timerRunning
    {
      timerRunning := false;
    }

    /** `updateTimerLabel`: the seconds left, in red from ten seconds down. */
    method UpdateTimerLabel()
      modifies this`timerLabel, this`timerLabelRed
      ensures timerLabel == TimerText(timeRemaining)
      ensures timerLabelRed <==> timeRemaining <= 10
      ensures questionIndex == old(questionIndex) && answersChosen == old(answersChosen)
      ensures screen == old(screen) && timeRemaining == old(timeRemaining) && progress == old(progress)
      ensures switches == old(switches) && sliderValue == old(sliderValue) && recorded == old(recorded)
      ensures navigationTitle == old(navigationTitle) && timerRunning == old(timerRunning)
      ensures timerLabelHidden == old(timerLabelHidden) && labels == old(labels)
    {
      timerLabel := "\U{23F1} Time: " + IntToString(timeRemaining) + "s";
      if timeRemaining <= 10 {
        timerLabelRed := true;
      } else {
        timerLabelRed := false;
      }
    }

    /** `timerTick`, fired once a second while the timer runs: count down by
        one; at zero or below stop and move on without an answer. */
    method TimerTick()
      requires Valid() && timerRunning
      requires NextDisplayable()
      modifies this
      ensures Valid()
      ensures timeRemaining == old(timeRemaining) - 1
      ensures timerLabel == TimerText(timeRemaining) && (timerLabelRed <==> timeRemaining <= 10)
      ensures answersChosen == old(answersChosen)
      ensures timeRemaining > 0 ==> timerRunning && questionIndex == old(questionIndex) && screen == old(screen)
                                    && labels == old(labels)
      ensures timeRemaining <= 0 ==> !timerRunning && questionIndex == old(questionIndex) + 1
      ensures timeRemaining <= 0 ==> (old(IsLastQuestion()) <==> screen.ResultsShown?)
      ensures timeRemaining <= 0 ==>
        screen == if questionIndex < |quiz.questions|
                  then QuestionShown(questionIndex, quiz.questions[questionIndex].kind)
                  else ResultsShown(answersChosen)
    {
      timeRemaining := timeRemaining - 1;
      UpdateTimerLabel();
      if timeRemaining <= 0 {
        StopTimer();
        HandleTimerExpired();
      }
    }

    /** `handleTimerExpired`: after the "Time's Up!" alert, advance without
        recording an answer. */
    method HandleTimerExpired()
      requires Valid() && screen.QuestionShown? && !timerRunning
      requires NextDisplayable()
      modifies this
      ensures Valid()
      ensures questionIndex == old(questionIndex) + 1 && answersChosen == old(answersChosen)
      ensures !timerRunning && timeRemaining == old(timeRemaining)
      ensures timerLabel == old(timerLabel) && timerLabelRed == old(timerLabelRed) && timerLabelHidden == old(timerLabelHidden)
      ensures old(IsLastQuestion()) <==> screen.ResultsShown?
      ensures screen == if questionIndex < |quiz.questions|
                        then QuestionShown(questionIndex, quiz.questions[questionIndex].kind)
                        else ResultsShown(answersChosen)
    {
      assert answersChosen == Flatten(recorded) + [];
      NextQuestion([]);
    }
  }
}
