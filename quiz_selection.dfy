/** The quiz picker of PersonalityQuiz.xcodeproj: each button selects the
    first catalog quiz whose title contains a keyword, the selected button
    is outlined in red, and cancel clears the selection. */
module QuizSelection {
  import opened Foundation
  import opened QuizManagerModel

  /** `availableQuizzes.first { $0.title.contains(needle) }`. */
  function FirstWithTitleContaining(quizzes: seq<Quiz>, needle: string): (r: Option<Quiz>)
    ensures r.None? <==> forall i :: 0 <= i < |quizzes| ==> !Contains(quizzes[i].title, needle)
    ensures r.Some? ==> exists i :: (0 <= i < |quizzes| && quizzes[i] == r.value
                                     && Contains(r.value.title, needle)
                                     && forall j :: 0 <= j < i ==> !Contains(quizzes[j].title, needle))
  {
    if quizzes == [] then None
    else if Contains(quizzes[0].title, needle) then Some(quizzes[0])
    else
      var r := FirstWithTitleContaining(quizzes[1..], needle);
      assert forall i :: 1 <= i < |quizzes| ==> quizzes[i] == quizzes[1..][i - 1];
      if r.Some? then
        var k :| 0 <= k < |quizzes[1..]| && quizzes[1..][k] == r.value
                  && Contains(r.value.title, needle)
                  && forall j :: 0 <= j < k ==> !Contains(quizzes[1..][j].title, needle);
        assert quizzes[k + 1] == r.value;
        assert forall j :: 0 <= j < k + 1 ==> !Contains(quizzes[j].title, needle) by {
          forall j | 0 <= j < k + 1 ensures !Contains(quizzes[j].title, needle) {
            if j > 0 {
              assert quizzes[j] == quizzes[1..][j - 1];
            }
          }
        }
        r
      else r
  }

  /** On the built-in catalog the Animal button finds the animal quiz and
      the Color button the colour quiz. */
  lemma CatalogLookup()
    ensures FirstWithTitleContaining(AvailableQuizzes, "Animal") == Some(AnimalQuiz)
    ensures FirstWithTitleContaining(AvailableQuizzes, "Color") == Some(ColorQuiz)
  {
    AnimalLookup();
    ColorLookup();
  }

  lemma AnimalLookup()
    ensures FirstWithTitleContaining(AvailableQuizzes, "Animal") == Some(AnimalQuiz)
  {
    CatalogOrder();
    AnimalTitleKeywords();
  }

  lemma ColorLookup()
    ensures FirstWithTitleContaining(AvailableQuizzes, "Color") == Some(ColorQuiz)
  {
    CatalogOrder();
    AnimalTitleKeywords();
    ColorTitleKeywords();
    var qs := AvailableQuizzes;
    assert qs[1..][0] == ColorQuiz;
    assert FirstWithTitleContaining(qs[1..], "Color") == Some(ColorQuiz);
  }

  /** The animal title contains "Animal" but not "Color". */
  lemma AnimalTitleKeywords()
    ensures Contains(AnimalQuiz.title, "Animal") && !Contains(AnimalQuiz.title, "Color")
  {
    var title := AnimalQuiz.title;
    assert title[6..12] == "Animal";
    ContainsAt(title, "Animal", 6);
    NotContainsMissingChar(title, "Color", 'C');
  }

  /** The colour title contains "Color" but not "Animal". */
  lemma ColorTitleKeywords()
    ensures Contains(ColorQuiz.title, "Color") && !Contains(ColorQuiz.title, "Animal")
  {
    var title := ColorQuiz.title;
    assert title[5..10] == "Color";
    ContainsAt(title, "Color", 5);
    NotContainsMissingChar(title, "Animal", 'n');
  }

  /** The border colours the picker uses. */
  datatype BorderColor = Unset | SystemRed | Clear

  /** A button's layer border. */
  datatype Border = Border(width: nat, color: BorderColor)

  /** Which button is outlined for a selection: Animal if the title contains
      "Animal", else Color if it contains "Color", else neither. */
  function Highlight(selectedQuiz: Option<Quiz>): (r: (BorderColor, BorderColor))
    ensures r.0 == SystemRed <==> selectedQuiz.Some? && Contains(selectedQuiz.value.title, "Animal")
    ensures r.1 == SystemRed <==> selectedQuiz.Some? && !Contains(selectedQuiz.value.title, "Animal")
                                  && Contains(selectedQuiz.value.title, "Color")
    ensures r.0 != r.1 || r.0 == Clear
  {
    if selectedQuiz.Some? && Contains(selectedQuiz.value.title, "Animal") then (SystemRed, Clear)
    else if selectedQuiz.Some? && Contains(selectedQuiz.value.title, "Color") then (Clear, SystemRed)
    else (Clear, Clear)
  }

  class QuizSelectionViewController {
    var selectedQuiz: Option<Quiz>
    var animalButton: Border
    var colorButton: Border
    /** `QuizManager.shared.availableQuizzes`. */
    const catalog: seq<Quiz>

    constructor (catalog: seq<Quiz>)
      ensures selectedQuiz == None && this.catalog == catalog
      ensures animalButton == Border(0, Unset) && colorButton == Border(0, Unset)
    {
      selectedQuiz := None;
      animalButton := Border(0, Unset);
      colorButton := Border(0, Unset);
      this.catalog := catalog;
    }

    /** `viewDidLoad`. */
    method ViewDidLoad()
      modifies this
      ensures selectedQuiz == old(selectedQuiz)
      ensures (animalButton.color, colorButton.color) == Highlight(selectedQuiz)
    {
      UpdateButtonStates();
    }

    /** `updateButtonStates`: both borders two points wide, at most one of
        them red. */
    method UpdateButtonStates()
      modifies this
      ensures selectedQuiz == old(selectedQuiz)
      ensures animalButton.width == 2 && colorButton.width == 2
      ensures (animalButton.color, colorButton.color) == Highlight(selectedQuiz)
      ensures !(animalButton.color == SystemRed && colorButton.color == SystemRed)
    {
      animalButton := animalButton.(width := 2);
      colorButton := colorButton.(width := 2);
      if selectedQuiz.Some? && Contains(selectedQuiz.value.title, "Animal") {
        animalButton := animalButton.(color := SystemRed);
        colorButton := colorButton.(color := Clear);
      } else if selectedQuiz.Some? && Contains(selectedQuiz.value.title, "Color") {
        colorButton := colorButton.(color := SystemRed);
        animalButton := animalButton.(color := Clear);
      } else {
        animalButton := animalButton.(color := Clear);
        colorButton := colorButton.(color := Clear);
      }
    }

    /** `animalQuizButtonPressed`. */
    method AnimalQuizButtonPressed()
      modifies this
      ensures selectedQuiz == FirstWithTitleContaining(catalog, "Animal")
      ensures (animalButton.color, colorButton.color) == Highlight(selectedQuiz)
      ensures selectedQuiz.Some? ==> animalButton.color == SystemRed && colorButton.color == Clear
      ensures catalog == AvailableQuizzes ==> selectedQuiz == Some(AnimalQuiz)
    {
      selectedQuiz := FirstWithTitleContaining(catalog, "Animal");
      UpdateButtonStates();
      CatalogLookup();
    }

    /** `colorQuizButtonPressed`. On the built-in catalog the colour quiz is
        selected and only the Color button is red. */
    method ColorQuizButtonPressed()
      modifies this
      ensures selectedQuiz == FirstWithTitleContaining(catalog, "Color")
      ensures (animalButton.color, colorButton.color) == Highlight(selectedQuiz)
      ensures catalog == AvailableQuizzes ==>
        selectedQuiz == Some(ColorQuiz) && colorButton.color == SystemRed && animalButton.color == Clear
    {
      selectedQuiz := FirstWithTitleContaining(catalog, "Color");
      UpdateButtonStates();
      CatalogLookup();
      ColorTitleKeywords();
    }

    /** `cancelButtonPressed`: forget the selection. */
    method CancelButtonPressed()
      modifies this
      ensures selectedQuiz == None
      ensures animalButton == old(animalButton) && colorButton == old(colorButton)
    {
      selectedQuiz := None;
    }
  }
}
