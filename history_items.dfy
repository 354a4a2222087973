/** The history screen of PersonalityQuiz/Controllers: the stored log newest
    first, of which at most the three most recent results are shown in
    three fixed item views. */
module HistoryItems {
  import opened Foundation
  import opened QuizResults

  /** One item view: hidden or not, and the texts of its four labels. */
  datatype ItemView = ItemView(hidden: bool, resultText: string, quizText: string, dateText: string, timeText: string)

  /** A blank, visible item view as the storyboard creates it. */
  const BlankItem: ItemView := ItemView(false, "", "", "", "")

  /** Item view `v` is visible and shows result `r`. */
  predicate ShowsResult(v: ItemView, r: QuizResult, formatDate: Date -> string)
  {
    && !v.hidden
    && v.resultText == ResultDisplayText(r) && v.quizText == r.quizTitle
    && v.dateText == formatDate(r.date) && v.timeText == FormattedTime(r)
  }

  function Min(a: nat, b: nat): nat
  {
    if a <= b then a else b
  }

  /** 1 for a visible view, 0 for a hidden one. */
  function Visible(v: ItemView): nat
  {
    if v.hidden then 0 else 1
  }

  /** The number of visible views among `items`. */
  function VisibleCount(items: seq<ItemView>): nat
  {
    if items == [] then 0 else Visible(items[0]) + VisibleCount(items[1..])
  }

  lemma VisibleCountOfThree(items: seq<ItemView>)
    requires |items| == 3
    ensures VisibleCount(items) == Visible(items[0]) + Visible(items[1]) + Visible(items[2])
  {
    assert VisibleCount(items[2..]) == Visible(items[2]) by { assert items[2..][1..] == []; }
    assert items[1..][1..] == items[2..];
  }

  class HistoryTableViewController {
    /** The results in display order, newest first. */
    var quizHistory: seq<QuizResult>
    var title: string
    var item1: ItemView
    var item2: ItemView
    var item3: ItemView
    /** `QuizHistoryManager.shared`. */
    const history: QuizHistoryManager
    /** `formattedDate`, a `DateFormatter` outside this model. */
    const formatDate: Date -> string

    function Items(): seq<ItemView>
      reads this
    {
      [item1, item2, item3]
    }

    /** The three views show the first three entries of `quizHistory` and
        hide the rest. */
    ghost predicate ShowsNewest()
      reads this
    {
      forall k :: 0 <= k < 3 ==>
        (k < |quizHistory| ==> ShowsResult(Items()[k], quizHistory[k], formatDate))
        && (k >= |quizHistory| ==> Items()[k].hidden)
    }

    constructor (history: QuizHistoryManager, formatDate: Date -> string)
      ensures quizHistory == [] && this.history == history && this.formatDate == formatDate
      ensures item1 == BlankItem && item2 == BlankItem && item3 == BlankItem
    {
      quizHistory := [];
      title := "";
      item1 := BlankItem;
      item2 := BlankItem;
      item3 := BlankItem;
      this.history := history;
      this.formatDate := formatDate;
    }

    /** `viewDidLoad`. */
    method ViewDidLoad()
      modifies this
      ensures title == "Quiz History"
      ensures quizHistory == Reversed(StoredHistory(history.defaults.entries)) && ShowsNewest()
    {
      title := "Quiz History";
      LoadHistory();
    }

    /** `viewWillAppear`: reload, so results added meanwhile appear. */
    method ViewWillAppear()
      modifies this
      ensures quizHistory == Reversed(StoredHistory(history.defaults.entries)) && ShowsNewest()
      ensures title == old(title)
    {
      LoadHistory();
    }

    /** `loadHistory`: the stored list newest first, then the views; view
        `k` shows the `k`-th most recent stored result. */
    method LoadHistory()
      modifies this
      ensures quizHistory == Reversed(StoredHistory(history.defaults.entries))
      ensures ShowsNewest()
      ensures var stored := StoredHistory(history.defaults.entries);
        forall k :: 0 <= k < 3 && k < |stored| ==> ShowsResult(Items()[k], stored[|stored| - 1 - k], formatDate)
      ensures title == old(title)
    {
      quizHistory := history.LoadHistory();
      quizHistory := Reversed(quizHistory);
      UpdateHistoryUI();
    }

    /** `updateHistoryUI`: view `k` (1..3) is visible exactly when the
        history has more than `k - 1` entries and then shows entry `k - 1`;
        a hidden view keeps its old labels. At most three are visible. */
    method UpdateHistoryUI()
      modifies this
      ensures quizHistory == old(quizHistory) && title == old(title)
      ensures ShowsNewest()
      ensures forall k :: 0 <= k < 3 ==> (Items()[k].hidden <==> |quizHistory| <= k)
      ensures |quizHistory| <= 0 ==> item1 == old(item1).(hidden := true)
      ensures |quizHistory| <= 1 ==> item2 == old(item2).(hidden := true)
      ensures |quizHistory| <= 2 ==> item3 == old(item3).(hidden := true)
      ensures VisibleCount(Items()) == Min(|quizHistory|, 3)
    {
      if |quizHistory| > 0 {
        var result := quizHistory[0];
        item1 := ItemView(false, ResultDisplayText(result), result.quizTitle, formatDate(result.date), FormattedTime(result));
      } else {
        item1 := item1.(hidden := true);
      }
      if |quizHistory| > 1 {
        var result := quizHistory[1];
        item2 := ItemView(false, ResultDisplayText(result), result.quizTitle, formatDate(result.date), FormattedTime(result));
      } else {
        item2 := item2.(hidden := true);
      }
      if |quizHistory| > 2 {
        var result := quizHistory[2];
        item3 := ItemView(false, ResultDisplayText(result), result.quizTitle, formatDate(result.date), FormattedTime(result));
      } else {
        item3 := item3.(hidden := true);
      }
      VisibleCountOfThree(Items());
    }

    /** The "Clear" action of the confirmation alert: clear the store and
        reload, which hides all three views. */
    method ClearConfirmed()
      modifies this, history.defaults
      ensures StoredHistory(history.defaults.entries) == [] && quizHistory == []
      ensures history.defaults.entries == old(history.defaults.entries) - {HistoryKey}
      ensures item1.hidden && item2.hidden && item3.hidden
      ensures VisibleCount(Items()) == 0
    {
      history.ClearHistory();
      LoadHistory();
      assert Items()[0].hidden && Items()[1].hidden && Items()[2].hidden;
      VisibleCountOfThree(Items());
    }
  }
}
