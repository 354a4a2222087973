/** The history table of PersonalityQuiz/HistoryTableViewController.swift:
    the stored log shown newest first, one row per result, swipe-to-delete
    written back in storage order, and clear. */
module HistoryTable {
  import opened Foundation
  import opened QuizResults

  /** Position `k` of the two sides of `DeleteInReversedView`. */
  lemma DeleteInReversedViewAt<T>(s: seq<T>, i: nat, k: nat)
    requires i < |s| && k < |s| - 1
    ensures |Reversed(RemoveAt(Reversed(s), i))| == |RemoveAt(s, |s| - 1 - i)|
    ensures Reversed(RemoveAt(Reversed(s), i))[k] == RemoveAt(s, |s| - 1 - i)[k]
  {
    var n := |s|;
    var rs := Reversed(s);
    var v := RemoveAt(rs, i);
    var m := n - 2 - k;
    assert Reversed(v)[k] == v[m];
    if m < i {
      assert v[m] == rs[m] == s[n - 1 - m];
    } else {
      assert v[m] == rs[m + 1] == s[n - 2 - m];
    }
  }

  /** Deleting row `i` of the newest-first view and reversing back removes
      the element at `|s| - 1 - i` of the stored order, keeping the others
      in their order. */
  lemma DeleteInReversedView<T>(s: seq<T>, i: nat)
    requires i < |s|
    ensures Reversed(RemoveAt(Reversed(s), i)) == RemoveAt(s, |s| - 1 - i)
  {
    var l := Reversed(RemoveAt(Reversed(s), i));
    var r := RemoveAt(s, |s| - 1 - i);
    forall k | 0 <= k < |s| - 1 ensures l[k] == r[k] {
      DeleteInReversedViewAt(s, i, k);
    }
  }

  /** A delete in a view that mirrors the store: the view reversed back is
      the store without its element at `n - 1 - i`, and reversing it again
      gives the new view. */
  lemma DeleteKeepsMirror<T>(stored: seq<T>, view: seq<T>, i: nat)
    requires view == Reversed(stored) && i < |view|
    ensures Reversed(RemoveAt(view, i)) == RemoveAt(stored, |stored| - 1 - i)
    ensures Reversed(Reversed(RemoveAt(view, i))) == RemoveAt(view, i)
  {
    DeleteInReversedView(stored, i);
    ReversedTwice(RemoveAt(view, i));
  }

  /** `UITableViewCell.EditingStyle`. */
  datatype EditingStyle = NoEditing | Delete | Insert

  /** The cell subtitle: quiz title, formatted date and formatted time. */
  function DetailText(r: QuizResult, formatDate: Date -> string): string
  {
    r.quizTitle + " • " + formatDate(r.date) + " • " + FormattedTime(r)
  }

  /** The detail alert's message, one line per field. */
  function AlertMessage(r: QuizResult, formatDate: Date -> string): string
  {
    "Quiz: " + r.quizTitle + "\nCompleted: " + formatDate(r.date) + "\nTime Taken: " + FormattedTime(r)
  }

  class HistoryTableViewController {
    /** The results in display order, newest first. */
    var quizHistory: seq<QuizResult>
    var title: string
    /** Whether the "No quiz results yet" background message is set. */
    var emptyMessageShown: bool
    /** `QuizHistoryManager.shared`. */
    const history: QuizHistoryManager
    /** `formattedDate`, a `DateFormatter` outside this model. */
    const formatDate: Date -> string

    /** The displayed list is the stored log, newest first. */
    ghost predicate InSync()
      reads this, history.defaults
    {
      quizHistory == Reversed(StoredHistory(history.defaults.entries))
    }

    constructor (history: QuizHistoryManager, formatDate: Date -> string)
      ensures quizHistory == [] && this.history == history && this.formatDate == formatDate
      ensures !emptyMessageShown
    {
      quizHistory := [];
      title := "";
      emptyMessageShown := false;
      this.history := history;
      this.formatDate := formatDate;
    }

    /** `viewDidLoad`. */
    method ViewDidLoad()
      modifies this
      ensures title == "Quiz History" && InSync()
      ensures emptyMessageShown <==> quizHistory == []
    {
      title := "Quiz History";
      LoadHistory();
    }

    /** `viewWillAppear`: reload, so results added meanwhile appear. */
    method ViewWillAppear()
      modifies this
      ensures InSync() && title == old(title)
      ensures emptyMessageShown <==> quizHistory == []
    {
      LoadHistory();
    }

    /** `loadHistory`: the stored list, reversed so the newest comes first;
        `reloadData` asks for the row count again, which sets the empty-state
        message. */
    method LoadHistory()
      modifies this
      ensures InSync()
      ensures |quizHistory| == |StoredHistory(history.defaults.entries)|
      ensures title == old(title)
      ensures emptyMessageShown <==> quizHistory == []
    {
      quizHistory := history.LoadHistory();
      quizHistory := Reversed(quizHistory);
      var _ := NumberOfRows();
    }

    /** `tableView(_:numberOfRowsInSection:)`: one row per result; the
        empty-state message is shown exactly when there is none. */
    method NumberOfRows() returns (count: nat)
      modifies this
      ensures count == |quizHistory| && quizHistory == old(quizHistory) && title == old(title)
      ensures emptyMessageShown <==> count == 0
    {
      if quizHistory == [] {
        emptyMessageShown := true;
      } else {
        emptyMessageShown := false;
      }
      count := |quizHistory|;
    }

    /** `tableView(_:cellForRowAt:)`: row `row` shows `quizHistory[row]`,
        which is the `row`-th most recent stored result. */
    method CellForRow(row: nat) returns (text: string, detail: string)
      requires row < |quizHistory|
      ensures text == ResultDisplayText(quizHistory[row])
      ensures detail == DetailText(quizHistory[row], formatDate)
      ensures InSync() ==>
        var stored := StoredHistory(history.defaults.entries);
        text == ResultDisplayText(stored[|stored| - 1 - row])
    {
      var result := quizHistory[row];
      text := ResultDisplayText(result);
      detail := DetailText(result, formatDate);
      if InSync() {
        ghost var stored := StoredHistory(history.defaults.entries);
        assert result == stored[|stored| - 1 - row];
      }
    }

    /** `tableView(_:didSelectRowAt:)`: the detail alert for the row. */
    method DidSelectRow(row: nat) returns (alertTitle: string, message: string)
      requires row < |quizHistory|
      ensures alertTitle == ResultDisplayText(quizHistory[row])
      ensures message == AlertMessage(quizHistory[row], formatDate)
    {
      var result := quizHistory[row];
      alertTitle := ResultDisplayText(result);
      message := AlertMessage(result, formatDate);
    }

    /** `tableView(_:commit:forRowAt:)`: a delete removes the row from the
        view and stores the view reversed back, then reloads when the list
        became empty, which shows the empty-state message; other styles do
        nothing. */
    method CommitEditing(editingStyle: EditingStyle, row: nat)
      requires editingStyle == Delete ==> row < |quizHistory|
      modifies this, history.defaults
      ensures editingStyle != Delete ==> quizHistory == old(quizHistory) && unchanged(history.defaults)
      ensures editingStyle == Delete ==>
        && quizHistory == RemoveAt(old(quizHistory), row)
        && |quizHistory| == |old(quizHistory)| - 1
        && history.defaults.entries == old(history.defaults.entries)[HistoryKey := Encoded(Reversed(quizHistory))]
      ensures editingStyle == Delete && old(InSync()) ==>
        var stored := old(StoredHistory(history.defaults.entries));
        StoredHistory(history.defaults.entries) == RemoveAt(stored, |stored| - 1 - row)
      ensures old(InSync()) ==> InSync()
      ensures title == old(title)
      ensures emptyMessageShown == if editingStyle == Delete && quizHistory == [] then true
                                   else old(emptyMessageShown)
    {
      if editingStyle == Delete {
        RemoveRowAndSave(row);
        if quizHistory == [] {
          var _ := NumberOfRows();
        }
      }
    }

    /** The delete branch up to `deleteRows`: remove the row from the view
        and store the view reversed back. When the view was in step with the
        store, the store loses exactly its element at `n - 1 - row`. */
    method RemoveRowAndSave(row: nat)
      requires row < |quizHistory|
      modifies this, history.defaults
      ensures quizHistory == RemoveAt(old(quizHistory), row)
      ensures |quizHistory| == |old(quizHistory)| - 1
      ensures history.defaults.entries == old(history.defaults.entries)[HistoryKey := Encoded(Reversed(quizHistory))]
      ensures old(InSync()) ==>
        var stored := old(StoredHistory(history.defaults.entries));
        StoredHistory(history.defaults.entries) == RemoveAt(stored, |stored| - 1 - row)
      ensures old(InSync()) ==> InSync()
      ensures title == old(title) && emptyMessageShown == old(emptyMessageShown)
    {
      ghost var stored := StoredHistory(history.defaults.entries);
      if quizHistory == Reversed(stored) {
        DeleteKeepsMirror(stored, quizHistory, row);
      }
      ReversedTwice(RemoveAt(quizHistory, row));
      quizHistory := RemoveAt(quizHistory, row);
      var savedHistory := Reversed(quizHistory);
      ghost var t, e := title, emptyMessageShown;
      history.SaveHistory(savedHistory);
      assert title == t && emptyMessageShown == e;
      assert Reversed(StoredHistory(history.defaults.entries)) == quizHistory;
    }

    /** The "Clear" action of the confirmation alert: clear the store and
        reload, leaving both empty. */
    method ClearConfirmed()
      modifies this, history.defaults
      ensures StoredHistory(history.defaults.entries) == [] && quizHistory == []
      ensures history.defaults.entries == old(history.defaults.entries) - {HistoryKey}
      ensures InSync() && emptyMessageShown
    {
      history.ClearHistory();
      LoadHistory();
    }
  }
}
