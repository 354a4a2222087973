/** A completed quiz result, its display texts, and the history log kept
    under one key of the app's key-value store. */
module QuizResults {
  import opened Foundation
  import opened Questions

  /** One history entry. `timeTaken` is a `TimeInterval` (seconds). */
  datatype QuizResult = QuizResult(
    id: Uuid,
    quizTitle: string,
    quizEmoji: string,
    resultAnimal: AnimalType,
    date: Date,
    timeTaken: real)

  // ---------------------------------------------------------------------
  // formattedTime: "<minutes>m <seconds>s" with Swift's integer semantics
  // ---------------------------------------------------------------------

  /** `Int(x)` for a `Double`: truncation toward zero. */
  function TruncateToInt(x: real): (r: int)
    ensures 0.0 <= x ==> 0 <= r && r as real <= x < r as real + 1.0
    ensures x < 0.0 ==> r <= 0 && r as real - 1.0 < x <= r as real
  {
    if x >= 0.0 then x.Floor else -((-x).Floor)
  }

  /** Swift's `/` on `Int`: the quotient truncated toward zero. */
  function TruncDiv(a: int, b: int): int
    requires b > 0
  {
    if a >= 0 then a / b else -((-a) / b)
  }

  /** Swift's `%` on `Int`: the remainder takes the sign of the dividend. */
  function TruncRem(a: int, b: int): int
    requires b > 0
  {
    if a >= 0 then a % b else -((-a) % b)
  }

  /** Quotient and remainder recombine, and the remainder is smaller than
      the divisor in magnitude, with the dividend's sign. */
  lemma TruncDivRem(a: int, b: int)
    requires b > 0
    ensures b * TruncDiv(a, b) + TruncRem(a, b) == a
    ensures 0 <= a ==> 0 <= TruncRem(a, b) < b && 0 <= TruncDiv(a, b)
    ensures a < 0 ==> -b < TruncRem(a, b) <= 0 && TruncDiv(a, b) <= 0
  {
  }

  function Minutes(r: QuizResult): int
  {
    TruncDiv(TruncateToInt(r.timeTaken), 60)
  }

  function Seconds(r: QuizResult): int
  {
    TruncRem(TruncateToInt(r.timeTaken), 60)
  }

  /** `formattedTime`. */
  function FormattedTime(r: QuizResult): string
  {
    IntToString(Minutes(r)) + "m " + IntToString(Seconds(r)) + "s"
  }

  /** The two numbers shown by `formattedTime` split the whole seconds taken:
      for a non-negative duration `s`, minutes is `s / 60` and seconds lies in
      0..59. */
  lemma FormattedTimeSplitsSeconds(r: QuizResult)
    ensures 60 * Minutes(r) + Seconds(r) == TruncateToInt(r.timeTaken)
    ensures 0.0 <= r.timeTaken ==> 0 <= Seconds(r) < 60 && 0 <= Minutes(r)
    ensures r.timeTaken < 0.0 ==> -60 < Seconds(r) <= 0 && Minutes(r) <= 0
  {
    TruncDivRem(TruncateToInt(r.timeTaken), 60);
  }

  /** The worked example: 105 seconds (and any fraction above) reads "1m 45s". */
  lemma FormattedTimeExample(r: QuizResult)
    requires 105.0 <= r.timeTaken < 106.0
    ensures FormattedTime(r) == "1m 45s"
  {
    assert TruncateToInt(r.timeTaken) == 105;
    assert Minutes(r) == 1 && Seconds(r) == 45;
    assert IntToString(45) == "45";
  }

  // ---------------------------------------------------------------------
  // resultDisplayText
  // ---------------------------------------------------------------------

  /** Whether a quiz title belongs to the colour theme. */
  predicate IsColorTitle(title: string)
  {
    Contains(title, "Color")
  }

  /** `resultDisplayText`. */
  function ResultDisplayText(r: QuizResult): string
  {
    var a := r.resultAnimal;
    if IsColorTitle(r.quizTitle) then ColorEmoji(a) + " You are a " + ColorName(a)
    else [RawValue(a)] + " You are a " + [RawValue(a)] + "!"
  }

  /** The text starts with the colour emoji exactly for a colour-quiz title
      and with the animal character otherwise, and it ends with '!' exactly
      for the animal theme. */
  lemma ResultDisplayTextTheme(r: QuizResult)
    ensures var text := ResultDisplayText(r);
      |text| > 1
      && (IsColorTitle(r.quizTitle) ==> text[0] == ColorEmoji(r.resultAnimal)[0]
                                        && text[|text| - 1] != '!')
      && (!IsColorTitle(r.quizTitle) ==> text[0] == RawValue(r.resultAnimal)
                                         && text[|text| - 1] == '!')
  {
    ColorTextsInjective(r.resultAnimal, r.resultAnimal);
  }

  /** Within a theme the display text determines the result. */
  lemma DisplayTextIdentifiesResult(r1: QuizResult, r2: QuizResult)
    requires IsColorTitle(r1.quizTitle) == IsColorTitle(r2.quizTitle)
    requires ResultDisplayText(r1) == ResultDisplayText(r2)
    ensures r1.resultAnimal == r2.resultAnimal
  {
    ResultDisplayTextTheme(r1);
    ResultDisplayTextTheme(r2);
    ColorTextsInjective(r1.resultAnimal, r2.resultAnimal);
    if IsColorTitle(r1.quizTitle) {
      assert ColorEmoji(r1.resultAnimal) == [ColorEmoji(r1.resultAnimal)[0]];
      assert ColorEmoji(r2.resultAnimal) == [ColorEmoji(r2.resultAnimal)[0]];
    } else {
      RawValueInjective(r1.resultAnimal, r2.resultAnimal);
    }
  }

  // ---------------------------------------------------------------------
  // The key-value store and QuizHistoryManager
  // ---------------------------------------------------------------------

  /** What a key of the store holds: an encoded history, or data that does
      not decode as one. */
  datatype Blob = Encoded(history: seq<QuizResult>) | Undecodable

  /** The app's key-value store (`UserDefaults.standard`). */
  class UserDefaults {
    var entries: map<string, Blob>

    constructor ()
      ensures entries == map[]
    {
      entries := map[];
    }
  }

  const HistoryKey: string := "quizHistoryKey"

  /** What `loadHistory` reads from a store state: the stored list, or `[]`
      when the key is absent or its data does not decode. */
  function StoredHistory(entries: map<string, Blob>): seq<QuizResult>
  {
    if HistoryKey in entries && entries[HistoryKey].Encoded? then entries[HistoryKey].history
    else []
  }

  /** A missing or undecodable slot loads as empty. */
  lemma LoadMissingOrCorrupt(entries: map<string, Blob>)
    requires HistoryKey !in entries || entries[HistoryKey] == Undecodable
    ensures StoredHistory(entries) == []
  {
  }

  /** Saving a history and loading it back gives that history exactly. */
  lemma SaveThenLoad(entries: map<string, Blob>, h: seq<QuizResult>)
    ensures StoredHistory(entries[HistoryKey := Encoded(h)]) == h
  {
  }

  /** Clearing and then loading gives an empty history. */
  lemma ClearThenLoad(entries: map<string, Blob>)
    ensures StoredHistory(entries - {HistoryKey}) == []
  {
  }

  /** `QuizHistoryManager`: load, save and clear the history slot. */
  class QuizHistoryManager {
    const defaults: UserDefaults

    constructor (defaults: UserDefaults)
      ensures this.defaults == defaults
    {
      this.defaults := defaults;
    }

    /** `loadHistory`: never fails; absent or corrupt data reads as `[]`. */
    method LoadHistory() returns (history: seq<QuizResult>)
      ensures history == StoredHistory(defaults.entries)
      ensures HistoryKey !in defaults.entries ==> history == []
      ensures HistoryKey in defaults.entries && defaults.entries[HistoryKey].Undecodable? ==> history == []
    {
      if HistoryKey in defaults.entries && defaults.entries[HistoryKey].Encoded? {
        history := defaults.entries[HistoryKey].history;
      } else {
        history := [];
      }
    }

    /** `saveHistory`: encoding a list of results always succeeds, so the
        key ends up holding `history`; no other key changes. */
    method SaveHistory(history: seq<QuizResult>)
      modifies defaults
      ensures defaults.entries == old(defaults.entries)[HistoryKey := Encoded(history)]
      ensures StoredHistory(defaults.entries) == history
    {
      defaults.entries := defaults.entries[HistoryKey := Encoded(history)];
    }

    /** `clearHistory`: removes the key; no other key changes. */
    method ClearHistory()
      modifies defaults
      ensures defaults.entries == old(defaults.entries) - {HistoryKey}
      ensures StoredHistory(defaults.entries) == []
    {
      defaults.entries := defaults.entries - {HistoryKey};
    }

    /** `addResult`, load-append-save: the history afterwards is the old one
        followed by `result`. */
    method AddResult(result: QuizResult)
      modifies defaults
      ensures defaults.entries == old(defaults.entries)[HistoryKey := Encoded(old(StoredHistory(defaults.entries)) + [result])]
      ensures StoredHistory(defaults.entries) == old(StoredHistory(defaults.entries)) + [result]
    {
      var history := LoadHistory();
      history := history + [result];
      SaveHistory(history);
    }
  }
}
