/** The vote count both results screens compute: each chosen answer gives
    one vote to its result, and the winner is a result with the most votes. */
module Votes {
  import opened Questions

  /** The number of responses voting for `t`: the reference definition that
      the frequency tables are checked against. */
  function Count(rs: seq<Answer>, t: AnimalType): (n: nat)
    ensures n <= |rs|
  {
    if rs == [] then 0
    else Count(rs[..|rs| - 1], t) + (if rs[|rs| - 1].animal == t then 1 else 0)
  }

  /** `freq[t, default: 0]`. */
  function CountOf(freq: map<AnimalType, nat>, t: AnimalType): nat
  {
    if t in freq then freq[t] else 0
  }

  /** `freq` is the frequency table of `rs`: its keys are exactly the results
      voted for, each mapped to its number of votes. */
  predicate IsTallyOf(freq: map<AnimalType, nat>, rs: seq<Answer>)
  {
    forall t: AnimalType :: CountOf(freq, t) == Count(rs, t) && (t in freq <==> Count(rs, t) > 0)
  }

  /** `t` has a count no other key exceeds. */
  predicate IsMostCommon(freq: map<AnimalType, nat>, t: AnimalType)
  {
    t in freq && forall u :: u in freq ==> freq[u] <= freq[t]
  }

  lemma CountAppend(rs: seq<Answer>, x: Answer, t: AnimalType)
    ensures Count(rs + [x], t) == Count(rs, t) + (if x.animal == t then 1 else 0)
  {
    assert (rs + [x])[..|rs|] == rs;
  }

  /** Every response is one vote: the four counts add up to the number of
      responses. */
  lemma {:induction false} CountsSumToLength(rs: seq<Answer>)
    ensures Count(rs, Lion) + Count(rs, Cat) + Count(rs, Rabbit) + Count(rs, Turtle) == |rs|
  {
    if rs != [] {
      CountsSumToLength(rs[..|rs| - 1]);
    }
  }

  /** A result has votes exactly when some response chose it. */
  lemma {:induction false} CountPositiveIffChosen(rs: seq<Answer>, t: AnimalType)
    ensures Count(rs, t) > 0 <==> exists i :: 0 <= i < |rs| && rs[i].animal == t
  {
    if rs != [] {
      var init := rs[..|rs| - 1];
      CountPositiveIffChosen(init, t);
      if exists i :: 0 <= i < |init| && init[i].animal == t {
        var i :| 0 <= i < |init| && init[i].animal == t;
        assert rs[i] == init[i];
      }
      if exists i :: 0 <= i < |rs| && rs[i].animal == t {
        var i :| 0 <= i < |rs| && rs[i].animal == t;
        if i < |init| {
          assert init[i] == rs[i];
        }
      }
    }
  }

  /** A frequency table is empty exactly when there are no responses. */
  lemma TallyEmptyIffNoResponses(freq: map<AnimalType, nat>, rs: seq<Answer>)
    requires IsTallyOf(freq, rs)
    ensures freq == map[] <==> rs == []
  {
    CountsSumToLength(rs);
    if rs != [] {
      var t := rs[0].animal;
      CountPositiveIffChosen(rs, t);
      assert t in freq;
    } else {
      assert forall t :: t !in freq;
    }
  }

  /** The most common key of a frequency table is a result some response
      chose, and no result has more votes. */
  lemma WinnerWasChosen(freq: map<AnimalType, nat>, rs: seq<Answer>, w: AnimalType)
    requires IsTallyOf(freq, rs) && IsMostCommon(freq, w)
    ensures exists i :: 0 <= i < |rs| && rs[i].animal == w
    ensures forall u :: Count(rs, u) <= Count(rs, w)
  {
    CountPositiveIffChosen(rs, w);
    forall u ensures Count(rs, u) <= Count(rs, w) {
      assert CountOf(freq, u) == Count(rs, u);
    }
  }

  /** A result with strictly more votes than every other is the winner. */
  lemma StrictMajorityWins(freq: map<AnimalType, nat>, rs: seq<Answer>, t: AnimalType, w: AnimalType)
    requires IsTallyOf(freq, rs) && IsMostCommon(freq, w)
    requires forall u :: u != t ==> Count(rs, u) < Count(rs, t)
    ensures w == t
  {
    WinnerWasChosen(freq, rs, w);
  }

  /** `sorted { $0.value > $1.value }.first!.key`: a key of maximal count.
      Which of several tied keys comes first depends on the dictionary's
      iteration order, so the choice among them is left open. */
  method MostCommon(freq: map<AnimalType, nat>) returns (best: AnimalType)
    requires freq != map[]
    ensures IsMostCommon(freq, best)
  {
    best :| best in freq;
    var rest := freq.Keys - {best};
    while rest != {}
      invariant rest <= freq.Keys && best in freq
      invariant forall u :: u in freq && u !in rest ==> freq[u] <= freq[best]
      decreases rest
    {
      var u :| u in rest;
      if freq[u] > freq[best] {
        best := u;
      }
      rest := rest - {u};
    }
  }
}
