/** Stand-ins for the parts of the Swift standard library and Foundation that
    the quiz app relies on: optionals, UUID and Date values, `String.contains`,
    integer-to-text interpolation, `reversed()`, `remove(at:)` and `shuffle()`. */
module Foundation {

  datatype Option<T> = None | Some(value: T)

  /** A UUID. The two fixed quiz ids are 1 and 2; fresh ids (`UUID()`) are
      supplied by the caller. */
  datatype Uuid = Uuid(bits: nat)

  /** A point in time (`Date()`), supplied by the caller; never inspected. */
  datatype Date = Date(seconds: int)

  // ---------------------------------------------------------------------
  // Substring search (`String.contains(_:)` on code points)
  // ---------------------------------------------------------------------

  /** `t` occurs in `s` starting at position `i`. */
  predicate OccursAt(s: string, t: string, i: int)
  {
    0 <= i && i + |t| <= |s| && s[i..i + |t|] == t
  }

  predicate Contains(s: string, t: string)
    decreases |s|
  {
    (|t| <= |s| && s[..|t|] == t) || (|s| > 0 && Contains(s[1..], t))
  }

  /** `Contains` is exactly "occurs at some position". */
  lemma {:induction false} ContainsIffOccurs(s: string, t: string)
    ensures Contains(s, t) <==> exists i :: OccursAt(s, t, i)
    decreases |s|
  {
    if |t| <= |s| && s[..|t|] == t {
      assert OccursAt(s, t, 0);
    } else if |s| == 0 {
    } else {
      ContainsIffOccurs(s[1..], t);
      if Contains(s[1..], t) {
        var i :| OccursAt(s[1..], t, i);
        assert s[i + 1..i + 1 + |t|] == s[1..][i..i + |t|];
        assert OccursAt(s, t, i + 1);
      } else {
        forall i | OccursAt(s, t, i) && i > 0 ensures false {
          assert s[1..][i - 1..i - 1 + |t|] == s[i..i + |t|];
          assert OccursAt(s[1..], t, i - 1);
        }
      }
    }
  }

  /** A needle holding a character the haystack lacks is not contained in it. */
  lemma NotContainsMissingChar(s: string, t: string, c: char)
    requires c in t && c !in s
    ensures !Contains(s, t)
  {
    ContainsIffOccurs(s, t);
  }

  /** A needle found at a given position is contained. */
  lemma ContainsAt(s: string, t: string, i: int)
    requires OccursAt(s, t, i)
    ensures Contains(s, t)
  {
    ContainsIffOccurs(s, t);
  }

  // ---------------------------------------------------------------------
  // String interpolation of an Int ("\(n)"): decimal digits, '-' if negative
  // ---------------------------------------------------------------------

  function DigitChar(d: nat): (c: char)
    requires d < 10
    ensures '0' <= c <= '9' && (c as int) - ('0' as int) == d
  {
    (('0' as int) + d) as char
  }

  function NatToString(n: nat): (r: string)
    decreases n
  {
    if n < 10 then [DigitChar(n)] else NatToString(n / 10) + [DigitChar(n % 10)]
  }

  function IntToString(i: int): (r: string)
  {
    if i < 0 then "-" + NatToString(-i) else NatToString(i)
  }

  predicate IsDigits(s: string)
  {
    forall k :: 0 <= k < |s| ==> '0' <= s[k] <= '9'
  }

  /** The value of a string of decimal digits; the reference reading of
      `NatToString`. */
  function DecimalValue(s: string): nat
    requires IsDigits(s)
  {
    if s == [] then 0
    else DecimalValue(s[..|s| - 1]) * 10 + ((s[|s| - 1] as int) - ('0' as int))
  }

  /** Reading back a rendered natural number gives the number. */
  lemma {:induction false} NatToStringRoundTrip(n: nat)
    ensures |NatToString(n)| > 0 && IsDigits(NatToString(n))
    ensures DecimalValue(NatToString(n)) == n
    decreases n
  {
    if n >= 10 {
      NatToStringRoundTrip(n / 10);
      var s := NatToString(n);
      assert s[..|s| - 1] == NatToString(n / 10);
    }
  }

  /** Reading back a rendered integer gives the integer. */
  lemma IntToStringRoundTrip(i: int)
    ensures |IntToString(i)| > 0
    ensures i < 0 ==> IntToString(i)[0] == '-' && IsDigits(IntToString(i)[1..])
                      && DecimalValue(IntToString(i)[1..]) == -i
    ensures i >= 0 ==> IsDigits(IntToString(i)) && DecimalValue(IntToString(i)) == i
  {
    if i < 0 {
      NatToStringRoundTrip(-i);
      assert IntToString(i)[1..] == NatToString(-i);
    } else {
      NatToStringRoundTrip(i);
    }
  }

  // ---------------------------------------------------------------------
  // Collection operations
  // ---------------------------------------------------------------------

  /** `reversed()`. */
  function Reversed<T>(s: seq<T>): (r: seq<T>)
    ensures |r| == |s|
    ensures forall k :: 0 <= k < |s| ==> r[k] == s[|s| - 1 - k]
  {
    if s == [] then [] else Reversed(s[1..]) + [s[0]]
  }

  /** Reversing twice gives the original order back. */
  lemma ReversedTwice<T>(s: seq<T>)
    ensures Reversed(Reversed(s)) == s
  {
  }

  /** `remove(at:)`: drop the element at `i`; the others keep their order. */
  function RemoveAt<T>(s: seq<T>, i: nat): (r: seq<T>)
    requires i < |s|
    ensures |r| == |s| - 1
    ensures forall k :: 0 <= k < i ==> r[k] == s[k]
    ensures forall k :: i <= k < |r| ==> r[k] == s[k + 1]
  {
    s[..i] + s[i + 1..]
  }

  /** `swapAt(i, j)`. */
  function Swap<T>(s: seq<T>, i: nat, j: nat): (r: seq<T>)
    requires i < |s| && j < |s|
  {
    s[i := s[j]][j := s[i]]
  }

  lemma SwapIsPermutation<T>(s: seq<T>, i: nat, j: nat)
    requires i < |s| && j < |s|
    ensures multiset(Swap(s, i, j)) == multiset(s)
  {
    if i != j {
      var t := s[i := s[j]];
      assert multiset(t) == multiset(s) - multiset{s[i]} + multiset{s[j]};
      assert t[j] == s[j];
      assert multiset(t[j := s[i]]) == multiset(t) - multiset{t[j]} + multiset{s[i]};
    }
  }

  // ---------------------------------------------------------------------
  // `shuffle()`: the forward Fisher-Yates loop of Swift's standard library.
  // The random numbers are a parameter: `draws[k]` is the number drawn at
  // step k (a missing draw reads as 0), reduced into the step's range.
  // ---------------------------------------------------------------------

  function Draw(draws: seq<nat>, k: nat): nat
  {
    if k < |draws| then draws[k] else 0
  }

  /** The swap partner chosen at step `i` of a shuffle of `n` elements. */
  function Partner(draws: seq<nat>, n: nat, i: nat): (j: nat)
    requires i < n
    ensures i <= j < n
  {
    i + Draw(draws, i) % (n - i)
  }

  /** The result of shuffling `s` from step `i` on. */
  function ShuffledFrom<T>(s: seq<T>, draws: seq<nat>, i: nat): seq<T>
    decreases |s| - i
  {
    if i + 1 >= |s| then s
    else ShuffledFrom(Swap(s, i, Partner(draws, |s|, i)), draws, i + 1)
  }

  /** The whole shuffle. */
  function Shuffled<T>(s: seq<T>, draws: seq<nat>): seq<T>
  {
    ShuffledFrom(s, draws, 0)
  }

  /** A shuffle yields a permutation of its input. */
  lemma {:induction false} ShuffledFromIsPermutation<T>(s: seq<T>, draws: seq<nat>, i: nat)
    ensures |ShuffledFrom(s, draws, i)| == |s|
    ensures multiset(ShuffledFrom(s, draws, i)) == multiset(s)
    decreases |s| - i
  {
    if i + 1 < |s| {
      var j := Partner(draws, |s|, i);
      SwapIsPermutation(s, i, j);
      ShuffledFromIsPermutation(Swap(s, i, j), draws, i + 1);
    }
  }

  lemma ShuffledIsPermutation<T>(s: seq<T>, draws: seq<nat>)
    ensures |Shuffled(s, draws)| == |s|
    ensures multiset(Shuffled(s, draws)) == multiset(s)
  {
    ShuffledFromIsPermutation(s, draws, 0);
  }

  /** `shuffle()` on an array, in place. */
  method ShuffleInPlace<T>(a: array<T>, draws: seq<nat>)
    modifies a
    ensures a[..] == Shuffled(old(a[..]), draws)
    ensures multiset(a[..]) == multiset(old(a[..]))
  {
    var i := 0;
    while i + 1 < a.Length
      invariant 0 <= i <= a.Length
      invariant a.Length <= 1 || i < a.Length
      invariant ShuffledFrom(a[..], draws, i) == Shuffled(old(a[..]), draws)
    {
      var j := Partner(draws, a.Length, i);
      ghost var before := a[..];
      a[i], a[j] := a[j], a[i];
      assert a[..] == Swap(before, i, j);
      i := i + 1;
    }
    ShuffledIsPermutation(old(a[..]), draws);
  }
}
