/** usePersistentOrder's sanitize: any stored array, repaired into an order of the items. */
module PersistentOrder {

  /** An element of a parsed array. NaN compares false with every bound, so it is Other. */
  datatype Value = Num(n: real) | Other

  predicate InRange(v: Value, max: nat) { v.Num? && 0.0 <= v.n < max as real }

  /** The in-range numbers, each where it occurs first. */
  function Firsts(arr: seq<Value>, max: nat): seq<real> {
    if arr == [] then []
    else
      var (before, v) := (Firsts(arr[..|arr| - 1], max), arr[|arr| - 1]);
      if InRange(v, max) && v.n !in before then before + [v.n] else before
  }

  function Missing(seen: seq<real>, i: nat): seq<real> {
    if i == 0 then []
    else
      var n := (i - 1) as real;
      Missing(seen, i - 1) + if n in seen then [] else [n]
  }

  /** sanitize; anything but an array counts as an empty one. */
  function Sanitize(arr: seq<Value>, length: int): seq<real> {
    var max := if length > 0 then length else 0;
    Firsts(arr, max) + Missing(Firsts(arr, max), max)
  }

  // ------------------------------------------------------------------ permutations

  predicate NoRepeats(s: seq<real>) { forall i, j | 0 <= i < j < |s| :: s[i] != s[j] }

  function Index(i: nat): real { i as real }

  predicate Covers(s: seq<real>, max: nat) { forall i: nat | i < max :: Index(i) in s }

  predicate IsIndex(x: real, max: nat) { 0.0 <= x < max as real && x == x.Floor as real }

  /** Every index below max, once, and nothing else. */
  predicate IsPermutation(s: seq<real>, max: nat) {
    NoRepeats(s) && Covers(s, max) && forall i | 0 <= i < |s| :: IsIndex(s[i], max)
  }

  predicate Whole(arr: seq<Value>, max: nat) {
    forall i | 0 <= i < |arr| && InRange(arr[i], max) :: arr[i].n == arr[i].n.Floor as real
  }

  lemma {:induction false} FirstsContents(arr: seq<Value>, max: nat, x: real)
    ensures NoRepeats(Firsts(arr, max))
    ensures x in Firsts(arr, max) <==> 0.0 <= x < max as real && Num(x) in arr
  {
    if arr != [] {
      var n := |arr| - 1;
      FirstsContents(arr[..n], max, x);
      assert arr == arr[..n] + [arr[n]];
      if InRange(arr[n], max) { FirstsContents(arr[..n], max, arr[n].n); }
    }
  }

  lemma {:induction false} MissingContents(seen: seq<real>, i: nat, x: real)
    ensures x in Missing(seen, i) <==> 0.0 <= x < i as real && x == x.Floor as real && x !in seen
    ensures NoRepeats(Missing(seen, i))
  {
    if i > 0 {
      MissingContents(seen, i - 1, x);
      MissingContents(seen, i - 1, (i - 1) as real);
      WholeBelow(x, i);
    }
  }

  lemma WholeBelow(x: real, i: nat)
    requires i > 0
    ensures 0.0 <= x < i as real && x == x.Floor as real <==>
            x == (i - 1) as real || (0.0 <= x < (i - 1) as real && x == x.Floor as real)
  {
    AsReals(x.Floor, i);
    AsReals(x.Floor, i - 1);
  }

  lemma AsReals(f: int, i: nat)
    ensures 0.0 <= f as real <==> 0 <= f
    ensures f as real < i as real <==> f < i
    ensures f as real == i as real <==> f == i
  {
  }

  lemma Contents(arr: seq<Value>, length: int, x: real)
    ensures var max := if length > 0 then length else 0;
            x in Sanitize(arr, length) <==>
            0.0 <= x < max as real && (Num(x) in arr || x == x.Floor as real)
  {
    var max := if length > 0 then length else 0;
    FirstsContents(arr, max, x);
    MissingContents(Firsts(arr, max), max, x);
  }

  lemma NeverRepeats(arr: seq<Value>, length: int)
    ensures NoRepeats(Sanitize(arr, length))
  {
    var max := if length > 0 then length else 0;
    var (firsts, rest) := (Firsts(arr, max), Missing(Firsts(arr, max), max));
    FirstsContents(arr, max, 0.0);
    MissingContents(firsts, max, 0.0);
    forall i, j | 0 <= i < |firsts| && 0 <= j < |rest| ensures firsts[i] != rest[j] {
      MissingContents(firsts, max, rest[j]);
    }
  }

  /** The result is a permutation of the items exactly when the array has no number in range
      that is not whole: those pass the range test and are kept. */
  lemma PermutationIff(arr: seq<Value>, length: int)
    ensures var max := if length > 0 then length else 0;
            IsPermutation(Sanitize(arr, length), max) <==> Whole(arr, max)
  {
    var max := if length > 0 then length else 0;
    var result := Sanitize(arr, length);
    NeverRepeats(arr, length);
    forall i: nat | i < max ensures Index(i) in result { Contents(arr, length, Index(i)); }
    if Whole(arr, max) {
      forall i | 0 <= i < |result| ensures IsIndex(result[i], max) {
        Contents(arr, length, result[i]);
        if Num(result[i]) in arr { WholeMember(arr, max, result[i]); }
      }
    }
    if IsPermutation(result, max) {
      forall i | 0 <= i < |arr| && InRange(arr[i], max) ensures arr[i].n == arr[i].n.Floor as real {
        assert Num(arr[i].n) in arr;
        Contents(arr, length, arr[i].n);
        var k :| 0 <= k < |result| && result[k] == arr[i].n;
        assert IsIndex(result[k], max);
      }
    }
  }

  lemma WholeMember(arr: seq<Value>, max: nat, x: real)
    requires Whole(arr, max) && Num(x) in arr && 0.0 <= x < max as real
    ensures x == x.Floor as real
  {
    var i :| 0 <= i < |arr| && arr[i] == Num(x);
    assert InRange(arr[i], max);
  }

  // ------------------------------------------------------------------ order

  /** Where x occurs first. */
  predicate FirstAt(arr: seq<Value>, x: real, i: nat) {
    i < |arr| && arr[i] == Num(x) && forall k | 0 <= k < i :: arr[k] != Num(x)
  }

  /** The kept numbers lead the result, in the order of their first occurrences. */
  lemma {:induction false} FirstsInOrder(arr: seq<Value>, max: nat, a: nat, b: nat, i: nat, j: nat)
    requires a < b < |Firsts(arr, max)|
    requires FirstAt(arr, Firsts(arr, max)[a], i) && FirstAt(arr, Firsts(arr, max)[b], j)
    ensures i < j
  {
    var n := |arr| - 1;
    var firsts, before := Firsts(arr, max), Firsts(arr[..n], max);
    assert arr == arr[..n] + [arr[n]];
    FirstsContents(arr[..n], max, firsts[a]);
    assert firsts[a] == before[a];
    FirstInPrefix(arr, n, firsts[a], i);
    if b < |before| {
      FirstsContents(arr[..n], max, firsts[b]);
      FirstInPrefix(arr, n, firsts[b], j);
      FirstsInOrder(arr[..n], max, a, b, i, j);
    } else {
      FirstsContents(arr[..n], max, firsts[b]);
      forall k | 0 <= k < n ensures arr[k] != Num(firsts[b]) { assert arr[..n][k] in arr[..n]; }
    }
  }

  /** The indices that were missing follow in ascending order. */
  lemma {:induction false} MissingAscends(seen: seq<real>, i: nat)
    ensures forall a, b | 0 <= a < b < |Missing(seen, i)| :: Missing(seen, i)[a] < Missing(seen, i)[b]
  {
    if i > 0 {
      var before := Missing(seen, i - 1);
      MissingAscends(seen, i - 1);
      forall a | 0 <= a < |before| ensures before[a] < (i - 1) as real {
        MissingContents(seen, i - 1, before[a]);
      }
    }
  }

  lemma FirstInPrefix(arr: seq<Value>, n: nat, x: real, i: nat)
    requires n <= |arr| && Num(x) in arr[..n] && FirstAt(arr, x, i)
    ensures FirstAt(arr[..n], x, i)
  {
    var k :| 0 <= k < n && arr[..n][k] == Num(x);
    assert arr[k] == Num(x);
  }

  // ------------------------------------------------------------------ fixpoints

  function Numbers(s: seq<real>): (arr: seq<Value>)
    ensures |arr| == |s| && forall i | 0 <= i < |s| :: arr[i] == Num(s[i])
  {
    seq(|s|, i requires 0 <= i < |s| => Num(s[i]))
  }

  lemma {:induction false} FirstsOfDistinct(s: seq<real>, max: nat)
    requires NoRepeats(s) && forall i | 0 <= i < |s| :: 0.0 <= s[i] < max as real
    ensures Firsts(Numbers(s), max) == s
  {
    if s != [] {
      var n := |s| - 1;
      FirstsOfDistinct(s[..n], max);
      assert Numbers(s)[..n] == Numbers(s[..n]);
      assert s[n] !in s[..n];
      assert s == s[..n] + [s[n]];
    }
  }

  lemma {:induction false} NothingMissing(s: seq<real>, i: nat)
    requires Covers(s, i)
    ensures Missing(s, i) == []
  {
    if i > 0 {
      NothingMissing(s, i - 1);
      assert Index(i - 1) in s;
    }
  }

  /** An array of numbers is left as it is exactly when it has no repeats, stays in range
      and covers every index; so every permutation is. */
  lemma UnchangedIff(s: seq<real>, length: int)
    ensures var max := if length > 0 then length else 0;
            Sanitize(Numbers(s), length) == s <==>
            NoRepeats(s) && Covers(s, max) && forall i | 0 <= i < |s| :: 0.0 <= s[i] < max as real
  {
    var max := if length > 0 then length else 0;
    if NoRepeats(s) && Covers(s, max) && forall i | 0 <= i < |s| :: 0.0 <= s[i] < max as real {
      FirstsOfDistinct(s, max);
      NothingMissing(s, max);
    }
    if Sanitize(Numbers(s), length) == s {
      NeverRepeats(Numbers(s), length);
      forall i: nat | i < max ensures Index(i) in s { Contents(Numbers(s), length, Index(i)); }
      forall i | 0 <= i < |s| ensures 0.0 <= s[i] < max as real { Contents(Numbers(s), length, s[i]); }
    }
  }

  /** sanitize is idempotent, whatever it was given. */
  lemma Idempotent(arr: seq<Value>, length: int)
    ensures Sanitize(Numbers(Sanitize(arr, length)), length) == Sanitize(arr, length)
  {
    var max := if length > 0 then length else 0;
    var s := Sanitize(arr, length);
    NeverRepeats(arr, length);
    forall i: nat | i < max ensures Index(i) in s { Contents(arr, length, Index(i)); }
    forall i | 0 <= i < |s| ensures 0.0 <= s[i] < max as real { Contents(arr, length, s[i]); }
    UnchangedIff(s, length);
  }

  // ------------------------------------------------------------------ the loops

  method SanitizeArray(arr: seq<Value>, length: int) returns (result: seq<real>)
    ensures result == Sanitize(arr, length)
  {
    var max := if length > 0 then length else 0;
    var seen: set<real> := {};
    result := [];
    var k := 0;
    while k < |arr|
      invariant 0 <= k <= |arr| && result == Firsts(arr[..k], max)
      invariant forall x :: x in seen <==> x in result
    {
      assert arr[..k + 1][..k] == arr[..k];
      var v := arr[k];
      if v.Num? && v.n >= 0.0 && v.n < max as real && v.n !in seen {
        result := result + [v.n];
        seen := seen + {v.n};
      }
      k := k + 1;
    }
    assert arr[..k] == arr;
    ghost var firsts := result;
    var i := 0;
    while i < max
      invariant 0 <= i <= max && result == firsts + Missing(firsts, i)
    {
      if (i as real) !in seen { result := result + [i as real]; }
      i := i + 1;
    }
  }
}
