/** The frequency smoother: a window of the last five accepted estimates, and its
    median. */
module Smoothing {

  /** `smoothN`: how many recent estimates the window keeps. */
  const SmoothN: nat := 5

  predicate Sorted(s: seq<real>)
  {
    forall i, j :: 0 <= i < j < |s| ==> s[i] <= s[j]
  }

  lemma SortedCons(h: real, t: seq<real>)
    requires Sorted(t)
    requires forall i :: 0 <= i < |t| ==> h <= t[i]
    ensures Sorted([h] + t)
  {
  }

  /** Inserts `x` into a sorted sequence, before the first element not below it. */
  function Insert(x: real, s: seq<real>): (r: seq<real>)
    requires Sorted(s)
    ensures Sorted(r)
    ensures multiset(r) == multiset(s) + multiset{x}
  {
    if s == [] || x <= s[0] then [x] + s
    else
      var t := Insert(x, s[1..]);
      InsertedStaysAbove(s[0], x, s[1..], t);
      SortedCons(s[0], t);
      HeadMultiset(s, x, t);
      [s[0]] + t
  }

  /** Every element of `t`, a rearrangement of `s` and `x`, is at least `h` when
      `x` and every element of `s` are. */
  lemma InsertedStaysAbove(h: real, x: real, s: seq<real>, t: seq<real>)
    requires h <= x
    requires forall i :: 0 <= i < |s| ==> h <= s[i]
    requires multiset(t) == multiset(s) + multiset{x}
    ensures forall i :: 0 <= i < |t| ==> h <= t[i]
  {
    forall i | 0 <= i < |t|
      ensures h <= t[i]
    {
      assert t[i] in multiset(t);
      if t[i] != x {
        assert t[i] in multiset(s);
      }
    }
  }

  lemma HeadMultiset(s: seq<real>, x: real, t: seq<real>)
    requires s != []
    requires multiset(t) == multiset(s[1..]) + multiset{x}
    ensures multiset([s[0]] + t) == multiset(s) + multiset{x}
  {
    assert s == [s[0]] + s[1..];
  }

  /** The ascending copy that `[...arr].sort((a, b) => a - b)` produces; the
      argument itself is a value and is left as it was. */
  function SortedCopy(s: seq<real>): (r: seq<real>)
    ensures Sorted(r)
    ensures multiset(r) == multiset(s)
  {
    if s == [] then []
    else
      assert s == s[..|s| - 1] + [s[|s| - 1]];
      Insert(s[|s| - 1], SortedCopy(s[..|s| - 1]))
  }

  lemma SortedSameFirst(a: seq<real>, b: seq<real>)
    requires Sorted(a) && Sorted(b)
    requires multiset(a) == multiset(b)
    requires a != []
    ensures b != [] && a[0] == b[0]
  {
    assert |b| == |multiset(b)| == |a|;
    var x, y := a[0], b[0];
    assert x in multiset(b) && y in multiset(a);
    var j :| 0 <= j < |b| && b[j] == x;
    var i :| 0 <= i < |a| && a[i] == y;
    assert y <= x && x <= y;
  }

  lemma SortedTail(s: seq<real>)
    requires Sorted(s) && s != []
    ensures Sorted(s[1..])
  {
  }

  lemma TailMultiset(s: seq<real>)
    requires s != []
    ensures multiset(s[1..]) == multiset(s) - multiset{s[0]}
  {
    assert s == [s[0]] + s[1..];
  }

  /** Two sorted sequences with the same elements are equal: sorting has exactly one
      possible outcome. */
  lemma {:induction false} SortedUnique(a: seq<real>, b: seq<real>)
    requires Sorted(a) && Sorted(b)
    requires multiset(a) == multiset(b)
    ensures a == b
  {
    if a != [] {
      SortedSameFirst(a, b);
      SortedTail(a);
      SortedTail(b);
      TailMultiset(a);
      TailMultiset(b);
      SortedUnique(a[1..], b[1..]);
    }
  }

  /** `median`: the middle element of the sorted copy for an odd count, the mean of
      the two middle elements for an even count. The result lies between two of the
      inputs. */
  function Median(arr: seq<real>): (m: real)
    requires |arr| > 0
    ensures exists i, j :: 0 <= i < |arr| && 0 <= j < |arr| && arr[i] <= m <= arr[j]
  {
    var s := SortedCopy(arr);
    var mid := |s| / 2;
    assert |s| == |multiset(s)| == |arr|;
    var m := if |s| % 2 == 1 then s[mid] else (s[mid - 1] + s[mid]) / 2.0;
    assert s[mid] in multiset(arr) && s[mid] in arr;
    assert mid > 0 ==> s[mid - 1] in multiset(arr) && s[mid - 1] in arr;
    m
  }

  /** The median depends only on which values are held, not on their order. */
  lemma MedianIgnoresOrder(a: seq<real>, b: seq<real>)
    requires |a| > 0
    requires multiset(a) == multiset(b)
    ensures |b| == |a| && Median(a) == Median(b)
  {
    var sorted := SortedCopy(a);
    MedianOfArrangement(a, sorted);
    MedianOfArrangement(b, sorted);
  }

  /** If every held value lies in [lo, hi], so does the median. */
  lemma MedianWithinBounds(arr: seq<real>, lo: real, hi: real)
    requires |arr| > 0
    requires forall i :: 0 <= i < |arr| ==> lo <= arr[i] <= hi
    ensures lo <= Median(arr) <= hi
  {
  }

  /** The median is read off any ascending arrangement of the held values: its
      middle element, or the mean of its two middle elements. */
  lemma MedianOfArrangement(arr: seq<real>, sorted: seq<real>)
    requires |arr| > 0
    requires Sorted(sorted) && multiset(sorted) == multiset(arr)
    ensures |sorted| == |arr|
    ensures |arr| % 2 == 1 ==> Median(arr) == sorted[|arr| / 2]
    ensures |arr| % 2 == 0 ==> Median(arr) == (sorted[|arr| / 2 - 1] + sorted[|arr| / 2]) / 2.0
  {
    assert |sorted| == |multiset(sorted)| == |arr|;
    SortedUnique(SortedCopy(arr), sorted);
  }

  /** The median of 100, 102, 98, 101, 99 (in that arrival order) is 100. */
  lemma MedianOfFiveExample(a: seq<real>)
    requires a == [100.0, 102.0, 98.0, 101.0, 99.0]
    ensures Median(a) == 100.0
  {
    var sorted := [98.0, 99.0, 100.0, 101.0, 102.0];
    FiveArrivalsRearranged(a, sorted);
    assert Sorted(sorted);
    MedianOfArrangement(a, sorted);
  }

  lemma FiveArrivalsRearranged(a: seq<real>, sorted: seq<real>)
    requires a == [100.0, 102.0, 98.0, 101.0, 99.0]
    requires sorted == [98.0, 99.0, 100.0, 101.0, 102.0]
    ensures multiset(a) == multiset(sorted)
  {
  }

  /** The median of an even count is the mean of the two middle values: here of 100
      and 102. */
  lemma MedianOfFourExample(a: seq<real>)
    requires a == [102.0, 98.0, 100.0, 110.0]
    ensures Median(a) == 101.0
  {
    var sorted := [98.0, 100.0, 102.0, 110.0];
    FourArrivalsRearranged(a, sorted);
    assert Sorted(sorted);
    MedianOfArrangement(a, sorted);
  }

  lemma FourArrivalsRearranged(a: seq<real>, sorted: seq<real>)
    requires a == [102.0, 98.0, 100.0, 110.0]
    requires sorted == [98.0, 100.0, 102.0, 110.0]
    ensures multiset(a) == multiset(sorted)
  {
  }

  /** The last (up to) n elements of `s`, in order. */
  function LastN(s: seq<real>, n: nat): seq<real>
  {
    if |s| <= n then s else s[|s| - n..]
  }

  /** `lastFreqs.push(freq)` followed by `shift()` when the window overflows. */
  function PushShift(window: seq<real>, freq: real): (r: seq<real>)
    ensures |window| <= SmoothN ==> |r| <= SmoothN
    ensures |r| > 0 && r[|r| - 1] == freq
  {
    var pushed := window + [freq];
    if |pushed| > SmoothN then pushed[1..] else pushed
  }

  /** Push-then-shift keeps the window equal to the last five accepted estimates in
      arrival order: the oldest is the one dropped. */
  lemma PushShiftKeepsLastFive(accepted: seq<real>, freq: real)
    ensures PushShift(LastN(accepted, SmoothN), freq) == LastN(accepted + [freq], SmoothN)
  {
    var all := accepted + [freq];
    if |accepted| > SmoothN {
      assert accepted[|accepted| - SmoothN..] + [freq] == all[|all| - SmoothN - 1..];
    }
  }

  /** Six arrivals 1..6 pushed through push-then-shift from an empty window leave
      the last five, in arrival order, whose median is 4. */
  lemma SixArrivalsKeepFive(w: seq<real>)
    requires w == PushShift(PushShift(PushShift(PushShift(PushShift(PushShift(
                   [], 1.0), 2.0), 3.0), 4.0), 5.0), 6.0)
    ensures w == [2.0, 3.0, 4.0, 5.0, 6.0]
    ensures Median(w) == 4.0
  {
    var w5 := PushShift(PushShift(PushShift(PushShift(PushShift([], 1.0), 2.0), 3.0), 4.0), 5.0);
    assert w5 == [1.0, 2.0, 3.0, 4.0, 5.0];
    MedianOfTwoToSix(w);
  }

  lemma MedianOfTwoToSix(w: seq<real>)
    requires w == [2.0, 3.0, 4.0, 5.0, 6.0]
    ensures Median(w) == 4.0
  {
    MedianOfArrangement(w, w);
  }
}
