/** The extremes that the range reducer computes: the reference scan seeds
    its running minimum and maximum with `s[index1]` and then compares the
    elements `s[index1 .. index2)`, never `s[index2]`. */
module Extremes {

  /** One past the last index whose value the scan can take: the seed
      `index1` alone when the half-open range is empty. */
  function ScanEnd(index1: int, index2: int): (e: int)
    ensures e > index1 && e >= index2
    ensures e == index2 || e == index1 + 1
  {
    if index2 > index1 then index2 else index1 + 1
  }

  /** The running minimum after the scan of `[index1, index2)`. */
  function RangeLowest(s: seq<real>, index1: int, index2: int): real
    requires 0 <= index1 < |s| && index2 <= |s|
    decreases index2 - index1
  {
    if index2 <= index1 then s[index1]
    else
      var prev := RangeLowest(s, index1, index2 - 1);
      if s[index2 - 1] < prev then s[index2 - 1] else prev
  }

  /** The running maximum after the scan of `[index1, index2)`. */
  function RangeHighest(s: seq<real>, index1: int, index2: int): real
    requires 0 <= index1 < |s| && index2 <= |s|
    decreases index2 - index1
  {
    if index2 <= index1 then s[index1]
    else
      var prev := RangeHighest(s, index1, index2 - 1);
      if s[index2 - 1] > prev then s[index2 - 1] else prev
  }

  /** The running minimum is the least value of the scanned window
      (the seed included) and is one of its values. */
  lemma {:induction false} RangeLowestIsLeast(s: seq<real>, index1: int, index2: int)
    requires 0 <= index1 < |s| && index2 <= |s|
    ensures forall k :: index1 <= k < ScanEnd(index1, index2) ==> RangeLowest(s, index1, index2) <= s[k]
    ensures exists k :: index1 <= k < ScanEnd(index1, index2) && s[k] == RangeLowest(s, index1, index2)
    decreases index2 - index1
  {
    if index2 <= index1 + 1 {
      assert s[index1] == RangeLowest(s, index1, index2);
    } else {
      RangeLowestIsLeast(s, index1, index2 - 1);
      if s[index2 - 1] < RangeLowest(s, index1, index2 - 1) {
        assert s[index2 - 1] == RangeLowest(s, index1, index2);
      }
    }
  }

  /** The running maximum is the greatest value of the scanned window
      (the seed included) and is one of its values. */
  lemma {:induction false} RangeHighestIsGreatest(s: seq<real>, index1: int, index2: int)
    requires 0 <= index1 < |s| && index2 <= |s|
    ensures forall k :: index1 <= k < ScanEnd(index1, index2) ==> s[k] <= RangeHighest(s, index1, index2)
    ensures exists k :: index1 <= k < ScanEnd(index1, index2) && s[k] == RangeHighest(s, index1, index2)
    decreases index2 - index1
  {
    if index2 <= index1 + 1 {
      assert s[index1] == RangeHighest(s, index1, index2);
    } else {
      RangeHighestIsGreatest(s, index1, index2 - 1);
      if s[index2 - 1] > RangeHighest(s, index1, index2 - 1) {
        assert s[index2 - 1] == RangeHighest(s, index1, index2);
      }
    }
  }

  /** The minimum never exceeds the maximum over the same window. */
  lemma LowestAtMostHighest(s: seq<real>, index1: int, index2: int)
    requires 0 <= index1 < |s| && index2 <= |s|
    ensures RangeLowest(s, index1, index2) <= RangeHighest(s, index1, index2)
  {
    RangeLowestIsLeast(s, index1, index2);
    RangeHighestIsGreatest(s, index1, index2);
  }

  /** The extremes depend on nothing outside the scanned window: in
      particular `s[index2]` (and every later element) is never compared. */
  lemma {:induction false} ExtremesAreLocal(s: seq<real>, t: seq<real>, index1: int, index2: int)
    requires 0 <= index1 < |s| && index2 <= |s|
    requires 0 <= index1 < |t| && index2 <= |t|
    requires forall k :: index1 <= k < ScanEnd(index1, index2) ==> s[k] == t[k]
    ensures RangeLowest(s, index1, index2) == RangeLowest(t, index1, index2)
    ensures RangeHighest(s, index1, index2) == RangeHighest(t, index1, index2)
    decreases index2 - index1
  {
    if index2 > index1 {
      ExtremesAreLocal(s, t, index1, index2 - 1);
    }
  }
}
