/**
 Segment indexes: explicit ones list their segments, derived ones compute them from a fixed
 duration. Explicit lookups are proved against one definition of "the segment at a time",
 which the manifest's binary search and the stream's chunk index both compute.
 */
module SegmentIndexes {
  ghost predicate Increasing(times: seq<int>) {
    forall i, j :: 0 <= i < j < |times| ==> times[i] < times[j]
  }

  ghost predicate NonDecreasing(times: seq<int>) {
    forall i, j :: 0 <= i < j < |times| ==> times[i] <= times[j]
  }

  // ----- The chunk index of a stream ------------------------------------------------

  /** The first index in `lo..hi` whose time is not before `t`, by halving. */
  function LowerBoundIn(times: seq<int>, t: int, lo: nat, hi: nat): (k: nat)
    requires lo <= hi <= |times| && NonDecreasing(times)
    requires forall i :: 0 <= i < lo ==> times[i] < t
    requires forall i :: hi <= i < |times| ==> times[i] >= t
    ensures lo <= k <= hi
    ensures forall i :: 0 <= i < k ==> times[i] < t
    ensures forall i :: k <= i < |times| ==> times[i] >= t
    decreases hi - lo
  {
    if lo == hi then lo
    else
      var mid := lo + (hi - lo) / 2;
      if times[mid] < t then LowerBoundIn(times, t, mid + 1, hi) else LowerBoundIn(times, t, lo, mid)
  }

  /** The chunk that contains `t`; the first chunk if `t` is before all of them. */
  function GetChunkIndex(times: seq<int>, t: int): (r: nat)
    requires times != [] && NonDecreasing(times) && times[0] >= 0
    ensures r < |times|
    ensures t < times[0] ==> r == 0
    ensures t >= times[0] ==> times[r] <= t
    ensures forall j :: 0 <= j < |times| && times[j] <= t ==> times[j] <= times[r]
  {
    if t < 0 then 0
    else
      var k := LowerBoundIn(times, t, 0, |times|);
      if k == |times| then k - 1
      else if times[k] == t then k
      else if k == 0 then 0 else k - 1
  }

  ghost predicate IsLastAtOrBefore(times: seq<int>, t: int, r: nat) {
    r < |times| && times[r] <= t && forall j :: r < j < |times| ==> times[j] > t
  }

  ghost predicate Repeats(times: seq<int>, t: int) {
    exists i, j :: 0 <= i < j < |times| && times[i] == t && times[j] == t
  }

  /** From the first start on, the chunk found is the last one that starts at or before the time
      exactly when that time is not the start of two chunks. */
  lemma ChunkIndexIsLastIff(times: seq<int>, t: int)
    requires times != [] && NonDecreasing(times) && 0 <= times[0] <= t
    ensures IsLastAtOrBefore(times, t, GetChunkIndex(times, t)) <==> !Repeats(times, t)
  {
    var k := LowerBoundIn(times, t, 0, |times|);
    var r := GetChunkIndex(times, t);
    if k < |times| && times[k] == t && k + 1 < |times| && times[k + 1] == t {
      assert Repeats(times, t);
    }
    if Repeats(times, t) {
      var i, j :| 0 <= i < j < |times| && times[i] == t && times[j] == t;
      assert k <= i;
    }
  }

  /** Two chunks start at 5: the first of them is found, not the last. */
  lemma ChunkIndexCanMissLast()
    ensures NonDecreasing([0, 5, 5]) && GetChunkIndex([0, 5, 5], 5) == 1 && !IsLastAtOrBefore([0, 5, 5], 5, 1)
  {
    var times := [0, 5, 5];
    assert times[1] == 5 && times[2] == 5;
    assert Repeats(times, 5);
    ChunkIndexIsLastIff(times, 5);
    var k := LowerBoundIn(times, 5, 0, 3);
    assert times[0] < 5;
    assert k == 1;
  }

  lemma ChunkIndexIsMonotone(times: seq<int>, t: int, u: int)
    requires times != [] && NonDecreasing(times) && times[0] >= 0 && t <= u
    ensures GetChunkIndex(times, t) <= GetChunkIndex(times, u)
  {
    if 0 <= t {
      var k, m := LowerBoundIn(times, t, 0, |times|), LowerBoundIn(times, u, 0, |times|);
      assert m < |times| ==> times[m] >= u;
      if t < u && k < |times| && times[k] == t {
        assert k < m;
      }
    }
  }

  /** Looking up the start of a chunk gives that chunk. */
  lemma ChunkIndexInvertsStarts(times: seq<int>, i: nat)
    requires Increasing(times) && i < |times| && times[0] >= 0
    ensures NonDecreasing(times) && GetChunkIndex(times, times[i]) == i
  {
    assert times[0] <= times[i];
  }

  // ----- Explicit windows -----------------------------------------------------------

  /** Consecutive segments numbered from `firstNum`: segment i lasts from `bounds[i]` to
      `bounds[i + 1]`. */
  datatype Window = Window(firstNum: nat, bounds: seq<int>) {
    function Count(): int {
      |bounds| - 1
    }

    function LastNum(): int {
      firstNum + Count() - 1
    }

    predicate Has(n: int) {
      firstNum <= n <= LastNum()
    }
  }

  ghost predicate ValidWindow(w: Window) {
    w.Count() >= 1 && Increasing(w.bounds)
  }

  /** How many of the first `n` bounds are at or before `t`. */
  function StartedBy(bounds: seq<int>, n: nat, t: int): (k: nat)
    requires n <= |bounds|
    ensures k <= n
  {
    if n == 0 then 0 else if bounds[n - 1] <= t then n else StartedBy(bounds, n - 1, t)
  }

  /** The segment that contains `t`, clamped to the window. */
  function SegmentAt(w: Window, t: int): int
    requires w.Count() >= 1
  {
    var k := StartedBy(w.bounds, w.Count(), t);
    if k == 0 then w.firstNum else w.firstNum + k - 1
  }

  lemma StartedByIs(bounds: seq<int>, n: nat, t: int, k: nat)
    requires Increasing(bounds) && k <= n <= |bounds|
    requires k > 0 ==> bounds[k - 1] <= t
    requires k < n ==> t < bounds[k]
    ensures StartedBy(bounds, n, t) == k
  {
  }

  /** Inside the window, the segment found starts at or before the time and ends after it; and the
      segments found for starts are those segments. */
  lemma SegmentAtContains(w: Window, t: int, i: nat)
    requires ValidWindow(w) && i < w.Count() && w.bounds[i] <= t < w.bounds[i + 1]
    ensures SegmentAt(w, t) == w.firstNum + i
  {
    StartedByIs(w.bounds, w.Count(), t, i + 1);
  }

  lemma SegmentAtClamps(w: Window, t: int)
    requires ValidWindow(w)
    ensures t < w.bounds[0] ==> SegmentAt(w, t) == w.firstNum
    ensures t >= w.bounds[w.Count()] ==> SegmentAt(w, t) == w.LastNum()
    ensures w.Has(SegmentAt(w, t))
  {
    if t < w.bounds[0] {
      StartedByIs(w.bounds, w.Count(), t, 0);
    }
    if t >= w.bounds[w.Count()] {
      StartedByIs(w.bounds, w.Count(), t, w.Count());
    }
  }

  /** The manifest's binary search over a segment timeline. */
  method FindSegment(w: Window, t: int) returns (n: int)
    requires ValidWindow(w)
    ensures n == SegmentAt(w, t)
  {
    var low, high := w.firstNum, w.LastNum();
    while low <= high
      invariant w.firstNum <= low <= high + 1 <= w.LastNum() + 1
      invariant low > w.firstNum ==> w.bounds[low - 1 - w.firstNum] < t
      invariant high < w.LastNum() ==> w.bounds[high + 1 - w.firstNum] > t
      decreases high - low
    {
      var mid := (low + high) / 2;
      var time := w.bounds[mid - w.firstNum];
      if time < t {
        low := mid + 1;
      } else if time > t {
        high := mid - 1;
      } else {
        StartedByIs(w.bounds, w.Count(), t, mid - w.firstNum + 1);
        return mid;
      }
    }
    StartedByIs(w.bounds, w.Count(), t, low - w.firstNum);
    n := if low == w.firstNum then low else high;
  }

  /** For increasing starts, the stream's chunk index is the window lookup of a window numbered from
      zero. */
  lemma ChunkIndexIsSegmentAt(w: Window, t: int)
    requires ValidWindow(w) && w.firstNum == 0 && w.bounds[0] >= 0
    ensures NonDecreasing(w.bounds[..w.Count()])
    ensures GetChunkIndex(w.bounds[..w.Count()], t) == SegmentAt(w, t)
  {
    var starts := w.bounds[..w.Count()];
    assert Increasing(starts);
    var r := GetChunkIndex(starts, t);
    if t < starts[0] {
      StartedByIs(w.bounds, w.Count(), t, 0);
    } else {
      assert !Repeats(starts, t);
      ChunkIndexIsLastIff(starts, t);
      assert r + 1 < |starts| ==> starts[r + 1] > t;
      StartedByIs(w.bounds, w.Count(), t, r + 1);
    }
  }
}
