/**
 A representation holder keeps segment numbers meaningful across manifest refreshes: it
 adds a shift to the numbers of the current index, and a refresh adjusts the shift so that
 a segment keeps the number under which it may already be queued.
 */
module RepresentationHolders {
  import opened Samples
  import opened SegmentIndexes

  type Positive = n: nat | n > 0 witness 1

  /** An index of the manifest or the stream; a derived one has segments of equal duration. */
  datatype Index =
    | Explicit(window: Window)
    | Derived(firstNum: nat, durationUs: Positive)

  /** The marker for an index without an end. */
  const UNBOUNDED: int := -1

  ghost predicate ValidIndex(index: Index) {
    match index
    case Explicit(w) => ValidWindow(w)
    case Derived(_, _) => true
  }

  function FirstNum(index: Index): int {
    if index.Explicit? then index.window.firstNum else index.firstNum
  }

  function LastNum(index: Index, periodUs: int): int
  {
    match index
    case Explicit(w) => w.LastNum()
    case Derived(firstNum, durationUs) =>
      if periodUs == 0 then UNBOUNDED else firstNum + (periodUs + durationUs - 1) / durationUs - 1
  }

  /** The start of a segment relative to the period; -1 outside an explicit index. */
  function TimeUs(index: Index, n: int): int {
    match index
    case Explicit(w) => if w.Has(n) then w.bounds[n - w.firstNum] else -1
    case Derived(firstNum, durationUs) => (n - firstNum) * durationUs
  }

  function DurationUs(index: Index, n: int, periodUs: int): int
  {
    match index
    case Explicit(w) => if w.Has(n) then w.bounds[n - w.firstNum + 1] - w.bounds[n - w.firstNum] else -1
    case Derived(_, durationUs) =>
      if n == LastNum(index, periodUs) then periodUs - TimeUs(index, n) else durationUs
  }

  function NumAt(index: Index, timeUs: int, periodUs: int): int
    requires index.Explicit? ==> index.window.Count() >= 1
  {
    match index
    case Explicit(w) => SegmentAt(w, timeUs)
    case Derived(firstNum, durationUs) =>
      var n, last := firstNum + timeUs / durationUs, LastNum(index, periodUs);
      if n < firstNum then firstNum
      else if last != UNBOUNDED && n > last then last
      else n
  }

  /** The holder: `manifest` is the index the manifest gave, `index` the one in use. */
  datatype State = State(
    periodStartUs: int,
    periodUs: int,
    shift: int,
    manifest: Option<Index>,
    index: Option<Index>)

  /** A refresh of an explicit index looks at its last segment and compares it with a new index. */
  predicate RefreshOk(h: State, newIndex: Option<Index>) {
    h.manifest.Some? && h.manifest.value.Explicit? ==> newIndex.Some? && h.manifest.value.window.Count() >= 1
  }

  /** How the shift changes: nothing if the numbers cannot shift, none if there is a gap. */
  function NewShift(shift: int, prior: Index, next: Index, periodUs: int): Option<int>
    requires prior.Explicit? && prior.window.Count() >= 1
  {
    var priorLast := LastNum(prior, periodUs);
    var priorEnd := TimeUs(prior, priorLast) + DurationUs(prior, priorLast, periodUs);
    var nextStart := TimeUs(next, FirstNum(next));
    if priorEnd == nextStart then Some(shift + priorLast - FirstNum(next) + 1)
    else if priorEnd < nextStart then None
    else Some(shift + NumAt(prior, nextStart, periodUs) - FirstNum(next))
  }

  /** The holder after a refresh, and whether it succeeded; on a gap the numbers are not adjusted. */
  function Refreshed(h: State, periodUs: int, newIndex: Option<Index>): (State, bool)
    requires RefreshOk(h, newIndex)
  {
    var h1 := h.(periodUs := periodUs, manifest := newIndex);
    if h.manifest.None? then (h1, true)
    else
      var h2 := h1.(index := newIndex);
      if h.manifest.value.Derived? then (h2, true)
      else
        var shift := NewShift(h.shift, h.manifest.value, newIndex.value, periodUs);
        (if shift.Some? then h2.(shift := shift.value) else h2, shift.Some?)
  }

  // ----- Lookups with shifted numbers -----------------------------------------------

  function SegmentNum(h: State, positionUs: int): int
    requires h.index.Some?
    requires h.index.value.Explicit? ==> h.index.value.window.Count() >= 1
  {
    NumAt(h.index.value, positionUs - h.periodStartUs, h.periodUs) + h.shift
  }

  function SegmentStartTime(h: State, n: int): int
    requires h.index.Some?
  {
    TimeUs(h.index.value, n - h.shift) + h.periodStartUs
  }

  function SegmentEndTime(h: State, n: int): int
    requires h.index.Some?
  {
    SegmentStartTime(h, n) + DurationUs(h.index.value, n - h.shift, h.periodUs)
  }

  predicate IsBeyondLastSegment(h: State, n: int)
    requires h.index.Some?
  {
    var last := LastNum(h.index.value, h.periodUs);
    last != UNBOUNDED && n > last + h.shift
  }

  predicate IsBeforeFirstSegment(h: State, n: int)
    requires h.index.Some?
  {
    n < FirstNum(h.index.value) + h.shift
  }

  function FirstAvailableSegmentNum(h: State): int
    requires h.index.Some?
  {
    FirstNum(h.index.value) + h.shift
  }

  // ----- Numbers keep their meaning -------------------------------------------------

  /** `w` shows the segments of the presentation timeline from number `at` on. */
  ghost predicate Shows(timeline: seq<int>, w: Window, at: nat) {
    && ValidWindow(w)
    && at + |w.bounds| <= |timeline|
    && w.bounds == timeline[at..at + |w.bounds|]
  }

  /** The holder's number `g + base` stands for segment `g` of the timeline, for every segment its
      window shows from `at` on. */
  ghost predicate Numbered(h: State, timeline: seq<int>, base: int, at: nat) {
    && h.manifest == h.index && h.index.Some? && h.index.value.Explicit?
    && var w := h.index.value.window;
       Shows(timeline, w, at) && w.firstNum + h.shift == at + base
  }

  /** One refresh of a window: it succeeds exactly when there is no gap, and then keeps every number
      exactly when the new window does not reach back before the old one. */
  lemma RefreshKeepsNumbersIff(h: State, timeline: seq<int>, base: int, at: nat, periodUs: int, w: Window, at': nat)
    requires Increasing(timeline) && Numbered(h, timeline, base, at) && Shows(timeline, w, at')
    ensures var (h', ok) := Refreshed(h, periodUs, Some(Explicit(w)));
            && (ok <==> at' <= at + h.index.value.window.Count())
            && (ok ==> (Numbered(h', timeline, base, at') <==> at' >= at))
  {
    var prior := h.index.value.window;
    var count := prior.Count();
    assert prior.bounds[count] == timeline[at + count] && w.bounds[0] == timeline[at'];
    if at' < at + count {
      if at' >= at {
        assert prior.bounds[at' - at] == timeline[at'];
        assert prior.bounds[at' - at + 1] == timeline[at' + 1];
        SegmentAtContains(prior, w.bounds[0], at' - at);
      } else {
        assert prior.bounds[0] == timeline[at];
        SegmentAtClamps(prior, w.bounds[0]);
      }
    }
  }

  /** A window that reaches back: the segment from 50 to 60 was number 5 and becomes number 6. */
  lemma ReachingBackRenumbers()
    ensures var h := Listing(Window(5, [50, 60]));
            var (h', ok) := Refreshed(h, 0, Some(Explicit(Window(4, [40, 50, 60]))));
            && ok
            && SegmentStartTime(h, 5) == 50 && SegmentEndTime(h, 5) == 60
            && SegmentStartTime(h', 6) == 50 && SegmentEndTime(h', 6) == 60
  {
    var v, w := Window(5, [50, 60]), Window(4, [40, 50, 60]);
    assert SegmentAt(v, 40) == 5 by {
      SegmentAtClamps(v, 40);
    }
    assert NewShift(0, Explicit(v), Explicit(w), 0) == Some(1);
    assert w.bounds[1] == 50 && w.bounds[2] == 60;
  }

  /** A new holder, in a period that starts at zero, for a listed window. */
  function Listing(w: Window): State {
    State(0, 0, 0, Some(Explicit(w)), Some(Explicit(w)))
  }

  // ----- What a number means --------------------------------------------------------

  /** The number is that of a segment of the current window. */
  predicate IsShown(h: State, n: int)
    requires h.index.Some?
  {
    !IsBeforeFirstSegment(h, n) && !IsBeyondLastSegment(h, n)
  }

  /** What a number that is shown means: its times are those of the timeline, it starts where the
      number before it ends, and it is found at every position inside it. */
  lemma NumberMeansTimelineSegment(h: State, timeline: seq<int>, base: int, at: nat, n: int)
    requires Increasing(timeline) && Numbered(h, timeline, base, at)
    ensures var w := h.index.value.window;
            var g := n - base;
            && (IsShown(h, n) <==> at <= g < at + w.Count())
            && FirstAvailableSegmentNum(h) == at + base
            && (IsShown(h, n) ==>
                  && SegmentStartTime(h, n) == timeline[g] + h.periodStartUs
                  && SegmentEndTime(h, n) == timeline[g + 1] + h.periodStartUs
                  && (forall p :: SegmentStartTime(h, n) <= p < SegmentEndTime(h, n) ==> SegmentNum(h, p) == n))
  {
    var w := h.index.value.window;
    var g := n - base;
    if at <= g < at + w.Count() {
      assert w.bounds[g - at] == timeline[g] && w.bounds[g - at + 1] == timeline[g + 1];
      forall p | SegmentStartTime(h, n) <= p < SegmentEndTime(h, n)
        ensures SegmentNum(h, p) == n
      {
        SegmentAtContains(w, p - h.periodStartUs, g - at);
      }
    }
  }

  /** A number that both states show has the same times in both, relative to the period; and a
      number and its successor are adjacent, whichever of the states shows them. */
  ghost predicate SameMeaning(a: State, b: State, n: int)
    requires a.index.Some? && a.index.value.Explicit? && b.index.Some? && b.index.value.Explicit?
  {
    && (IsShown(a, n) && IsShown(b, n) ==>
          && SegmentStartTime(a, n) - a.periodStartUs == SegmentStartTime(b, n) - b.periodStartUs
          && SegmentEndTime(a, n) - a.periodStartUs == SegmentEndTime(b, n) - b.periodStartUs)
    && (IsShown(a, n) && IsShown(b, n + 1) ==>
          SegmentEndTime(a, n) - a.periodStartUs == SegmentStartTime(b, n + 1) - b.periodStartUs)
  }

  lemma NumberedAlikeMeansSame(a: State, b: State, timeline: seq<int>, base: int, at: nat, at': nat, n: int)
    requires Increasing(timeline) && Numbered(a, timeline, base, at) && Numbered(b, timeline, base, at')
    ensures SameMeaning(a, b, n)
  {
    NumberMeansTimelineSegment(a, timeline, base, at, n);
    NumberMeansTimelineSegment(b, timeline, base, at', n);
    NumberMeansTimelineSegment(b, timeline, base, at', n + 1);
  }

  // ----- The class ------------------------------------------------------------------

  class RepresentationHolder {
    const periodStartUs: int
    var periodDurationUs: int
    var segmentNumShift: int
    var representationIndex: Option<Index>
    var segmentIndex: Option<Index>

    ghost function Model(): State
      reads this
    {
      State(periodStartUs, periodDurationUs, segmentNumShift, representationIndex, segmentIndex)
    }

    constructor (periodStartUs: int, periodDurationUs: int, index: Option<Index>)
      ensures Model() == State(periodStartUs, periodDurationUs, 0, index, index)
    {
      this.periodStartUs := periodStartUs;
      this.periodDurationUs := periodDurationUs;
      segmentNumShift := 0;
      representationIndex := index;
      segmentIndex := index;
    }

    method GiveSegmentIndex(index: Index)
      modifies this
      ensures Model() == old(Model()).(index := Some(index))
    {
      segmentIndex := Some(index);
    }

    method UpdateRepresentation(newPeriodDurationUs: int, newIndex: Option<Index>) returns (ok: bool)
      requires RefreshOk(Model(), newIndex)
      requires representationIndex.Some? ==> ValidIndex(representationIndex.value)
      modifies this
      ensures (Model(), ok) == Refreshed(old(Model()), newPeriodDurationUs, newIndex)
    {
      var oldIndex := representationIndex;
      periodDurationUs := newPeriodDurationUs;
      representationIndex := newIndex;
      if oldIndex.None? {
        return true;
      }
      segmentIndex := newIndex;
      if !oldIndex.value.Explicit? {
        return true;
      }
      var oldLast := LastNum(oldIndex.value, periodDurationUs);
      var oldEndUs := TimeUs(oldIndex.value, oldLast) + DurationUs(oldIndex.value, oldLast, periodDurationUs);
      var newFirst := FirstNum(newIndex.value);
      var newStartUs := TimeUs(newIndex.value, newFirst);
      if oldEndUs == newStartUs {
        segmentNumShift := segmentNumShift + (LastNum(oldIndex.value, periodDurationUs) - newFirst + 1);
        return true;
      }
      if oldEndUs < newStartUs {
        return false;
      }
      var overlap := FindSegment(oldIndex.value.window, newStartUs);
      segmentNumShift := segmentNumShift + (overlap - newFirst);
      return true;
    }
  }
}
