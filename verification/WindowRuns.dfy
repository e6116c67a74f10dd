/**
 Sequences of manifest refreshes of one representation. Each window is adjacent to the one
 before, or overlaps it and agrees with it. Consecutive states then always agree on what a
 number means; all states agree exactly when all windows are windows of one timeline, which
 they are when no window ends before the one it replaces.
 */
module WindowRuns {
  import opened Samples
  import opened SegmentIndexes
  import opened RepresentationHolders

  /** `w` starts at the `j`-th boundary of `v`, and they agree where they overlap. */
  ghost predicate Meets(v: Window, w: Window, j: nat) {
    && ValidWindow(v) && ValidWindow(w) && j <= v.Count()
    && forall i :: j <= i < |v.bounds| && i - j < |w.bounds| ==> v.bounds[i] == w.bounds[i - j]
  }

  /** The holder uses the window that the manifest gave. */
  ghost predicate Lists(h: State) {
    h.manifest == h.index && h.index.Some? && h.index.value.Explicit? && ValidWindow(h.index.value.window)
  }

  function WindowOf(h: State): Window {
    if h.index.Some? && h.index.value.Explicit? then h.index.value.window else Window(0, [])
  }

  /** The number of the first segment of the window. */
  function FirstOf(h: State): int {
    WindowOf(h).firstNum + h.shift
  }

  /** `h'` is `h` after a refresh with a window that meets the one before. */
  ghost predicate StepsTo(h: State, h': State) {
    && Lists(h) && h'.index.Some? && h'.index.value.Explicit?
    && (exists j: nat :: Meets(WindowOf(h), WindowOf(h'), j))
    && h' == Refreshed(h, h'.periodUs, h'.index).0
  }

  /** The states of a holder over a sequence of such refreshes. */
  ghost predicate IsRun(states: seq<State>) {
    states != [] && Lists(states[0]) && forall k :: 0 <= k < |states| - 1 ==> IsStep(states, k)
  }

  ghost predicate IsStep(states: seq<State>, k: nat)
    requires k + 1 < |states|
  {
    StepsTo(states[k], states[k + 1])
  }

  // ----- Consecutive states ---------------------------------------------------------

  /** Two windows that meet show one timeline. */
  lemma PairHasTimeline(v: Window, w: Window, j: nat) returns (timeline: seq<int>)
    requires Meets(v, w, j)
    ensures Increasing(timeline) && Shows(timeline, v, 0) && Shows(timeline, w, j)
  {
    var reach := j + |w.bounds|;
    assert w.bounds[0] == v.bounds[j];
    if reach <= |v.bounds| {
      timeline := v.bounds;
    } else {
      timeline := v.bounds[..j] + w.bounds;
    }
    assert timeline[0..|v.bounds|] == v.bounds;
    assert timeline[j..reach] == w.bounds;
  }

  /** A refresh with a window that meets the one before succeeds, and the window's first number moves
      on by as many segments as the window did. */
  lemma StepMoves(h: State, h': State) returns (j: nat, timeline: seq<int>)
    requires StepsTo(h, h')
    ensures Refreshed(h, h'.periodUs, h'.index).1 && Lists(h') && h'.periodStartUs == h.periodStartUs
    ensures Meets(WindowOf(h), WindowOf(h'), j) && FirstOf(h') == FirstOf(h) + j
    ensures Increasing(timeline) && Numbered(h, timeline, FirstOf(h), 0) && Numbered(h', timeline, FirstOf(h), j)
  {
    var i: nat :| Meets(WindowOf(h), WindowOf(h'), i);
    j := i;
    timeline := PairHasTimeline(WindowOf(h), WindowOf(h'), j);
    assert Numbered(h, timeline, FirstOf(h), 0);
    RefreshKeepsNumbersIff(h, timeline, FirstOf(h), 0, h'.periodUs, WindowOf(h'), j);
  }

  /** Whatever the windows, one refresh does not change what a number means. */
  lemma ConsecutiveStatesAgree(h: State, h': State, n: int)
    requires StepsTo(h, h')
    ensures Lists(h') && SameMeaning(h, h', n) && SameMeaning(h', h, n)
  {
    var j, timeline := StepMoves(h, h');
    NumberedAlikeMeansSame(h, h', timeline, FirstOf(h), 0, j, n);
    NumberedAlikeMeansSame(h', h, timeline, FirstOf(h), j, 0, n);
  }

  lemma {:induction false} RunLists(states: seq<State>, k: nat)
    requires IsRun(states) && k < |states|
    ensures Lists(states[k])
  {
    if k > 0 {
      assert IsStep(states, k - 1);
      var j, timeline := StepMoves(states[k - 1], states[k]);
    }
  }

  // ----- All states -----------------------------------------------------------------

  ghost predicate Agree(a: State, b: State) {
    Lists(a) && Lists(b) && forall n :: SameMeaning(a, b, n)
  }

  /** Any two states of the run agree on what every number means. */
  ghost predicate AllAgree(states: seq<State>) {
    forall i, j :: 0 <= i < |states| && 0 <= j < |states| ==> Agree(states[i], states[j])
  }

  /** The windows are windows of one timeline, and move forward on it without a gap. */
  ghost predicate Advancing(timeline: seq<int>, states: seq<State>, places: seq<nat>) {
    && Increasing(timeline) && |places| == |states|
    && forall k :: 0 <= k < |states| ==> PlacedAt(timeline, states, places, k)
  }

  ghost predicate PlacedAt(timeline: seq<int>, states: seq<State>, places: seq<nat>, k: nat)
    requires k < |states| == |places|
  {
    && Shows(timeline, WindowOf(states[k]), places[k])
    && (k > 0 ==> places[k - 1] <= places[k] <= places[k - 1] + WindowOf(states[k - 1]).Count())
  }

  ghost predicate OneTimeline(states: seq<State>) {
    exists timeline, places :: Advancing(timeline, states, places)
  }

  /** On one timeline, every state numbers every segment it shows by its place plus one constant. */
  lemma {:induction false} NumbersAreStable(states: seq<State>, timeline: seq<int>, places: seq<nat>, k: nat)
    requires IsRun(states) && Advancing(timeline, states, places) && k < |states|
    ensures Numbered(states[k], timeline, FirstOf(states[0]) - places[0], places[k])
  {
    assert PlacedAt(timeline, states, places, k);
    if k > 0 {
      NumbersAreStable(states, timeline, places, k - 1);
      assert IsStep(states, k - 1);
      RefreshKeepsNumbersIff(states[k - 1], timeline, FirstOf(states[0]) - places[0], places[k - 1],
                             states[k].periodUs, WindowOf(states[k]), places[k]);
    }
  }

  lemma TimelineMeansAgree(states: seq<State>, timeline: seq<int>, places: seq<nat>)
    requires IsRun(states) && Advancing(timeline, states, places)
    ensures AllAgree(states)
  {
    var base := FirstOf(states[0]) - places[0];
    forall i, j | 0 <= i < |states| && 0 <= j < |states|
      ensures Agree(states[i], states[j])
    {
      NumbersAreStable(states, timeline, places, i);
      NumbersAreStable(states, timeline, places, j);
      forall n
        ensures SameMeaning(states[i], states[j], n)
      {
        NumberedAlikeMeansSame(states[i], states[j], timeline, base, places[i], places[j], n);
      }
    }
  }

  // ----- Agreement makes a timeline -------------------------------------------------

  /** The times of a segment that the window shows. */
  lemma ShownTimes(h: State, n: int)
    requires Lists(h) && FirstOf(h) <= n < FirstOf(h) + WindowOf(h).Count()
    ensures IsShown(h, n)
    ensures SegmentStartTime(h, n) - h.periodStartUs == WindowOf(h).bounds[n - FirstOf(h)]
    ensures SegmentEndTime(h, n) - h.periodStartUs == WindowOf(h).bounds[n - FirstOf(h) + 1]
  {
  }

  /** The window has the boundary before segment `x`. */
  predicate HasBoundary(h: State, x: int) {
    FirstOf(h) <= x < FirstOf(h) + |WindowOf(h).bounds|
  }

  /** States that agree have every boundary at the same time. */
  lemma BoundaryAgrees(a: State, b: State, x: int)
    requires Agree(a, b) && Agree(b, a) && HasBoundary(a, x) && HasBoundary(b, x)
    ensures WindowOf(a).bounds[x - FirstOf(a)] == WindowOf(b).bounds[x - FirstOf(b)]
  {
    var inA, inB := x < FirstOf(a) + WindowOf(a).Count(), x < FirstOf(b) + WindowOf(b).Count();
    ShownTimes(a, if inA then x else x - 1);
    ShownTimes(b, if inB then x else x - 1);
    if inA && inB {
      assert SameMeaning(a, b, x);
    } else {
      assert SameMeaning(a, b, x - 1) && SameMeaning(b, a, x - 1);
    }
  }

  function PlaceOf(states: seq<State>, k: nat): int
    requires k < |states|
  {
    FirstOf(states[k]) - FirstOf(states[0])
  }

  /** Windows move forward, and not past the end of the one before. */
  lemma PlacesAdvance(states: seq<State>, k: nat)
    requires IsRun(states) && 0 < k < |states|
    ensures PlaceOf(states, k - 1) <= PlaceOf(states, k) <= PlaceOf(states, k - 1) + WindowOf(states[k - 1]).Count()
  {
    assert IsStep(states, k - 1);
    var j, timeline := StepMoves(states[k - 1], states[k]);
  }

  /** The first `m` windows are windows of the timeline, which has no other boundaries. */
  ghost predicate Charts(timeline: seq<int>, states: seq<State>, m: nat)
    requires m <= |states|
  {
    && Increasing(timeline)
    && (forall k :: 0 <= k < m ==> PlaceOf(states, k) >= 0 && Shows(timeline, WindowOf(states[k]), PlaceOf(states, k)))
    && forall x :: 0 <= x < |timeline| ==> HasCharted(states, m, x)
  }

  ghost predicate HasCharted(states: seq<State>, m: nat, x: nat)
    requires m <= |states|
  {
    exists k :: 0 <= k < m && HasBoundary(states[k], FirstOf(states[0]) + x)
  }

  lemma {:induction false} AgreeMakesTimeline(states: seq<State>, m: nat) returns (timeline: seq<int>)
    requires IsRun(states) && AllAgree(states) && 0 < m <= |states|
    ensures Charts(timeline, states, m)
    decreases m
  {
    RunLists(states, m - 1);
    if m == 1 {
      timeline := WindowOf(states[0]).bounds;
      assert timeline[0..|timeline|] == timeline;
      forall x | 0 <= x < |timeline|
        ensures HasCharted(states, 1, x)
      {
        assert HasBoundary(states[0], FirstOf(states[0]) + x);
      }
    } else {
      var known := AgreeMakesTimeline(states, m - 1);
      timeline := ChartOneMore(known, states, m - 1);
    }
  }

  /** The next window agrees with the timeline so far. */
  lemma NextAgrees(known: seq<int>, states: seq<State>, m: nat, x: nat)
    requires IsRun(states) && AllAgree(states) && 0 < m < |states| && Charts(known, states, m)
    requires x < |known| && HasBoundary(states[m], FirstOf(states[0]) + x)
    ensures known[x] == WindowOf(states[m]).bounds[x - PlaceOf(states, m)]
  {
    assert HasCharted(states, m, x);
    var k :| 0 <= k < m && HasBoundary(states[k], FirstOf(states[0]) + x);
    var w, at := WindowOf(states[k]), PlaceOf(states, k);
    assert Shows(known, w, at);
    assert w.bounds[x - at] == known[x];
    assert Agree(states[k], states[m]) && Agree(states[m], states[k]);
    BoundaryAgrees(states[k], states[m], FirstOf(states[0]) + x);
  }

  lemma ChartOneMore(known: seq<int>, states: seq<State>, m: nat) returns (timeline: seq<int>)
    requires IsRun(states) && AllAgree(states) && 0 < m < |states| && Charts(known, states, m)
    ensures Charts(timeline, states, m + 1)
  {
    var w, at := WindowOf(states[m]), PlaceOf(states, m);
    RunLists(states, m);
    PlacesAdvance(states, m);
    assert Shows(known, WindowOf(states[m - 1]), PlaceOf(states, m - 1));
    forall x | at <= x < |known| && x - at < |w.bounds|
      ensures known[x] == w.bounds[x - at]
    {
      NextAgrees(known, states, m, x);
    }
    timeline := Joined(known, w, at);
    forall k | 0 <= k < m + 1
      ensures PlaceOf(states, k) >= 0 && Shows(timeline, WindowOf(states[k]), PlaceOf(states, k))
    {
      if k < m {
        ShowsLonger(known, timeline, WindowOf(states[k]), PlaceOf(states, k));
      }
    }
    var more := m + 1;
    forall x | 0 <= x < |timeline|
      ensures HasCharted(states, more, x)
    {
      if x < |known| {
        assert HasCharted(states, m, x);
        var k :| 0 <= k < m && HasBoundary(states[k], FirstOf(states[0]) + x);
      } else {
        assert HasBoundary(states[m], FirstOf(states[0]) + x);
      }
    }
  }

  lemma ShowsLonger(known: seq<int>, timeline: seq<int>, w: Window, at: nat)
    requires known <= timeline && Shows(known, w, at)
    ensures Shows(timeline, w, at)
  {
    assert timeline[at..at + |w.bounds|] == known[at..at + |w.bounds|];
  }

  /** A timeline and a window that begins on it and agrees with it. */
  lemma Joined(known: seq<int>, w: Window, at: nat) returns (timeline: seq<int>)
    requires Increasing(known) && ValidWindow(w) && at < |known|
    requires forall x :: at <= x < |known| && x - at < |w.bounds| ==> known[x] == w.bounds[x - at]
    ensures Increasing(timeline) && known <= timeline && Shows(timeline, w, at)
    ensures |timeline| == if at + |w.bounds| <= |known| then |known| else at + |w.bounds|
  {
    assert known[at] == w.bounds[0];
    timeline := if at + |w.bounds| <= |known| then known else known[..at] + w.bounds;
    assert timeline[at..at + |w.bounds|] == w.bounds;
  }

  /** All states of a run agree on what every number means, if and only if their windows are windows
      of one timeline on which they move forward without a gap. */
  lemma AllAgreeIffOneTimeline(states: seq<State>)
    requires IsRun(states)
    ensures AllAgree(states) <==> OneTimeline(states)
  {
    if AllAgree(states) {
      var timeline := AgreeMakesTimeline(states, |states|);
      var places := seq(|states|, k requires 0 <= k < |states| =>
                                    if PlaceOf(states, k) >= 0 then PlaceOf(states, k) else 0);
      forall k | 0 <= k < |states|
        ensures PlacedAt(timeline, states, places, k)
      {
        if k > 0 {
          PlacesAdvance(states, k);
        }
      }
      assert Advancing(timeline, states, places);
    }
    if OneTimeline(states) {
      var timeline, places :| Advancing(timeline, states, places);
      TimelineMeansAgree(states, timeline, places);
    }
  }

  // ----- Windows that do not end earlier --------------------------------------------

  function EndOf(w: Window): int
    requires w.bounds != []
  {
    w.bounds[|w.bounds| - 1]
  }

  /** No window ends before the one it replaces. */
  ghost predicate NeverEndsEarlier(states: seq<State>) {
    forall k :: 0 < k < |states| && WindowOf(states[k]).bounds != [] && WindowOf(states[k - 1]).bounds != [] ==>
                  EndOf(WindowOf(states[k - 1])) <= EndOf(WindowOf(states[k]))
  }

  /** The first `m` windows are windows of the timeline, and the last of them is the end of it. */
  ghost predicate ChartsToEnd(timeline: seq<int>, states: seq<State>, m: nat)
    requires 0 < m <= |states|
  {
    && Increasing(timeline)
    && (forall k :: 0 <= k < m ==> PlaceOf(states, k) >= 0 && Shows(timeline, WindowOf(states[k]), PlaceOf(states, k)))
    && PlaceOf(states, m - 1) + |WindowOf(states[m - 1]).bounds| == |timeline|
  }

  lemma {:induction false} ChainHasTimeline(states: seq<State>, m: nat) returns (timeline: seq<int>)
    requires IsRun(states) && NeverEndsEarlier(states) && 0 < m <= |states|
    ensures ChartsToEnd(timeline, states, m)
    decreases m
  {
    if m == 1 {
      timeline := WindowOf(states[0]).bounds;
      assert timeline[0..|timeline|] == timeline;
    } else {
      var known := ChainHasTimeline(states, m - 1);
      timeline := ChartToNextEnd(known, states, m - 1);
    }
  }

  lemma ChartToNextEnd(known: seq<int>, states: seq<State>, m: nat) returns (timeline: seq<int>)
    requires IsRun(states) && NeverEndsEarlier(states) && 0 < m < |states| && ChartsToEnd(known, states, m)
    ensures ChartsToEnd(timeline, states, m + 1)
  {
    var h, h' := states[m - 1], states[m];
    assert IsStep(states, m - 1);
    var j, pair := StepMoves(h, h');
    timeline := Extended(known, PlaceOf(states, m - 1), WindowOf(h), WindowOf(h'), j);
    StillShows(known, timeline, states, m);
  }

  lemma StillShows(known: seq<int>, timeline: seq<int>, states: seq<State>, m: nat)
    requires 0 < m <= |states| && ChartsToEnd(known, states, m) && known <= timeline
    ensures forall k :: 0 <= k < m ==> Shows(timeline, WindowOf(states[k]), PlaceOf(states, k))
  {
    forall k | 0 <= k < m
      ensures Shows(timeline, WindowOf(states[k]), PlaceOf(states, k))
    {
      ShowsLonger(known, timeline, WindowOf(states[k]), PlaceOf(states, k));
    }
  }

  /** A timeline that ends with `v`, extended by a window that meets `v` and does not end earlier. */
  lemma Extended(known: seq<int>, at: nat, v: Window, w: Window, j: nat) returns (longer: seq<int>)
    requires Increasing(known) && Shows(known, v, at) && at + |v.bounds| == |known|
    requires Meets(v, w, j) && EndOf(v) <= EndOf(w)
    ensures Increasing(longer) && known <= longer
    ensures Shows(longer, w, at + j) && at + j + |w.bounds| == |longer|
  {
    if j + |w.bounds| <= |v.bounds| {
      assert v.bounds[j + |w.bounds| - 1] == EndOf(w);
    }
    forall x | at + j <= x < |known| && x - (at + j) < |w.bounds|
      ensures known[x] == w.bounds[x - (at + j)]
    {
      assert known[x] == v.bounds[x - at];
    }
    longer := Joined(known, w, at + j);
  }

  /** Over any sequence of windows that meet, none of which ends earlier, a chunk index queued under
      one state stays valid under every other one: the number keeps its times, and the next number
      starts where it ends. */
  lemma QueuedNumbersStayValid(states: seq<State>)
    requires IsRun(states) && NeverEndsEarlier(states)
    ensures AllAgree(states)
  {
    var timeline := ChainHasTimeline(states, |states|);
    var places := seq(|states|, k requires 0 <= k < |states| =>
                                  if PlaceOf(states, k) >= 0 then PlaceOf(states, k) else 0);
    forall k | 0 <= k < |states|
      ensures PlacedAt(timeline, states, places, k)
    {
      if k > 0 {
        PlacesAdvance(states, k);
      }
    }
    TimelineMeansAgree(states, timeline, places);
  }

  // ----- A window that ends earlier -------------------------------------------------

  /** `w` is the beginning of `v`, and `x` continues after `w` in a different way than `v` does. */
  ghost predicate Diverges(v: Window, w: Window, x: Window) {
    && ValidWindow(v) && ValidWindow(w) && ValidWindow(x)
    && |w.bounds| < |v.bounds| && (forall i :: 0 <= i < |w.bounds| ==> w.bounds[i] == v.bounds[i])
    && w.firstNum == v.firstNum && x.firstNum == v.firstNum + w.Count()
    && w.bounds[w.Count()] == x.bounds[0] && x.bounds[1] != v.bounds[|w.bounds|]
  }

  /** What a window that ends earlier drops is forgotten: over three such windows the first and the
      last state do not agree. */
  lemma ShrinkingRenumbers(v: Window, w: Window, x: Window)
    requires Diverges(v, w, x)
    ensures IsRun([Listing(v), Listing(w), Listing(x)])
    ensures !AllAgree([Listing(v), Listing(w), Listing(x)])
  {
    DivergingSteps(v, w, x);
    DivergingDisagree(v, w, x);
    ThreeStates(Listing(v), Listing(w), Listing(x));
  }

  lemma DivergingSteps(v: Window, w: Window, x: Window)
    requires Diverges(v, w, x)
    ensures StepsTo(Listing(v), Listing(w)) && StepsTo(Listing(w), Listing(x))
  {
    assert Meets(v, w, 0) && Meets(w, x, w.Count());
    ListingSteps(v, w, 0);
    ListingSteps(w, x, w.Count());
  }

  lemma ThreeStates(a: State, b: State, c: State)
    requires StepsTo(a, b) && StepsTo(b, c) && !Agree(a, c)
    ensures IsRun([a, b, c]) && !AllAgree([a, b, c])
  {
    var states := [a, b, c];
    assert IsStep(states, 0) && IsStep(states, 1);
    assert !Agree(states[0], states[2]);
  }

  lemma DivergingDisagree(v: Window, w: Window, x: Window)
    requires Diverges(v, w, x)
    ensures !Agree(Listing(v), Listing(x))
  {
    ShownTimes(Listing(v), x.firstNum);
    ShownTimes(Listing(x), x.firstNum);
    assert !SameMeaning(Listing(v), Listing(x), x.firstNum);
  }

  lemma ListingSteps(v: Window, w: Window, j: nat)
    requires Meets(v, w, j) && w.firstNum == v.firstNum + j
    ensures StepsTo(Listing(v), Listing(w))
  {
    assert Meets(WindowOf(Listing(v)), WindowOf(Listing(w)), j);
    RefreshedListing(v, w, j);
  }

  /** Such windows: the segment from 10 to 20 is number 2, and then that from 10 to 15. */
  lemma WindowsCanDiverge()
    ensures Diverges(Window(1, [0, 10, 20]), Window(1, [0, 10]), Window(2, [10, 15, 20]))
  {
  }

  /** A window that continues the numbers of the one before needs no shift. */
  lemma RefreshedListing(v: Window, w: Window, j: nat)
    requires ValidWindow(v) && ValidWindow(w) && j <= v.Count()
    requires w.bounds[0] == v.bounds[j] && w.firstNum == v.firstNum + j
    ensures Refreshed(Listing(v), 0, Some(Explicit(w))) == (Listing(w), true)
  {
    if j < v.Count() {
      SegmentAtContains(v, w.bounds[0], j);
    }
  }
}
