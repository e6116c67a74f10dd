/**
 When held periods are available, over live runs: from the start of the first segment that the
 manifest lists to the end of the last one. So a position inside a segment that is still
 shown is found in the period of that segment.
 */
module LiveRanges {
  import opened Samples
  import opened SegmentIndexes
  import opened RepresentationHolders
  import opened DashPeriods
  import opened PeriodTables
  import Live = LiveNumbers
  import Runs

  /** The index covers that part of the period: a list from its first to its last bound, segments of
      equal duration all of it. */
  ghost predicate Spans(index: Index, periodUs: int, from: int, to: int) {
    match index
    case Explicit(w) => ValidWindow(w) && from == w.bounds[0] && to == w.bounds[|w.bounds| - 1]
    case Derived(_, _) => periodUs > 0 && from == 0 && to == periodUs
  }

  lemma AvailableIsSpan(startUs: int, periodUs: int, index: Index, endUs: int, from: int, to: int)
    requires Spans(index, periodUs, from, to)
    ensures Available(startUs, periodUs, Some(index), endUs) == (startUs + from, startUs + to)
  {
    if index.Derived? {
      CountsAreOrdered(0, periodUs, periodUs, index.durationUs);
    }
  }

  // ----- One refresh ----------------------------------------------------------------

  /** The period is available for that part of it. */
  predicate IsAvailable(p: Period, from: int, to: int) {
    p.media.availableStartUs == p.StartUs() + from && p.media.availableEndUs == p.StartUs() + to
  }

  /** The period is available for as long as the manifest's first representation lists; all of it if there
      is no index. */
  ghost predicate AvailableAsListed(p: Period, mp: ManifestPeriod) {
    match FirstIndex(mp)
    case None => IsAvailable(p, 0, mp.durationUs)
    case Some(index) => forall from, to :: Spans(index, mp.durationUs, from, to) ==> IsAvailable(p, from, to)
  }

  lemma UpdatedIsAvailable(p: Period, mp: ManifestPeriod)
    requires UpdatePeriod(p, mp).1 == Fine
    ensures AvailableAsListed(UpdatePeriod(p, mp).0, mp)
  {
    if FirstIndex(mp).Some? {
      forall from, to | Spans(FirstIndex(mp).value, mp.durationUs, from, to)
        ensures Available(p.StartUs(), mp.durationUs, FirstIndex(mp), p.media.availableEndUs) ==
                (p.StartUs() + from, p.StartUs() + to)
      {
        AvailableIsSpan(p.StartUs(), mp.durationUs, FirstIndex(mp).value, p.media.availableEndUs, from, to);
      }
    }
  }

  lemma NewIsAvailable(mp: ManifestPeriod, key: int)
    ensures AvailableAsListed(NewPeriod(mp, key), mp)
  {
    if FirstIndex(mp).Some? {
      forall from, to | Spans(FirstIndex(mp).value, mp.durationUs, from, to)
        ensures Available(mp.startMs * 1000, mp.durationUs, FirstIndex(mp), 0) ==
                (mp.startMs * 1000 + from, mp.startMs * 1000 + to)
      {
        AvailableIsSpan(mp.startMs * 1000, mp.durationUs, FirstIndex(mp).value, 0, from, to);
      }
    }
  }

  /** After a refresh that completes, the first and the last of the periods that were kept and all new
      ones are available for as long as the manifest lists. */
  lemma RefreshedAreAvailable(t: Table, m: Manifest, i: nat)
    requires ProcessManifest(t, m).1 == Completed && i < |m.periods|
    ensures var kept, u := |DropBefore(t.holders, m.periods[0].startMs)|, ProcessManifest(t, m).0;
            && |u.holders| == |m.periods|
            && (i == 0 || i >= kept - 1 ==> AvailableAsListed(u.holders[i], m.periods[i]))
  {
    ProcessedSize(t, m);
    var kept := DropBefore(t.holders, m.periods[0].startMs);
    var n := |t.holders| - |kept|;
    if i < |kept| && (i == 0 || i == |kept| - 1) {
      CompletedEnds(t, m, i);
      UpdatedIsAvailable(kept[i], m.periods[i]);
    } else if i >= |kept| {
      Live.NewContents(t, m, i);
      NewIsAvailable(m.periods[i], ProcessManifest(t, m).0.holders[i].key);
    }
  }

  lemma CompletedEnds(t: Table, m: Manifest, i: nat)
    requires ProcessManifest(t, m).1 == Completed
    requires var kept := |DropBefore(t.holders, m.periods[0].startMs)|;
             i < kept <= |m.periods| && (i == 0 || i == kept - 1) && i < |ProcessManifest(t, m).0.holders|
    ensures var kept := DropBefore(t.holders, m.periods[0].startMs);
            (ProcessManifest(t, m).0.holders[i], Fine) == UpdatePeriod(kept[i], m.periods[i])
  {
  }

  // ----- Held periods ---------------------------------------------------------------

  /** The holder looks segments up in an index that covers that part of the period. */
  ghost predicate CoversPart(h: State, startUs: int, from: int, to: int) {
    && h.periodStartUs == startUs && h.manifest.Some? && h.index == h.manifest
    && Spans(h.index.value, h.periodUs, from, to)
  }

  /** That part is inside the period, which ends where a later one of the presentation starts. */
  ghost predicate Inside(starts: seq<int>, startMs: int, from: int, to: int) {
    0 <= from && forall s :: s in starts && s > startMs ==> startMs * 1000 + to <= s * 1000
  }

  ghost predicate HeldAs(starts: seq<int>, p: Period, from: int, to: int) {
    && Inside(starts, p.startMs, from, to)
    && (forall r :: 0 <= r < |p.media.reps| ==> CoversPart(p.media.reps[r].holder, p.StartUs(), from, to))
    && IsAvailable(p, from, to)
  }

  /** The period, if it has the track, is available exactly where its representations have segments. */
  ghost predicate Ranged(starts: seq<int>, p: Period) {
    p.media.reps != [] ==> exists from, to :: HeldAs(starts, p, from, to)
  }

  /** The manifest lists all representations of the period for the same part of it. */
  ghost predicate ListedAs(starts: seq<int>, mp: ManifestPeriod, from: int, to: int) {
    && Inside(starts, mp.startMs, from, to)
    && forall r :: 0 <= r < |mp.listed| ==>
                     mp.listed[r].index.Some? && Spans(mp.listed[r].index.value, mp.durationUs, from, to)
  }

  ghost predicate ListedEvenly(starts: seq<int>, mp: ManifestPeriod) {
    DistinctIds(NewReps(mp)) && (mp.listed != [] ==> exists from, to :: ListedAs(starts, mp, from, to))
  }

  lemma NewIsRanged(starts: seq<int>, mp: ManifestPeriod, key: int)
    requires ListedEvenly(starts, mp)
    ensures Ranged(starts, NewPeriod(mp, key))
  {
    if mp.listed != [] {
      var from, to :| ListedAs(starts, mp, from, to);
      NewIsAvailable(mp, key);
      assert HeldAs(starts, NewPeriod(mp, key), from, to);
    }
  }

  // ----- An update reaches every representation -------------------------------------

  /** The representations at those positions are refreshed, with different ones of the first `i` that were
      given. */
  ghost predicate Reached(reps: seq<Representation>, news: seq<Representation>, i: nat, done: set<nat>, startUs: int,
                          from: int, to: int) {
    && i <= |news| && |done| == i
    && forall k :: k in done ==>
                     && k < |reps| && CoversPart(reps[k].holder, startUs, from, to)
                     && exists j :: 0 <= j < i && news[j].id == reps[k].id
  }

  ghost predicate AllGiven(news: seq<Representation>, from: int, to: int) {
    forall j :: 0 <= j < |news| ==>
                  && news[j].holder.manifest.Some?
                  && Spans(news[j].holder.manifest.value, news[j].holder.periodUs, from, to)
  }

  ghost predicate AllPlaced(reps: seq<Representation>, startUs: int) {
    forall k :: 0 <= k < |reps| ==> reps[k].holder.periodStartUs == startUs && reps[k].holder.manifest.Some?
  }

  lemma RefreshOneReaches(reps: seq<Representation>, news: seq<Representation>, i: nat, done: set<nat>, startUs: int,
                          from: int, to: int)
    requires Reached(reps, news, i, done, startUs, from, to) && i < |news| && AllGiven(news, from, to)
    requires DistinctIds(news) && AllPlaced(reps, startUs) && RefreshOne(reps, news[i]).1 == Fine
    ensures var reps1, k := RefreshOne(reps, news[i]).0, RepIndex(reps, news[i].id).value;
            AllPlaced(reps1, startUs) && Reached(reps1, news, i + 1, done + {k}, startUs, from, to)
  {
    var k := RepIndex(reps, news[i].id).value;
    assert k !in done;
    var reps1 := RefreshOne(reps, news[i]).0;
    forall x | x in done + {k}
      ensures x < |reps1| && CoversPart(reps1[x].holder, startUs, from, to)
      ensures exists j :: 0 <= j < i + 1 && news[j].id == reps1[x].id
    {
      if x == k {
        assert news[i].id == reps1[x].id;
      } else {
        assert reps1[x] == reps[x];
        var j :| 0 <= j < i && news[j].id == reps[x].id;
      }
    }
  }

  lemma {:induction false} RefreshReachesAll(reps: seq<Representation>, news: seq<Representation>, i: nat,
                                             done: set<nat>, startUs: int, from: int, to: int)
    requires Reached(reps, news, i, done, startUs, from, to) && i <= |reps| && AllGiven(news, from, to)
    requires DistinctIds(news) && AllPlaced(reps, startUs) && RefreshReps(reps, news, i).1 == Fine
    ensures var reps' := RefreshReps(reps, news, i).0;
            |reps'| == |reps| && forall k :: 0 <= k < |reps'| ==> CoversPart(reps'[k].holder, startUs, from, to)
    decreases |reps| - i
  {
    if i == |reps| {
      AllDone(|reps|, done);
    } else {
      Live.RefreshRepsStep(reps, news, i);
      RefreshOneReaches(reps, news, i, done, startUs, from, to);
      RefreshReachesAll(RefreshOne(reps, news[i]).0, news, i + 1, done + {RepIndex(reps, news[i].id).value}, startUs,
                        from, to);
    }
  }

  /** As many numbers below `n` as there are, are all of them. */
  lemma AllDone(n: nat, done: set<nat>)
    requires |done| == n && forall k :: k in done ==> k < n
    ensures forall k :: 0 <= k < n ==> k in done
  {
    forall k | 0 <= k < n
      ensures k in done
    {
      if k !in done {
        TooMany(n, done + {k});
      }
    }
  }

  lemma {:induction false} TooMany(n: nat, done: set<nat>)
    requires forall k :: k in done ==> k < n
    ensures |done| <= n
  {
    if n == 0 {
      assert done == {};
    } else {
      TooMany(n - 1, done - {n - 1});
    }
  }

  lemma UpdateIsRanged(starts: seq<int>, p: Period, mp: ManifestPeriod)
    requires Ranged(starts, p) && ListedEvenly(starts, mp) && p.startMs == mp.startMs && UpdatePeriod(p, mp).1 == Fine
    ensures Ranged(starts, UpdatePeriod(p, mp).0)
  {
    var from0, to0 :| HeldAs(starts, p, from0, to0);
    var from, to :| ListedAs(starts, mp, from, to);
    RefreshReachesAll(p.media.reps, NewReps(mp), 0, {}, p.StartUs(), from, to);
    UpdatedIsAvailable(p, mp);
    assert HeldAs(starts, UpdatePeriod(p, mp).0, from, to);
  }

  // ----- Runs -----------------------------------------------------------------------

  ghost predicate AllRanged(starts: seq<int>, t: Table) {
    forall i :: 0 <= i < |t.holders| ==> Ranged(starts, t.holders[i])
  }

  ghost predicate AllEven(starts: seq<int>, m: Manifest) {
    forall i :: 0 <= i < |m.periods| ==> ListedEvenly(starts, m.periods[i])
  }

  lemma ProcessIsRanged(starts: seq<int>, t: Table, m: Manifest, at: nat)
    requires AllRanged(starts, t) && AllEven(starts, m) && Live.InPlace(starts, t, m, at) && Live.Accepts(t, m)
    ensures AllRanged(starts, ProcessManifest(t, m).0)
  {
    var u, n := ProcessManifest(t, m).0, FirstFrom(t.holders, m.periods[0].startMs, 0);
    forall i | 0 <= i < |u.holders|
      ensures Ranged(starts, u.holders[i])
    {
      if n + i < |t.holders| {
        Live.KeptContents(t, m, i);
        if u.holders[i] != t.holders[n + i] {
          Live.KeptIsInPlace(starts, t, m, at, i);
          UpdateIsRanged(starts, t.holders[n + i], m.periods[i]);
        }
      } else {
        Live.NewContents(t, m, i);
        NewIsRanged(starts, m.periods[i], u.holders[i].key);
      }
    }
  }

  /** All manifests of the run list evenly. */
  ghost predicate Even(starts: seq<int>, events: seq<Event>) {
    forall k :: 0 <= k < |events| && events[k].Refresh? ==> AllEven(starts, events[k].manifest)
  }

  lemma StepIsRanged(starts: seq<int>, at: nat, tables: seq<Table>, events: seq<Event>, k: nat)
    requires Forward(starts, at, events) && PeriodTables.IsRun(tables, events) && Even(starts, events)
    requires PeriodTables.Inv(starts, tables[0], at) && k < |events|
    requires tables[k].fatal || AllRanged(starts, tables[k])
    ensures tables[k + 1].fatal || AllRanged(starts, tables[k + 1])
  {
    assert IsStep(tables, events, k) && MovesForward(starts, at, events, k);
    if events[k].Refresh? && !tables[k].fatal && !tables[k + 1].fatal {
      RunKeepsInv(starts, at, tables, events, k);
      TableIsInPlace(starts, tables[k], LastAt(at, events, k), events[k]);
      NotFatalIsAccepted(tables[k], events[k].manifest);
      ProcessIsRanged(starts, tables[k], events[k].manifest, events[k].at);
    }
  }

  lemma TableIsInPlace(starts: seq<int>, t: Table, at: nat, e: Event)
    requires PeriodTables.Inv(starts, t, at) && StartsIncrease(starts) && e.Refresh?
    requires at <= e.at && ShowsFrom(starts, e.manifest.periods, e.at)
    ensures Live.InPlace(starts, t, e.manifest, e.at)
  {
    if t.holders != [] {
      var a: nat :| Began(starts, t, at, a);
      assert a <= e.at && HoldsFrom(starts, t.holders, a);
    }
  }

  lemma NotFatalIsAccepted(t: Table, m: Manifest)
    requires !t.fatal && !ProcessManifest(t, m).0.fatal
    ensures Live.Accepts(t, m)
  {
  }

  lemma RunIsRanged(starts: seq<int>, at: nat, tables: seq<Table>, events: seq<Event>, k: nat)
    requires Forward(starts, at, events) && PeriodTables.IsRun(tables, events) && Even(starts, events)
    requires tables[0].holders == [] && k <= |events|
    ensures tables[k].fatal || AllRanged(starts, tables[k])
  {
    assert PeriodTables.Inv(starts, tables[0], at);
    forall j: nat | j < |events| && (tables[j].fatal || AllRanged(starts, tables[j]))
      ensures tables[j + 1].fatal || AllRanged(starts, tables[j + 1])
    {
      StepIsRanged(starts, at, tables, events, j);
    }
    Runs.HoldsAlong(|events|, (j: nat) => j < |tables| && (tables[j].fatal || AllRanged(starts, tables[j])), k);
  }

  // ----- Positions are found --------------------------------------------------------

  /** A position inside a segment is where its period is available. */
  lemma ShownIsAvailable(h: State, startUs: int, from: int, to: int, n: int, x: int)
    requires CoversPart(h, startUs, from, to) && IsShown(h, n)
    requires SegmentStartTime(h, n) <= x < SegmentEndTime(h, n)
    ensures startUs + from <= x < startUs + to
  {
    var index, m := h.index.value, n - h.shift;
    if index.Derived? {
      DerivedIsInside(index, h.periodUs, m);
    }
  }

  lemma DerivedIsInside(index: Index, periodUs: int, m: int)
    requires index.Derived? && periodUs > 0 && index.firstNum <= m <= LastNum(index, periodUs)
    ensures 0 <= TimeUs(index, m) && TimeUs(index, m) + DurationUs(index, m, periodUs) <= periodUs
  {
    var d := index.durationUs;
    var last := LastNum(index, periodUs);
    CountsAreOrdered(0, periodUs, periodUs, d);
    ProductsInOrder(-1, m - index.firstNum, d);
    if m < last {
      DerivedInOrder(index, m, last);
    }
  }

  /** Held periods follow each other without overlap. */
  lemma EarlierHaveEnded(starts: seq<int>, holders: seq<Period>, a: nat, i: nat, x: int)
    requires StartsIncrease(starts) && HoldsFrom(starts, holders, a) && i < |holders| && holders[i].StartUs() <= x
    requires forall j :: 0 <= j < |holders| ==> Ranged(starts, holders[j])
    ensures forall j :: 0 <= j < i ==> Ended(holders[j], x)
    ensures i > 0 && holders[0].media.reps != [] ==> holders[0].media.availableStartUs <= x
  {
    forall j | 0 <= j < i
      ensures Ended(holders[j], x)
      ensures holders[j].media.reps != [] ==> holders[j].media.availableStartUs <= x
    {
      if holders[j].media.reps != [] {
        var from, to :| HeldAs(starts, holders[j], from, to);
        assert starts[a + i] in starts && holders[i].startMs == starts[a + i] && holders[j].startMs == starts[a + j];
        SpanIsForward(holders[j].media.reps[0].holder, holders[j].StartUs(), from, to);
      }
    }
  }

  lemma SpanIsForward(h: State, startUs: int, from: int, to: int)
    requires CoversPart(h, startUs, from, to)
    ensures from < to
  {
  }

  lemma FirstNotEnded(periods: seq<Period>, x: int, from: nat, i: nat)
    requires from <= i < |periods| && !Ended(periods[i], x)
    requires forall j :: 0 <= j < i ==> Ended(periods[j], x)
    ensures FirstEndingAfter(periods, x, from) == Some(i)
  {
    var r := FirstEndingAfter(periods, x, from);
    assert r.Some?;
  }

  /** Over every run of manifests that move forward and list all representations of a period for the same
      part of it, inside the period: a position inside a segment of a table that has not failed is
      found in the period of that segment. */
  lemma ShownPositionsAreFound(starts: seq<int>, at: nat, tables: seq<Table>, events: seq<Event>, k: nat,
                               i: nat, r: nat, n: int, x: int)
    requires Forward(starts, at, events) && PeriodTables.IsRun(tables, events) && Even(starts, events)
    requires tables[0].holders == [] && k <= |events| && !tables[k].fatal
    requires i < |tables[k].holders| && r < |tables[k].holders[i].media.reps|
    requires var h := tables[k].holders[i].media.reps[r].holder;
             h.index.Some? && IsShown(h, n) && SegmentStartTime(h, n) <= x < SegmentEndTime(h, n)
    ensures FindPeriod(tables[k].holders, x) == Some(i)
  {
    assert PeriodTables.Inv(starts, tables[0], at);
    RunIsRanged(starts, at, tables, events, k);
    RunKeepsInv(starts, at, tables, events, k);
    var a: nat :| Began(starts, tables[k], LastAt(at, events, k), a);
    ShownIsFound(starts, tables[k].holders, a, i, r, n, x);
  }

  lemma ShownIsFound(starts: seq<int>, holders: seq<Period>, a: nat, i: nat, r: nat, n: int, x: int)
    requires StartsIncrease(starts) && HoldsFrom(starts, holders, a)
    requires forall j :: 0 <= j < |holders| ==> Ranged(starts, holders[j])
    requires i < |holders| && r < |holders[i].media.reps|
    requires var h := holders[i].media.reps[r].holder;
             h.index.Some? && IsShown(h, n) && SegmentStartTime(h, n) <= x < SegmentEndTime(h, n)
    ensures FindPeriod(holders, x) == Some(i)
  {
    var p := holders[i];
    var from, to :| HeldAs(starts, p, from, to);
    ShownIsAvailable(p.media.reps[r].holder, p.StartUs(), from, to, n, x);
    EarlierHaveEnded(starts, holders, a, i, x);
    FirstNotEnded(holders, x, 0, i);
  }

  // ----- Lookups after a refresh ----------------------------------------------------

  /** After a refresh, at every position that the new index covers the holder finds the segment that
      contains it, with the new index and the new duration of the period, whether the segments are
      listed or of equal duration; and segments of equal duration keep the shift of their numbers. */
  lemma RefreshedFindsSegments(h: State, periodUs: int, newIndex: Index, from: int, to: int, t: int)
    requires RefreshOk(h, Some(newIndex)) && h.manifest.Some? && Spans(newIndex, periodUs, from, to) && from <= t < to
    ensures var h' := Refreshed(h, periodUs, Some(newIndex)).0;
            && h'.index == Some(newIndex) && h'.periodStartUs == h.periodStartUs
            && (h.manifest.value.Derived? ==> h'.shift == h.shift && Refreshed(h, periodUs, Some(newIndex)).1)
            && (newIndex.Explicit? ==> newIndex.window.Count() >= 1)
            && var n := SegmentNum(h', h'.periodStartUs + t);
               && IsShown(h', n)
               && SegmentStartTime(h', n) <= h'.periodStartUs + t < SegmentEndTime(h', n)
  {
    match newIndex
    case Explicit(w) =>
      var k := BoundAt(w, t);
      SegmentAtContains(w, t, k);
    case Derived(_, d) =>
      DerivedNumAt(newIndex, t, periodUs, periodUs);
      if NumAt(newIndex, t, periodUs) < LastNum(newIndex, periodUs) {
        DerivedNext(newIndex, NumAt(newIndex, t, periodUs));
      }
  }

  lemma BoundAt(w: Window, t: int) returns (k: nat)
    requires ValidWindow(w) && w.bounds[0] <= t < w.bounds[|w.bounds| - 1]
    ensures k < w.Count() && w.bounds[k] <= t < w.bounds[k + 1]
  {
    k := 0;
    while w.bounds[k + 1] <= t
      invariant k < w.Count() && w.bounds[k] <= t
      decreases |w.bounds| - k
    {
      k := k + 1;
    }
  }
}
