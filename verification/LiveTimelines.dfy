/**
 Where the timelines of a live presentation come from: the windows that its manifests list for a
 representation. If each of them meets the one listed before and does not end earlier, they are
 windows of one timeline, and what a queued chunk remembers stays valid.
 */
module LiveTimelines {
  import opened Samples
  import opened SegmentIndexes
  import opened RepresentationHolders
  import opened WindowRuns
  import opened DashPeriods
  import opened PeriodTables
  import Live = LiveNumbers

  function PeriodIndex(periods: seq<ManifestPeriod>, startMs: int): (r: Option<nat>)
    ensures r.Some? ==> r.value < |periods| && periods[r.value].startMs == startMs
  {
    if periods == [] then None
    else if periods[0].startMs == startMs then Some(0)
    else
      var rest := PeriodIndex(periods[1..], startMs);
      if rest.Some? then Some(rest.value + 1) else None
  }

  /** The window that the manifest lists for a representation of a period. */
  function Listed(m: Manifest, startMs: int, id: string): Option<Window> {
    match PeriodIndex(m.periods, startMs)
    case None => None
    case Some(i) =>
      var r := RepIndex(NewReps(m.periods[i]), id);
      if r.Some? then Some(WindowOf(NewReps(m.periods[i])[r.value].holder)) else None
  }

  /** The manifest lists one window for every representation of every period. */
  ghost predicate WellListed(m: Manifest) {
    forall i, r :: 0 <= i < |m.periods| && 0 <= r < |NewReps(m.periods[i])| ==> ListsWell(m, i, r)
  }

  ghost predicate ListsWell(m: Manifest, i: nat, r: nat)
    requires i < |m.periods| && r < |NewReps(m.periods[i])|
  {
    var startMs, rep := m.periods[i].startMs, NewReps(m.periods[i])[r];
    && WindowRuns.Lists(rep.holder)
    && Listed(m, startMs, rep.id) == Some(WindowOf(rep.holder))
  }

  /** The window that the `k`-th event lists, if it is a manifest that has the representation. */
  function ListedBy(events: seq<Event>, startMs: int, id: string, k: nat): Option<Window>
    requires k < |events|
  {
    if events[k].Refresh? then Listed(events[k].manifest, startMs, id) else None
  }

  /** The window listed last before the `k`-th event. */
  function LastListed(events: seq<Event>, startMs: int, id: string, k: nat): Option<Window>
    requires k <= |events|
  {
    if k == 0 then None
    else if ListedBy(events, startMs, id, k - 1).Some? then ListedBy(events, startMs, id, k - 1)
    else LastListed(events, startMs, id, k - 1)
  }

  /** `w` can be listed after `v`: it meets `v` and does not end earlier. */
  ghost predicate Succeeds(v: Window, w: Window) {
    (exists j: nat :: Meets(v, w, j)) && v.bounds != [] && w.bounds != [] && EndOf(v) <= EndOf(w)
  }

  ghost predicate SucceedsAt(events: seq<Event>, startMs: int, id: string, k: nat)
    requires k < |events|
  {
    var last, next := LastListed(events, startMs, id, k), ListedBy(events, startMs, id, k);
    next.Some? ==> ValidWindow(next.value) && (last.Some? ==> Succeeds(last.value, next.value))
  }

  /** All manifests of the run are well listed, and each window succeeds the one listed before. */
  ghost predicate WindowsSucceed(events: seq<Event>) {
    && (forall k :: 0 <= k < |events| && events[k].Refresh? ==> WellListed(events[k].manifest))
    && forall startMs: int, id: string, k: nat :: k < |events| ==> SucceedsAt(events, startMs, id, k)
  }

  // ----- One timeline per representation --------------------------------------------

  /** After each of the first `k` events, the window listed last is at its place on the timeline;
      places do not move back; and the last of the windows is the end of the timeline. */
  ghost predicate Charted(events: seq<Event>, startMs: int, id: string, k: nat, timeline: seq<int>, places: seq<nat>) {
    && k <= |events| && |places| == k && Increasing(timeline)
    && (forall i :: 0 <= i < k ==> ShownAfter(events, startMs, id, timeline, places, i))
    && (forall i, j :: 0 <= i < j < k ==> places[i] <= places[j])
    && EndsWith(LastListed(events, startMs, id, k), timeline, if k == 0 then 0 else places[k - 1])
  }

  ghost predicate ShownAfter(events: seq<Event>, startMs: int, id: string, timeline: seq<int>, places: seq<nat>, i: nat)
    requires i < |places| <= |events|
  {
    var last := LastListed(events, startMs, id, i + 1);
    last.Some? ==> Shows(timeline, last.value, places[i])
  }

  ghost predicate EndsWith(last: Option<Window>, timeline: seq<int>, at: nat) {
    if last.Some? then Shows(timeline, last.value, at) && at + |last.value.bounds| == |timeline|
    else timeline == [] && at == 0
  }

  /** The timeline and the place after one more event. */
  lemma ChartNext(last: Option<Window>, next: Option<Window>, known: seq<int>, at: nat)
    returns (timeline: seq<int>, at': nat)
    requires Increasing(known) && EndsWith(last, known, at)
    requires next.Some? ==> ValidWindow(next.value) && (last.Some? ==> Succeeds(last.value, next.value))
    ensures Increasing(timeline) && known <= timeline && at <= at'
    ensures EndsWith(if next.Some? then next else last, timeline, at')
  {
    timeline, at' := known, at;
    if next.Some? {
      var w := next.value;
      if last.None? {
        timeline := w.bounds;
        assert timeline[0..|timeline|] == w.bounds;
      } else {
        var j: nat :| Meets(last.value, w, j);
        timeline := Extended(known, at, last.value, w, j);
        at' := at + j;
      }
    }
  }

  lemma {:induction false} ChartExists(events: seq<Event>, startMs: int, id: string, k: nat)
    returns (timeline: seq<int>, places: seq<nat>)
    requires WindowsSucceed(events) && k <= |events|
    ensures Charted(events, startMs, id, k, timeline, places)
    decreases k
  {
    if k == 0 {
      return [], [];
    }
    var known, before := ChartExists(events, startMs, id, k - 1);
    assert SucceedsAt(events, startMs, id, k - 1);
    var at := if k == 1 then 0 else before[k - 2];
    var at';
    timeline, at' := ChartNext(LastListed(events, startMs, id, k - 1), ListedBy(events, startMs, id, k - 1), known, at);
    places := before + [at'];
    ChartGrows(events, startMs, id, k, known, before, timeline, at');
  }

  lemma ChartGrows(events: seq<Event>, startMs: int, id: string, k: nat, known: seq<int>, before: seq<nat>,
                   timeline: seq<int>, at: nat)
    requires 0 < k <= |events| && Charted(events, startMs, id, k - 1, known, before)
    requires Increasing(timeline) && known <= timeline && (k > 1 ==> before[k - 2] <= at)
    requires EndsWith(LastListed(events, startMs, id, k), timeline, at)
    ensures Charted(events, startMs, id, k, timeline, before + [at])
  {
    var places := before + [at];
    forall i | 0 <= i < k
      ensures ShownAfter(events, startMs, id, timeline, places, i)
    {
      if i < k - 1 {
        assert ShownAfter(events, startMs, id, known, before, i);
        var last := LastListed(events, startMs, id, i + 1);
        if last.Some? {
          ShowsLonger(known, timeline, last.value, before[i]);
        }
      }
    }
  }

  ghost predicate IsChart(events: seq<Event>, startMs: int, id: string, c: (seq<int>, seq<nat>)) {
    Charted(events, startMs, id, |events|, c.0, c.1)
  }

  /** A timeline of the representation and the places of its windows. */
  ghost function Chart(events: seq<Event>, startMs: int, id: string): (c: (seq<int>, seq<nat>))
    ensures WindowsSucceed(events) ==> IsChart(events, startMs, id, c)
  {
    if WindowsSucceed(events) then
      SomeChart(events, startMs, id);
      var c :| IsChart(events, startMs, id, c);
      c
    else ([], [])
  }

  lemma SomeChart(events: seq<Event>, startMs: int, id: string)
    requires WindowsSucceed(events)
    ensures exists c :: IsChart(events, startMs, id, c)
  {
    var timeline, places := ChartExists(events, startMs, id, |events|);
    assert IsChart(events, startMs, id, (timeline, places));
  }

  // ----- All timelines --------------------------------------------------------------

  ghost function Timelines(events: seq<Event>): Live.Timelines {
    (startMs: int, id: string) => Chart(events, startMs, id).0
  }

  ghost function PlacesAfter(events: seq<Event>, k: nat): Live.Places {
    (startMs: int, id: string) =>
      var places := Chart(events, startMs, id).1;
      if k < |places| then places[k] else 0
  }

  ghost function Moves(events: seq<Event>): (moves: seq<Live.Places>)
    ensures |moves| == |events| && forall k :: 0 <= k < |moves| ==> moves[k] == PlacesAfter(events, k)
  {
    seq(|events|, k requires 0 <= k < |events| => PlacesAfter(events, k))
  }

  const NOWHERE: Live.Places := (startMs: int, id: string) => 0

  /** Places do not move back from one manifest to the next. */
  lemma {:induction false} LastPlacesAreBefore(events: seq<Event>, i: nat, k: nat)
    requires WindowsSucceed(events) && i <= k < |events|
    ensures Live.NotBefore(Live.LastPlaces(NOWHERE, events, Moves(events), i), PlacesAfter(events, k))
    decreases i
  {
    if i > 0 {
      if events[i - 1].Refresh? {
        forall startMs: int, id: string
          ensures PlacesAfter(events, i - 1)(startMs, id) <= PlacesAfter(events, k)(startMs, id)
        {
          assert IsChart(events, startMs, id, Chart(events, startMs, id));
        }
      } else {
        LastPlacesAreBefore(events, i - 1, k);
      }
    }
  }

  /** A manifest lists windows of the timelines at their places. */
  lemma ManifestIsListed(events: seq<Event>, k: nat, i: nat, r: nat)
    requires WindowsSucceed(events) && k < |events| && events[k].Refresh?
    requires i < |events[k].manifest.periods| && r < |NewReps(events[k].manifest.periods[i])|
    ensures var mp := events[k].manifest.periods[i];
            var rep := NewReps(mp)[r];
            Live.ListsRep(Timelines(events)(mp.startMs, rep.id), PlacesAfter(events, k)(mp.startMs, rep.id),
                          mp.startMs, rep.holder)
  {
    var m := events[k].manifest;
    var startMs, rep := m.periods[i].startMs, NewReps(m.periods[i])[r];
    assert WellListed(m) && ListsWell(m, i, r);
    var c := Chart(events, startMs, rep.id);
    assert IsChart(events, startMs, rep.id, c);
    assert ShownAfter(events, startMs, rep.id, c.0, c.1, k);
    assert LastListed(events, startMs, rep.id, k + 1) == Some(WindowOf(rep.holder));
  }

  lemma TimelinesMove(events: seq<Event>)
    requires WindowsSucceed(events)
    ensures Live.Moving(Timelines(events), NOWHERE, events, Moves(events))
  {
    forall k | 0 <= k < |events|
      ensures Live.MovesOn(Timelines(events), NOWHERE, events, Moves(events), k)
    {
      LastPlacesAreBefore(events, k, k);
      if events[k].Refresh? {
        AllAreListed(events, k);
      }
    }
  }

  lemma AllAreListed(events: seq<Event>, k: nat)
    requires WindowsSucceed(events) && k < |events| && events[k].Refresh?
    ensures Live.AllListed(Timelines(events), PlacesAfter(events, k), events[k].manifest)
  {
    var m, all, places := events[k].manifest, Timelines(events), PlacesAfter(events, k);
    forall i | 0 <= i < |m.periods|
      ensures Live.Lists(all, places, m.periods[i])
    {
      var startMs, reps := m.periods[i].startMs, NewReps(m.periods[i]);
      forall r: nat | r < |reps|
        ensures Live.ListsRep(all(startMs, reps[r].id), places(startMs, reps[r].id), startMs, reps[r].holder)
      {
        ManifestIsListed(events, k, i, r);
      }
    }
  }

  /** Over every run of manifests that drop periods at the front and append at the back, and whose
      windows meet the ones listed before and do not end earlier: the key and the number that a
      queued chunk remembers name the same period, the same representation and the same interval
      of time in any two tables of the run that hold them and have not failed. */
  lemma QueuedChunksStayValid(starts: seq<int>, at: nat, tables: seq<Table>, events: seq<Event>,
                              i: nat, j: nat, p: Period, q: Period, r: nat, n: int)
    requires PeriodTables.IsRun(tables, events) && Forward(starts, at, events) && WindowsSucceed(events)
    requires tables[0].holders == [] && i <= j <= |events| && !tables[i].fatal && !tables[j].fatal
    requires p in tables[i].holders && q in tables[j].holders && p.key == q.key && r < |p.media.reps|
    ensures p.startMs == q.startMs && r < |q.media.reps| && p.media.reps[r].id == q.media.reps[r].id
    ensures var a, b := p.media.reps[r].holder, q.media.reps[r].holder;
            && a.index.Some? && a.index.value.Explicit? && b.index.Some? && b.index.value.Explicit?
            && (IsShown(a, n) && IsShown(b, n) ==>
                  SegmentStartTime(a, n) == SegmentStartTime(b, n) && SegmentEndTime(a, n) == SegmentEndTime(b, n))
  {
    TimelinesMove(events);
    Live.QueuedChunksKeepTheirTimes(Timelines(events), NOWHERE, starts, at, tables, events, Moves(events),
                                    i, j, p, q, r, n);
  }
}
