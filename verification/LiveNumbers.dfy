/**
 What a queued chunk remembers: the key of its period and the number of its segment. Manifests
 drop and append periods and move the windows of the first and the last one; over any run of
 manifests that move forward, the key and the number name the same interval of time for as long
 as both are held.
 */
module LiveNumbers {
  import opened Samples
  import opened SegmentIndexes
  import opened RepresentationHolders
  import opened DashPeriods
  import opened PeriodTables

  /** The segments of the presentation: a timeline for each period, by its start, and each of its
      representations, by its id. */
  type Timelines = (int, string) -> seq<int>

  /** Where in those timelines the windows of a manifest begin. */
  type Places = (int, string) -> nat

  // ----- One representation ---------------------------------------------------------

  /** A manifest shows a window of the timeline. */
  ghost predicate ListsRep(timeline: seq<int>, at: nat, startMs: int, h: State) {
    && Increasing(timeline) && h.shift == 0 && h.periodStartUs == startMs * 1000
    && h.manifest == h.index && h.index.Some? && h.index.value.Explicit?
    && Shows(timeline, h.index.value.window, at)
  }

  /** A holder numbers the segments of the timeline, by some base; its window begins no later than
      `limit`. */
  ghost predicate NamesRep(timeline: seq<int>, limit: nat, startMs: int, h: State) {
    && Increasing(timeline) && h.periodStartUs == startMs * 1000
    && exists base: int, at: nat :: Numbered(h, timeline, base, at) && at <= limit
  }

  ghost predicate NumberedBoth(a: State, b: State, timeline: seq<int>, base: int, at: nat, at': nat) {
    Numbered(a, timeline, base, at) && Numbered(b, timeline, base, at')
  }

  /** Two holders number the segments of the timeline by the same base. */
  ghost predicate AlikeRep(timeline: seq<int>, a: State, b: State) {
    && Increasing(timeline) && a.periodStartUs == b.periodStartUs
    && exists base, at, at' :: NumberedBoth(a, b, timeline, base, at, at')
  }

  lemma ListedIsNamed(timeline: seq<int>, at: nat, startMs: int, h: State)
    requires ListsRep(timeline, at, startMs, h)
    ensures NamesRep(timeline, at, startMs, h)
  {
    assert Numbered(h, timeline, h.index.value.window.firstNum - at, at);
  }

  lemma NamedIsAlike(timeline: seq<int>, limit: nat, startMs: int, h: State)
    requires NamesRep(timeline, limit, startMs, h)
    ensures AlikeRep(timeline, h, h)
  {
    var base: int, at: nat :| Numbered(h, timeline, base, at) && at <= limit;
    assert NumberedBoth(h, h, timeline, base, at, at);
  }

  /** The window fixes its place in the timeline, and so the base. */
  lemma BaseIsUnique(h: State, timeline: seq<int>, b: int, at: nat, b': int, at': nat)
    requires Increasing(timeline) && Numbered(h, timeline, b, at) && Numbered(h, timeline, b', at')
    ensures b == b' && at == at'
  {
    var w := h.index.value.window;
    assert w.bounds[0] == timeline[at] && w.bounds[0] == timeline[at'];
  }

  lemma AlikeRepIsTransitive(timeline: seq<int>, a: State, b: State, c: State)
    requires AlikeRep(timeline, a, b) && AlikeRep(timeline, b, c)
    ensures AlikeRep(timeline, a, c)
  {
    var base, at, at' :| NumberedBoth(a, b, timeline, base, at, at');
    var base', at1, at2 :| NumberedBoth(b, c, timeline, base', at1, at2);
    BaseIsUnique(b, timeline, base, at', base', at1);
    assert NumberedBoth(a, c, timeline, base, at, at2);
  }

  /** A refresh that does not fall behind keeps the base. */
  lemma RefreshKeepsBase(timeline: seq<int>, limit: nat, at: nat, startMs: int, h: State, g: State)
    requires NamesRep(timeline, limit, startMs, h) && ListsRep(timeline, at, startMs, g) && limit <= at
    requires RefreshOk(h, g.manifest) && Refreshed(h, g.periodUs, g.manifest).1
    ensures var h' := Refreshed(h, g.periodUs, g.manifest).0;
            NamesRep(timeline, at, startMs, h') && AlikeRep(timeline, h, h')
  {
    var base: int, was: nat :| Numbered(h, timeline, base, was) && was <= limit;
    RefreshKeepsNumbersIff(h, timeline, base, was, g.periodUs, g.index.value.window, at);
    var h' := Refreshed(h, g.periodUs, g.manifest).0;
    assert NumberedBoth(h, h', timeline, base, was, at);
  }

  // ----- One period -----------------------------------------------------------------

  ghost predicate ListsReps(all: Timelines, places: Places, startMs: int, reps: seq<Representation>) {
    forall r: nat :: r < |reps| ==>
                       ListsRep(all(startMs, reps[r].id), places(startMs, reps[r].id), startMs, reps[r].holder)
  }

  ghost predicate Lists(all: Timelines, places: Places, mp: ManifestPeriod) {
    ListsReps(all, places, mp.startMs, NewReps(mp))
  }

  /** The holders of a period that starts at `startMs` number their timelines. */
  ghost predicate NamesReps(all: Timelines, places: Places, startMs: int, reps: seq<Representation>) {
    forall r: nat :: r < |reps| ==>
                       NamesRep(all(startMs, reps[r].id), places(startMs, reps[r].id), startMs, reps[r].holder)
  }

  ghost predicate Names(all: Timelines, places: Places, p: Period) {
    NamesReps(all, places, p.startMs, p.media.reps)
  }

  ghost predicate AlikeReps(all: Timelines, startMs: int, a: seq<Representation>, b: seq<Representation>) {
    && SameIds(a, b)
    && forall r: nat :: r < |a| ==> AlikeRep(all(startMs, a[r].id), a[r].holder, b[r].holder)
  }

  ghost predicate Alike(all: Timelines, p: Period, q: Period) {
    p.startMs == q.startMs && AlikeReps(all, p.startMs, p.media.reps, q.media.reps)
  }

  /** Windows do not move back. */
  ghost predicate NotBefore(places: Places, places': Places) {
    forall s: int, id: string :: places(s, id) <= places'(s, id)
  }

  lemma NamesLater(all: Timelines, places: Places, places': Places, p: Period)
    requires Names(all, places, p) && NotBefore(places, places')
    ensures Names(all, places', p)
  {
    var reps := p.media.reps;
    forall r: nat | r < |reps|
      ensures NamesRep(all(p.startMs, reps[r].id), places'(p.startMs, reps[r].id), p.startMs, reps[r].holder)
    {
      assert places(p.startMs, reps[r].id) <= places'(p.startMs, reps[r].id);
    }
  }

  lemma NamesIsAlike(all: Timelines, places: Places, startMs: int, reps: seq<Representation>)
    requires NamesReps(all, places, startMs, reps)
    ensures AlikeReps(all, startMs, reps, reps)
  {
    forall r: nat | r < |reps|
      ensures AlikeRep(all(startMs, reps[r].id), reps[r].holder, reps[r].holder)
    {
      NamedIsAlike(all(startMs, reps[r].id), places(startMs, reps[r].id), startMs, reps[r].holder);
    }
  }

  lemma AlikeRepsIsTransitive(all: Timelines, startMs: int, a: seq<Representation>, b: seq<Representation>,
                              c: seq<Representation>)
    requires AlikeReps(all, startMs, a, b) && AlikeReps(all, startMs, b, c)
    ensures AlikeReps(all, startMs, a, c)
  {
    forall r: nat | r < |a|
      ensures AlikeRep(all(startMs, a[r].id), a[r].holder, c[r].holder)
    {
      AlikeRepIsTransitive(all(startMs, a[r].id), a[r].holder, b[r].holder, c[r].holder);
    }
  }

  /** Refreshing one representation with a window of its timeline. */
  lemma RefreshOneKeeps(all: Timelines, places: Places, startMs: int, reps: seq<Representation>, given: Representation)
    requires NamesReps(all, places, startMs, reps) && RefreshOne(reps, given).1 == Fine
    requires ListsRep(all(startMs, given.id), places(startMs, given.id), startMs, given.holder)
    ensures NamesReps(all, places, startMs, RefreshOne(reps, given).0)
    ensures AlikeReps(all, startMs, reps, RefreshOne(reps, given).0)
  {
    var k, reps1 := RepIndex(reps, given.id).value, RefreshOne(reps, given).0;
    var timeline, at := all(startMs, given.id), places(startMs, given.id);
    RefreshKeepsBase(timeline, at, at, startMs, reps[k].holder, given.holder);
    NamesIsAlike(all, places, startMs, reps);
    forall r: nat | r < |reps|
      ensures NamesRep(all(startMs, reps1[r].id), places(startMs, reps1[r].id), startMs, reps1[r].holder)
      ensures AlikeRep(all(startMs, reps[r].id), reps[r].holder, reps1[r].holder)
    {
      assert r != k ==> reps1[r] == reps[r];
    }
  }

  lemma RefreshRepsStep(reps: seq<Representation>, news: seq<Representation>, i: nat)
    requires i < |reps| && RefreshReps(reps, news, i).1 == Fine
    ensures i < |news| && RefreshOne(reps, news[i]).1 == Fine
    ensures RefreshReps(reps, news, i) == RefreshReps(RefreshOne(reps, news[i]).0, news, i + 1)
  {
  }

  lemma {:induction false} RefreshRepsKeeps(all: Timelines, places: Places, startMs: int, reps: seq<Representation>,
                                            news: seq<Representation>, i: nat)
    requires NamesReps(all, places, startMs, reps) && ListsReps(all, places, startMs, news)
    requires i <= |reps| && RefreshReps(reps, news, i).1 == Fine
    ensures NamesReps(all, places, startMs, RefreshReps(reps, news, i).0)
    ensures AlikeReps(all, startMs, reps, RefreshReps(reps, news, i).0)
    decreases |reps| - i
  {
    if i == |reps| {
      NamesIsAlike(all, places, startMs, reps);
    } else {
      RefreshRepsStep(reps, news, i);
      RefreshOneKeeps(all, places, startMs, reps, news[i]);
      var reps1 := RefreshOne(reps, news[i]).0;
      RefreshRepsKeeps(all, places, startMs, reps1, news, i + 1);
      AlikeRepsIsTransitive(all, startMs, reps, reps1, RefreshReps(reps1, news, i + 1).0);
    }
  }

  lemma UpdateKeepsNames(all: Timelines, places: Places, places': Places, p: Period, mp: ManifestPeriod)
    requires Names(all, places, p) && Lists(all, places', mp) && p.startMs == mp.startMs && NotBefore(places, places')
    requires UpdatePeriod(p, mp).1 == Fine
    ensures Names(all, places', UpdatePeriod(p, mp).0) && Alike(all, p, UpdatePeriod(p, mp).0)
  {
    NamesLater(all, places, places', p);
    RefreshRepsKeeps(all, places', p.startMs, p.media.reps, NewReps(mp), 0);
  }

  lemma NewIsNamed(all: Timelines, places: Places, mp: ManifestPeriod, key: int)
    requires Lists(all, places, mp)
    ensures Names(all, places, NewPeriod(mp, key))
  {
    var reps := NewReps(mp);
    forall r: nat | r < |reps|
      ensures NamesRep(all(mp.startMs, reps[r].id), places(mp.startMs, reps[r].id), mp.startMs, reps[r].holder)
    {
      ListedIsNamed(all(mp.startMs, reps[r].id), places(mp.startMs, reps[r].id), mp.startMs, reps[r].holder);
    }
  }

  // ----- The table ------------------------------------------------------------------

  ghost predicate AllNamed(all: Timelines, places: Places, t: Table) {
    forall i :: 0 <= i < |t.holders| ==> Names(all, places, t.holders[i])
  }

  ghost predicate AllListed(all: Timelines, places: Places, m: Manifest) {
    forall k :: 0 <= k < |m.periods| ==> Lists(all, places, m.periods[k])
  }

  /** Periods that both tables hold are numbered alike. */
  ghost predicate NumbersKept(all: Timelines, t: Table, u: Table) {
    forall i, j :: 0 <= i < |t.holders| && 0 <= j < |u.holders| && t.holders[i].key == u.holders[j].key ==>
                     Alike(all, t.holders[i], u.holders[j])
  }

  /** The manifest was taken over or discarded. */
  ghost predicate Accepts(t: Table, m: Manifest) {
    ProcessManifest(t, m).1 == Completed || ProcessManifest(t, m).1 == Discarded
  }

  /** What a manifest that was accepted leaves: the periods kept, updated and followed by new ones if it was
      taken over. */
  lemma AcceptedHolders(t: Table, m: Manifest)
    requires Accepts(t, m)
    ensures var kept, u := DropBefore(t.holders, m.periods[0].startMs), ProcessManifest(t, m).0;
            || u.holders == kept
            || (&& |kept| <= |m.periods| && Updated(kept, m).1 == Fine
                && u.holders == Updated(kept, m).0 + NewHolders(m.periods, |kept|, t.nextKey))
  {
  }

  /** The period that becomes the `i`-th is left alone or updated. */
  lemma KeptContents(t: Table, m: Manifest, i: nat)
    requires Accepts(t, m) && i < |ProcessManifest(t, m).0.holders|
    requires FirstFrom(t.holders, m.periods[0].startMs, 0) + i < |t.holders|
    ensures var p := t.holders[FirstFrom(t.holders, m.periods[0].startMs, 0) + i];
            var q := ProcessManifest(t, m).0.holders[i];
            q == p || (i < |m.periods| && (q, Fine) == UpdatePeriod(p, m.periods[i]))
  {
    AcceptedHolders(t, m);
    var kept := DropBefore(t.holders, m.periods[0].startMs);
    if ProcessManifest(t, m).0.holders != kept {
      UpdatedContents(kept, m, i);
    }
  }

  lemma UpdatedContents(kept: seq<Period>, m: Manifest, i: nat)
    requires i < |kept| <= |m.periods| && Updated(kept, m).1 == Fine
    ensures var q := Updated(kept, m).0[i];
            q == kept[i] || (q, Fine) == UpdatePeriod(kept[i], m.periods[i])
  {
  }

  /** A new period is the manifest's. */
  lemma NewContents(t: Table, m: Manifest, i: nat)
    requires Accepts(t, m) && i < |ProcessManifest(t, m).0.holders|
    requires FirstFrom(t.holders, m.periods[0].startMs, 0) + i >= |t.holders|
    ensures var q := ProcessManifest(t, m).0.holders[i];
            i < |m.periods| && q == NewPeriod(m.periods[i], q.key)
  {
    AcceptedHolders(t, m);
    var kept := DropBefore(t.holders, m.periods[0].startMs);
    AddedContents(Updated(kept, m).0, m, |kept|, t.nextKey, i);
  }

  lemma AddedContents(updated: seq<Period>, m: Manifest, n: nat, key: int, i: nat)
    requires n == |updated| <= i < |m.periods|
    ensures (updated + NewHolders(m.periods, n, key))[i] ==
            NewPeriod(m.periods[i], key + i - n)
  {
  }

  /** The manifest shows the presentation from period `at`, the table holds it from an earlier one. */
  ghost predicate InPlace(starts: seq<int>, t: Table, m: Manifest, at: nat) {
    && StartsIncrease(starts) && ShowsFrom(starts, m.periods, at)
    && (t.holders == [] || exists a: nat :: a <= at && HoldsFrom(starts, t.holders, a))
  }

  /** The period that is kept as the `i`-th is the `i`-th of the manifest. */
  lemma KeptIsInPlace(starts: seq<int>, t: Table, m: Manifest, at: nat, i: nat)
    requires InPlace(starts, t, m, at) && i < |m.periods|
    requires FirstFrom(t.holders, m.periods[0].startMs, 0) + i < |t.holders|
    ensures t.holders[FirstFrom(t.holders, m.periods[0].startMs, 0) + i].startMs == m.periods[i].startMs
  {
    var a: nat :| a <= at && HoldsFrom(starts, t.holders, a);
    FirstFromAdvances(starts, t.holders, a, at);
    assert m.periods[i].startMs == starts[at + i];
  }

  lemma ProcessKeepsName(all: Timelines, places: Places, places': Places, starts: seq<int>, t: Table, m: Manifest,
                         at: nat, i: nat)
    requires AllNamed(all, places, t) && NotBefore(places, places') && InPlace(starts, t, m, at)
    requires AllListed(all, places', m)
    requires Accepts(t, m) && i < |ProcessManifest(t, m).0.holders|
    ensures var u := ProcessManifest(t, m).0;
            var n := FirstFrom(t.holders, m.periods[0].startMs, 0);
            && Names(all, places', u.holders[i])
            && (n + i < |t.holders| ==> Alike(all, t.holders[n + i], u.holders[i]))
  {
    if FirstFrom(t.holders, m.periods[0].startMs, 0) + i < |t.holders| {
      HeldKeepsName(all, places, places', starts, t, m, at, i);
    } else {
      NewContents(t, m, i);
      NewIsNamed(all, places', m.periods[i], ProcessManifest(t, m).0.holders[i].key);
    }
  }

  lemma HeldKeepsName(all: Timelines, places: Places, places': Places, starts: seq<int>, t: Table, m: Manifest,
                      at: nat, i: nat)
    requires AllNamed(all, places, t) && NotBefore(places, places') && InPlace(starts, t, m, at)
    requires AllListed(all, places', m)
    requires Accepts(t, m) && i < |ProcessManifest(t, m).0.holders|
    requires FirstFrom(t.holders, m.periods[0].startMs, 0) + i < |t.holders|
    ensures var p := t.holders[FirstFrom(t.holders, m.periods[0].startMs, 0) + i];
            var q := ProcessManifest(t, m).0.holders[i];
            Names(all, places', q) && Alike(all, p, q)
  {
    var p, q := t.holders[FirstFrom(t.holders, m.periods[0].startMs, 0) + i], ProcessManifest(t, m).0.holders[i];
    KeptContents(t, m, i);
    if q == p {
      KeptKeepsName(all, places, places', p, q, m.periods[0]);
    } else {
      KeptIsInPlace(starts, t, m, at, i);
      KeptKeepsName(all, places, places', p, q, m.periods[i]);
    }
  }

  /** A period that is left alone, or updated. */
  lemma KeptKeepsName(all: Timelines, places: Places, places': Places, p: Period, q: Period, mp: ManifestPeriod)
    requires Names(all, places, p) && NotBefore(places, places')
    requires q == p || (Lists(all, places', mp) && p.startMs == mp.startMs && (q, Fine) == UpdatePeriod(p, mp))
    ensures Names(all, places', q) && Alike(all, p, q)
  {
    if q == p {
      NamesLater(all, places, places', p);
      NamesIsAlike(all, places, p.startMs, p.media.reps);
    } else {
      UpdateKeepsNames(all, places, places', p, mp);
    }
  }

  lemma ProcessKeepsNames(all: Timelines, places: Places, places': Places, starts: seq<int>, t: Table, m: Manifest,
                          at: nat)
    requires AllNamed(all, places, t) && NotBefore(places, places') && InPlace(starts, t, m, at) && Contiguous(t)
    requires AllListed(all, places', m)
    requires !t.fatal && !ProcessManifest(t, m).0.fatal
    ensures AllNamed(all, places', ProcessManifest(t, m).0)
    ensures NumbersKept(all, t, ProcessManifest(t, m).0)
  {
    var u := ProcessManifest(t, m).0;
    var n := FirstFrom(t.holders, m.periods[0].startMs, 0);
    forall i | 0 <= i < |u.holders|
      ensures Names(all, places', u.holders[i])
    {
      ProcessKeepsName(all, places, places', starts, t, m, at, i);
    }
    forall i, j | 0 <= i < |t.holders| && 0 <= j < |u.holders| && t.holders[i].key == u.holders[j].key
      ensures Alike(all, t.holders[i], u.holders[j])
    {
      ProcessedHolder(t, m, j);
      assert i == n + j;
      ProcessKeepsName(all, places, places', starts, t, m, at, j);
    }
  }

  lemma NumbersKeptIsReflexive(all: Timelines, places: Places, t: Table)
    requires AllNamed(all, places, t) && Contiguous(t)
    ensures NumbersKept(all, t, t)
  {
    forall i, j | 0 <= i < |t.holders| && 0 <= j < |t.holders| && t.holders[i].key == t.holders[j].key
      ensures Alike(all, t.holders[i], t.holders[j])
    {
      assert i == j;
      NamesIsAlike(all, places, t.holders[i].startMs, t.holders[i].media.reps);
    }
  }

  /** A key given out before is held where it is held later. */
  lemma HeldBefore(u: Table, v: Table, k: nat) returns (j: nat)
    requires KeysKeepMeaning(u, v) && k < |v.holders| && v.holders[k].key < u.nextKey
    ensures j < |u.holders| && u.holders[j].key == v.holders[k].key
  {
    assert v.holders[k] in v.holders;
    var g :| g in u.holders && g.key == v.holders[k].key && g.startMs == v.holders[k].startMs;
    var i :| 0 <= i < |u.holders| && u.holders[i] == g;
    j := i;
  }

  /** A key that is held before and after is held in between. */
  lemma NumbersKeptIsTransitive(all: Timelines, t: Table, u: Table, v: Table)
    requires NumbersKept(all, t, u) && NumbersKept(all, u, v)
    requires Contiguous(t) && KeysKeepMeaning(t, u) && KeysKeepMeaning(u, v)
    ensures NumbersKept(all, t, v)
  {
    forall i, k | 0 <= i < |t.holders| && 0 <= k < |v.holders| && t.holders[i].key == v.holders[k].key
      ensures Alike(all, t.holders[i], v.holders[k])
    {
      var j := HeldBefore(u, v, k);
      AlikeRepsIsTransitive(all, t.holders[i].startMs, t.holders[i].media.reps, u.holders[j].media.reps,
                            v.holders[k].media.reps);
    }
  }

  // ----- Runs -----------------------------------------------------------------------

  /** Where the windows of the last manifest before the `k`-th event began. */
  ghost function LastPlaces(places: Places, events: seq<Event>, moves: seq<Places>, k: nat): Places
    requires k <= |events| == |moves|
  {
    if k == 0 then places else if events[k - 1].Refresh? then moves[k - 1] else LastPlaces(places, events, moves, k - 1)
  }

  /** Every manifest of the run lists windows of the presentation's timelines, none of which begins
      before that of an earlier manifest. */
  ghost predicate Moving(all: Timelines, places: Places, events: seq<Event>, moves: seq<Places>) {
    |moves| == |events| && forall k :: 0 <= k < |events| ==> MovesOn(all, places, events, moves, k)
  }

  ghost predicate MovesOn(all: Timelines, places: Places, events: seq<Event>, moves: seq<Places>, k: nat)
    requires k < |events| == |moves|
  {
    events[k].Refresh? ==>
      && NotBefore(LastPlaces(places, events, moves, k), moves[k])
      && AllListed(all, moves[k], events[k].manifest)
  }

  /** A table that has not failed numbers the presentation. */
  ghost predicate Sound(all: Timelines, places: Places, t: Table) {
    t.fatal || AllNamed(all, places, t)
  }

  lemma StepKeepsSound(all: Timelines, places: Places, places': Places, starts: seq<int>, t: Table, at: nat, e: Event)
    requires StartsIncrease(starts) && Inv(starts, t, at) && Sound(all, places, t)
    requires e.Refresh? ==> at <= e.at && ShowsFrom(starts, e.manifest.periods, e.at)
    requires e.Refresh? ==> NotBefore(places, places') && AllListed(all, places', e.manifest)
    ensures Sound(all, if e.Refresh? then places' else places, Step(t, e))
    ensures !Step(t, e).fatal ==> Step(t, e).holders == [] || (!t.fatal && NumbersKept(all, t, Step(t, e)))
  {
    if e.Refresh? && !t.fatal && !Step(t, e).fatal {
      if t.holders != [] {
        var a: nat :| Began(starts, t, at, a);
      }
      ProcessKeepsNames(all, places, places', starts, t, e.manifest, e.at);
    }
  }

  /** What is assumed of a run: it starts with a sound table, and its manifests move forward. */
  ghost predicate Goes(all: Timelines, places: Places, starts: seq<int>, at: nat,
                       tables: seq<Table>, events: seq<Event>, moves: seq<Places>) {
    && IsRun(tables, events) && Forward(starts, at, events) && Moving(all, places, events, moves)
    && Inv(starts, tables[0], at) && Sound(all, places, tables[0])
  }

  lemma {:induction false} RunKeepsSound(all: Timelines, places: Places, starts: seq<int>, at: nat,
                                         tables: seq<Table>, events: seq<Event>, moves: seq<Places>, k: nat)
    requires Goes(all, places, starts, at, tables, events, moves) && k <= |events|
    ensures Sound(all, LastPlaces(places, events, moves, k), tables[k])
  {
    if k > 0 {
      RunKeepsSound(all, places, starts, at, tables, events, moves, k - 1);
      RunStepKeepsSound(all, places, starts, at, tables, events, moves, k - 1);
    }
  }

  lemma RunStepKeepsSound(all: Timelines, places: Places, starts: seq<int>, at: nat,
                          tables: seq<Table>, events: seq<Event>, moves: seq<Places>, k: nat)
    requires Goes(all, places, starts, at, tables, events, moves) && k < |events|
    requires Sound(all, LastPlaces(places, events, moves, k), tables[k])
    ensures Sound(all, LastPlaces(places, events, moves, k + 1), tables[k + 1])
    ensures !tables[k + 1].fatal ==>
              tables[k + 1].holders == [] || (!tables[k].fatal && NumbersKept(all, tables[k], tables[k + 1]))
  {
    RunKeepsInv(starts, at, tables, events, k);
    assert IsStep(tables, events, k) && MovesForward(starts, at, events, k) && MovesOn(all, places, events, moves, k);
    StepKeepsSound(all, LastPlaces(places, events, moves, k), moves[k], starts, tables[k], LastAt(at, events, k),
                   events[k]);
  }

  /** From a table that works to any later one that does, every period held throughout keeps its
      numbers. */
  lemma {:induction false} RunKeepsNumbers(all: Timelines, places: Places, starts: seq<int>, at: nat,
                                           tables: seq<Table>, events: seq<Event>, moves: seq<Places>, i: nat, j: nat)
    requires Goes(all, places, starts, at, tables, events, moves) && i <= j <= |events|
    requires !tables[i].fatal && !tables[j].fatal
    ensures NumbersKept(all, tables[i], tables[j])
    decreases j
  {
    KeysStayContiguous(tables, events, i);
    if i == j {
      RunKeepsSound(all, places, starts, at, tables, events, moves, i);
      NumbersKeptIsReflexive(all, LastPlaces(places, events, moves, i), tables[i]);
    } else {
      RunKeepsSound(all, places, starts, at, tables, events, moves, j - 1);
      RunStepKeepsSound(all, places, starts, at, tables, events, moves, j - 1);
      if tables[j].holders != [] {
        RunKeepsNumbers(all, places, starts, at, tables, events, moves, i, j - 1);
        KeysStayContiguousAndUnique(tables, events, i, j - 1);
        KeysStayContiguousAndUnique(tables, events, j - 1, j);
        NumbersKeptIsTransitive(all, tables[i], tables[j - 1], tables[j]);
      }
    }
  }

  /** Over every run of manifests that move forward, from an empty table: in any two tables that have
      not failed, a period held under one key is the same period, and a number that both tables
      show for one of its representations has the same start and the same end. */
  lemma QueuedChunksKeepTheirTimes(all: Timelines, places: Places, starts: seq<int>, at: nat,
                                   tables: seq<Table>, events: seq<Event>, moves: seq<Places>,
                                   i: nat, j: nat, p: Period, q: Period, r: nat, n: int)
    requires IsRun(tables, events) && Forward(starts, at, events) && Moving(all, places, events, moves)
    requires tables[0].holders == [] && i <= j <= |events| && !tables[i].fatal && !tables[j].fatal
    requires p in tables[i].holders && q in tables[j].holders && p.key == q.key && r < |p.media.reps|
    ensures p.startMs == q.startMs && r < |q.media.reps| && p.media.reps[r].id == q.media.reps[r].id
    ensures var a, b := p.media.reps[r].holder, q.media.reps[r].holder;
            && a.index.Some? && a.index.value.Explicit? && b.index.Some? && b.index.value.Explicit?
            && (IsShown(a, n) && IsShown(b, n) ==>
                  SegmentStartTime(a, n) == SegmentStartTime(b, n) && SegmentEndTime(a, n) == SegmentEndTime(b, n))
  {
    RunKeepsNumbers(all, places, starts, at, tables, events, moves, i, j);
    var x :| 0 <= x < |tables[i].holders| && tables[i].holders[x] == p;
    var y :| 0 <= y < |tables[j].holders| && tables[j].holders[y] == q;
    assert Alike(all, p, q);
    AlikeHasSameTimes(all(p.startMs, p.media.reps[r].id), p.media.reps[r].holder, q.media.reps[r].holder, n);
  }

  lemma AlikeHasSameTimes(timeline: seq<int>, a: State, b: State, n: int)
    requires AlikeRep(timeline, a, b)
    ensures a.index.Some? && a.index.value.Explicit? && b.index.Some? && b.index.value.Explicit?
    ensures IsShown(a, n) && IsShown(b, n) ==>
              SegmentStartTime(a, n) == SegmentStartTime(b, n) && SegmentEndTime(a, n) == SegmentEndTime(b, n)
  {
    var base, at, at' :| NumberedBoth(a, b, timeline, base, at, at');
    NumberedAlikeMeansSame(a, b, timeline, base, at, at', n);
  }
}
