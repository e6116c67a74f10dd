/**
 The table of held periods. Periods get local keys from a counter; a manifest refresh drops
 old periods at the front, updates the first and the last, and appends new ones. The keys
 stay a contiguous range, a key never changes its meaning, and for manifests that only move
 forward the table lists exactly the manifest's periods.
 */
module PeriodTables {
  import opened Samples
  import opened RepresentationHolders
  import opened DashPeriods

  /** What a manifest lists: a representation with its index, if that is not in the stream, and a period
      with the representations of the selected track. */
  datatype ListedRep = ListedRep(id: string, hasInitialization: bool, index: Option<Index>)

  datatype ManifestPeriod = ManifestPeriod(startMs: int, durationUs: int, listed: seq<ListedRep>)

  /** A manifest lists at least one period. */
  type Periods = s: seq<ManifestPeriod> | s != [] witness [ManifestPeriod(0, 0, [])]

  datatype Manifest = Manifest(periods: Periods)

  datatype Table = Table(nextKey: int, holders: seq<Period>, fatal: bool)

  /** A manifest is taken over, discarded, or found to be ahead of what is held; or it lacks a
      representation that is looked up without a check. */
  datatype Outcome = Completed | Discarded | Failed | Crashed

  /** The representations of a period that is listed for the first time. */
  function NewReps(mp: ManifestPeriod): (r: seq<Representation>)
    ensures |r| == |mp.listed|
    ensures forall i :: 0 <= i < |r| ==> r[i] == NewRep(mp, i)
  {
    seq(|mp.listed|, i requires 0 <= i < |mp.listed| => NewRep(mp, i))
  }

  function NewRep(mp: ManifestPeriod, i: nat): Representation
    requires i < |mp.listed|
  {
    var l := mp.listed[i];
    Representation(l.id, l.hasInitialization, State(mp.startMs * 1000, mp.durationUs, 0, l.index, l.index))
  }

  /** The index that says when a period is available: that of the first representation. */
  function FirstIndex(mp: ManifestPeriod): Option<Index> {
    if mp.listed == [] then None else mp.listed[0].index
  }

  function NewMedia(mp: ManifestPeriod): Media {
    var (from, to) := Available(mp.startMs * 1000, mp.durationUs, FirstIndex(mp), 0);
    Media(NewReps(mp), from, to)
  }

  function NewPeriod(mp: ManifestPeriod, key: int): Period {
    Period(key, mp.startMs, NewMedia(mp))
  }

  /** How many of the periods from the `i`-th on, in a row, start before the given time, plus `i`. */
  function FirstFrom(holders: seq<Period>, startMs: int, i: nat): (r: nat)
    requires i <= |holders|
    ensures i <= r <= |holders|
    ensures forall j :: i <= j < r ==> holders[j].startMs < startMs
    ensures r < |holders| ==> holders[r].startMs >= startMs
    decreases |holders| - i
  {
    if i < |holders| && holders[i].startMs < startMs then FirstFrom(holders, startMs, i + 1) else i
  }

  function DropBefore(holders: seq<Period>, startMs: int): seq<Period> {
    holders[FirstFrom(holders, startMs, 0)..]
  }

  /** Periods of the manifest from `from` on, under keys from `key` on. */
  function NewHolders(periods: seq<ManifestPeriod>, from: nat, key: int): (r: seq<Period>)
    requires from <= |periods|
    ensures |r| == |periods| - from
    ensures forall i :: 0 <= i < |r| ==> r[i] == NewPeriod(periods[from + i], key + i)
    decreases |periods| - from
  {
    if from == |periods| then []
    else [NewPeriod(periods[from], key)] + NewHolders(periods, from + 1, key + 1)
  }

  /** Only the media may differ. */
  ghost predicate SamePlaces(a: seq<Period>, b: seq<Period>) {
    |a| == |b| && forall i :: 0 <= i < |a| ==> a[i].key == b[i].key && a[i].startMs == b[i].startMs
  }

  // ----- Updating held periods ------------------------------------------------------

  /** Whether an update went well, fell behind the live window, or looked up something missing. */
  datatype Update = Fine | Behind | Missing

  /** Refreshes the representation that has the id of the manifest's one. */
  function RefreshOne(reps: seq<Representation>, given: Representation): (r: (seq<Representation>, Update))
    ensures SameIds(r.0, reps)
  {
    match RepIndex(reps, given.id)
    case None => (reps, Missing)
    case Some(k) =>
      if !RefreshOk(reps[k].holder, given.holder.manifest) then (reps, Missing)
      else
        var (h, ok) := Refreshed(reps[k].holder, given.holder.periodUs, given.holder.manifest);
        (reps[k := Representation(reps[k].id, given.hasInitialization, h)], if ok then Fine else Behind)
  }

  ghost predicate SameIds(a: seq<Representation>, b: seq<Representation>) {
    |a| == |b| && forall r :: 0 <= r < |a| ==> a[r].id == b[r].id
  }

  /** Refreshes with the manifest's representations from the `i`-th on, as many as there are held. */
  function RefreshReps(reps: seq<Representation>, news: seq<Representation>, i: nat): (r: (seq<Representation>, Update))
    requires i <= |reps|
    ensures SameIds(r.0, reps)
    decreases |reps| - i
  {
    if i == |reps| then (reps, Fine)
    else if |news| <= i then (reps, Missing)
    else
      var (reps1, result) := RefreshOne(reps, news[i]);
      if result == Fine then RefreshReps(reps1, news, i + 1) else (reps1, result)
  }

  /** A held period updated from the manifest. It falls behind if the track is gone; a period that
      never had the track has no first representation to look at. */
  function UpdatePeriod(p: Period, mp: ManifestPeriod): (r: (Period, Update))
    ensures r.0.key == p.key && r.0.startMs == p.startMs
  {
    if mp.listed == [] then (p, Behind)
    else
      var (reps, result) := RefreshReps(p.media.reps, NewReps(mp), 0);
      if result != Fine then (p.(media := p.media.(reps := reps)), result)
      else if reps == [] then (p, Missing)
      else
        var (from, to) := Available(p.StartUs(), mp.durationUs, FirstIndex(mp), p.media.availableEndUs);
        (p.(media := Media(reps, from, to)), Fine)
  }

  /** The first and the last period brought up to date. */
  function Updated(kept: seq<Period>, m: Manifest): (r: (seq<Period>, Update))
    requires |kept| <= |m.periods|
    ensures SamePlaces(r.0, kept)
  {
    if kept == [] then (kept, Fine)
    else
      var (first, result) := UpdatePeriod(kept[0], m.periods[0]);
      var kept1 := kept[0 := first];
      if result != Fine || |kept| == 1 then (kept1, result)
      else
        var (last, result') := UpdatePeriod(kept1[|kept| - 1], m.periods[|kept| - 1]);
        (kept1[|kept| - 1 := last], result')
  }

  /** The periods that were kept are updated, and new ones are added. */
  function TakenOver(t: Table, m: Manifest): (Table, Outcome)
    requires |t.holders| <= |m.periods|
  {
    var (updated, result) := Updated(t.holders, m);
    if result != Fine then (t.(holders := updated, fatal := true), if result == Behind then Failed else Crashed)
    else
      var added := NewHolders(m.periods, |t.holders|, t.nextKey);
      (t.(holders := updated + added, nextKey := t.nextKey + |added|), Completed)
  }

  function ProcessManifest(t: Table, m: Manifest): (Table, Outcome) {
    var kept := t.(holders := DropBefore(t.holders, m.periods[0].startMs));
    if |kept.holders| > |m.periods| then (kept, Discarded) else TakenOver(kept, m)
  }

  function Disable(t: Table): Table {
    t.(holders := [], fatal := false)
  }

  // ----- Keys -----------------------------------------------------------------------

  /** The keys are a contiguous range that ends below the next key. */
  ghost predicate Contiguous(t: Table) {
    forall i :: 0 <= i < |t.holders| ==> t.holders[i].key == t.nextKey - |t.holders| + i
  }

  /** A held period after a manifest, as to its key and start: an old one that was not dropped, or a
      new one. */
  lemma ProcessedHolder(t: Table, m: Manifest, i: nat)
    requires i < |ProcessManifest(t, m).0.holders|
    ensures var (u, outcome) := ProcessManifest(t, m);
            var n := FirstFrom(t.holders, m.periods[0].startMs, 0);
            && (i + n < |t.holders| ==>
                  u.holders[i].key == t.holders[i + n].key && u.holders[i].startMs == t.holders[i + n].startMs)
            && (i + n >= |t.holders| ==>
                  && outcome == Completed && i < |m.periods|
                  && u.holders[i].key == t.nextKey + i + n - |t.holders|
                  && u.holders[i].startMs == m.periods[i].startMs)
  {
  }

  lemma ProcessedSize(t: Table, m: Manifest)
    ensures var (u, outcome) := ProcessManifest(t, m);
            var kept := |t.holders| - FirstFrom(t.holders, m.periods[0].startMs, 0);
            && (outcome == Completed ==>
                  |u.holders| == |m.periods| >= kept && u.nextKey == t.nextKey + |m.periods| - kept)
            && (outcome != Completed ==> |u.holders| == kept && u.nextKey == t.nextKey)
  {
  }

  lemma ProcessKeepsContiguous(t: Table, m: Manifest)
    requires Contiguous(t)
    ensures Contiguous(ProcessManifest(t, m).0)
  {
    ProcessedSize(t, m);
    var u := ProcessManifest(t, m).0;
    forall i | 0 <= i < |u.holders|
      ensures u.holders[i].key == u.nextKey - |u.holders| + i
    {
      ProcessedHolder(t, m, i);
    }
  }

  /** From `t` to `u` no key changed its meaning: keys are given out upwards, and what `u` holds under
      a key of `t`'s time, `t` held too, with the same start. */
  ghost predicate KeysKeepMeaning(t: Table, u: Table) {
    && t.nextKey <= u.nextKey
    && forall h :: h in u.holders && h.key < t.nextKey ==>
                     exists g :: g in t.holders && g.key == h.key && g.startMs == h.startMs
  }

  lemma ProcessKeepsMeaning(t: Table, m: Manifest)
    ensures KeysKeepMeaning(t, ProcessManifest(t, m).0)
  {
    ProcessedSize(t, m);
    var u := ProcessManifest(t, m).0;
    forall h | h in u.holders && h.key < t.nextKey
      ensures exists g :: g in t.holders && g.key == h.key && g.startMs == h.startMs
    {
      var i :| 0 <= i < |u.holders| && u.holders[i] == h;
      ProcessedHolder(t, m, i);
      assert t.holders[i + FirstFrom(t.holders, m.periods[0].startMs, 0)] in t.holders;
    }
  }

  lemma KeysKeepMeaningIsTransitive(t: Table, u: Table, v: Table)
    requires KeysKeepMeaning(t, u) && KeysKeepMeaning(u, v)
    ensures KeysKeepMeaning(t, v)
  {
    forall h | h in v.holders && h.key < t.nextKey
      ensures exists g :: g in t.holders && g.key == h.key && g.startMs == h.startMs
    {
      var g :| g in u.holders && g.key == h.key && g.startMs == h.startMs;
    }
  }

  // ----- Matching the manifest ------------------------------------------------------

  ghost predicate StartsIncrease(starts: seq<int>) {
    forall i, j :: 0 <= i < j < |starts| ==> starts[i] < starts[j]
  }

  /** The periods of the manifest are those of the presentation from number `at` on. */
  ghost predicate ShowsFrom(starts: seq<int>, periods: Periods, at: nat) {
    && at + |periods| <= |starts|
    && forall i :: 0 <= i < |periods| ==> periods[i].startMs == starts[at + i]
  }

  ghost predicate HoldsFrom(starts: seq<int>, holders: seq<Period>, at: nat) {
    && at + |holders| <= |starts|
    && forall i :: 0 <= i < |holders| ==> holders[i].startMs == starts[at + i]
  }

  ghost predicate Matches(holders: seq<Period>, periods: seq<ManifestPeriod>) {
    |holders| == |periods| && forall i :: 0 <= i < |holders| ==> holders[i].startMs == periods[i].startMs
  }

  lemma FirstFromAdvances(starts: seq<int>, holders: seq<Period>, at: nat, at': nat)
    requires StartsIncrease(starts) && HoldsFrom(starts, holders, at) && at' < |starts|
    ensures FirstFrom(holders, starts[at'], 0) ==
            (if at' <= at then 0 else if at' <= at + |holders| then at' - at else |holders|)
  {
    var n := FirstFrom(holders, starts[at'], 0);
    if n > 0 {
      assert holders[n - 1].startMs == starts[at + n - 1];
    }
  }

  /** The table after a refresh that completes lists exactly the periods of the manifest if and only
      if nothing old is left, or what is held begins no later than the manifest. */
  lemma ProcessMatchesIff(t: Table, m: Manifest, starts: seq<int>, at: nat, at': nat)
    requires StartsIncrease(starts) && HoldsFrom(starts, t.holders, at) && ShowsFrom(starts, m.periods, at')
    ensures var (u, outcome) := ProcessManifest(t, m);
            outcome == Completed ==> (Matches(u.holders, m.periods) <==> at <= at' || t.holders == [])
  {
    FirstFromAdvances(starts, t.holders, at, at');
    ProcessedSize(t, m);
    var (u, outcome) := ProcessManifest(t, m);
    if outcome == Completed {
      if at <= at' || t.holders == [] {
        forall i | 0 <= i < |u.holders|
          ensures u.holders[i].startMs == m.periods[i].startMs
        {
          ForwardHolder(t, m, starts, at, at', i);
        }
      } else {
        ProcessedHolder(t, m, 0);
        assert t.holders[0].startMs == starts[at];
        assert m.periods[0].startMs == starts[at'];
      }
    }
  }

  lemma ForwardHolder(t: Table, m: Manifest, starts: seq<int>, at: nat, at': nat, i: nat)
    requires StartsIncrease(starts) && HoldsFrom(starts, t.holders, at) && ShowsFrom(starts, m.periods, at')
    requires (at <= at' || t.holders == []) && i < |m.periods| && i < |ProcessManifest(t, m).0.holders|
    ensures ProcessManifest(t, m).0.holders[i].startMs == m.periods[i].startMs
  {
    FirstFromAdvances(starts, t.holders, at, at');
    ProcessedHolder(t, m, i);
    assert m.periods[i].startMs == starts[at' + i];
  }

  /** One period of 10 milliseconds that starts at `startMs`, in one segment. */
  function ShortPeriod(startMs: int): ManifestPeriod {
    ManifestPeriod(startMs, 10000, [ListedRep("a", false, Some(Derived(1, 10000)))])
  }

  /** A manifest that begins before the held period: it is taken over, and then two periods are held
      that start at 20. */
  lemma EarlierManifestIsMismatched()
    ensures var held := Period(0, 20, NewMedia(ShortPeriod(20)));
            var m := Manifest([ShortPeriod(10), ShortPeriod(20)]);
            var (u, outcome) := ProcessManifest(Table(1, [held], false), m);
            && outcome == Completed && |u.holders| == 2
            && u.holders[0].startMs == 20 && u.holders[1].startMs == 20 && !Matches(u.holders, m.periods)
  {
    var held, old1 := Period(0, 20, NewMedia(ShortPeriod(20))), ShortPeriod(10);
    var m := Manifest([old1, ShortPeriod(20)]);
    assert FirstFrom([held], 10, 0) == 0;
    var reps, news := held.media.reps, NewReps(old1);
    var h := Refreshed(reps[0].holder, news[0].holder.periodUs, news[0].holder.manifest).0;
    assert RefreshReps([Representation("a", false, h)], news, 1).1 == Fine;
    assert reps[0 := Representation("a", false, h)] == [Representation("a", false, h)];
    assert RefreshReps(reps, news, 0).1 == Fine;
    assert UpdatePeriod(held, old1).1 == Fine;
    ProcessedSize(Table(1, [held], false), m);
    ProcessedHolder(Table(1, [held], false), m, 0);
    ProcessedHolder(Table(1, [held], false), m, 1);
  }

  // ----- When a manifest is taken over ----------------------------------------------

  /** The new index begins after the old one has ended. */
  predicate HasGap(h: State, newIndex: Option<Index>) {
    && h.manifest.Some? && h.manifest.value.Explicit? && h.manifest.value.window.Count() >= 1 && newIndex.Some?
    && var v := h.manifest.value.window;
       v.bounds[v.Count()] < TimeUs(newIndex.value, FirstNum(newIndex.value))
  }

  lemma RefreshSucceedsIff(h: State, periodUs: int, newIndex: Option<Index>)
    requires RefreshOk(h, newIndex)
    ensures Refreshed(h, periodUs, newIndex).1 <==> !HasGap(h, newIndex)
  {
  }

  ghost predicate DistinctIds(reps: seq<Representation>) {
    forall i, j :: 0 <= i < j < |reps| ==> reps[i].id != reps[j].id
  }

  /** The representation is held, and its index continues without a gap. */
  predicate Continues(reps: seq<Representation>, given: Representation) {
    var k := RepIndex(reps, given.id);
    && k.Some? && RefreshOk(reps[k.value].holder, given.holder.manifest)
    && !HasGap(reps[k.value].holder, given.holder.manifest)
  }

  lemma RefreshOneFineIff(reps: seq<Representation>, given: Representation)
    ensures RefreshOne(reps, given).1 == Fine <==> Continues(reps, given)
  {
    var k := RepIndex(reps, given.id);
    if k.Some? && RefreshOk(reps[k.value].holder, given.holder.manifest) {
      RefreshSucceedsIff(reps[k.value].holder, given.holder.periodUs, given.holder.manifest);
    }
  }

  /** Refreshing one representation does not matter to another one. */
  lemma ContinuesAfter(reps: seq<Representation>, given: Representation, other: Representation)
    requires given.id != other.id
    ensures Continues(RefreshOne(reps, given).0, other) <==> Continues(reps, other)
  {
    SameIdsSameIndex(RefreshOne(reps, given).0, reps, other.id);
  }

  lemma {:induction false} SameIdsSameIndex(a: seq<Representation>, b: seq<Representation>, id: string)
    requires SameIds(a, b)
    ensures RepIndex(a, id) == RepIndex(b, id)
  {
    if a != [] && a[0].id != id {
      SameIdsSameIndex(a[1..], b[1..], id);
    }
  }

  /** The held representations are no more than the given ones, and those from the `i`-th on continue. */
  ghost predicate ContinueFrom(reps: seq<Representation>, news: seq<Representation>, i: nat) {
    |reps| <= |news| && forall j :: i <= j < |reps| ==> Continues(reps, news[j])
  }

  lemma ContinueOneByOne(reps: seq<Representation>, news: seq<Representation>, i: nat)
    requires DistinctIds(news) && i < |reps| && i < |news|
    ensures ContinueFrom(reps, news, i) <==>
              Continues(reps, news[i]) && ContinueFrom(RefreshOne(reps, news[i]).0, news, i + 1)
  {
    var reps1 := RefreshOne(reps, news[i]).0;
    forall j | i < j < |news|
      ensures Continues(reps1, news[j]) <==> Continues(reps, news[j])
    {
      ContinuesAfter(reps, news[i], news[j]);
    }
  }

  lemma {:induction false} RefreshRepsFineIff(reps: seq<Representation>, news: seq<Representation>, i: nat)
    requires DistinctIds(news) && i <= |reps| && i <= |news|
    ensures RefreshReps(reps, news, i).1 == Fine <==> ContinueFrom(reps, news, i)
    decreases |reps| - i
  {
    if i < |reps| && i < |news| {
      RefreshOneFineIff(reps, news[i]);
      ContinueOneByOne(reps, news, i);
      RefreshRepsFineIff(RefreshOne(reps, news[i]).0, news, i + 1);
    }
  }

  /** The period had the track and still has it, with the same representations or more, none of
      which left a gap. */
  ghost predicate Updatable(p: Period, mp: ManifestPeriod) {
    p.media.reps != [] && ContinueFrom(p.media.reps, NewReps(mp), 0)
  }

  lemma UpdateIsFineIff(p: Period, mp: ManifestPeriod)
    requires DistinctIds(NewReps(mp))
    ensures UpdatePeriod(p, mp).1 == Fine <==> Updatable(p, mp)
  {
    RefreshRepsFineIff(p.media.reps, NewReps(mp), 0);
  }

  /** A manifest is taken over if and only if it has no fewer periods than are kept, and the first and
      the last of those can be updated. */
  lemma CompletesIff(t: Table, m: Manifest)
    requires forall i :: 0 <= i < |m.periods| ==> DistinctIds(NewReps(m.periods[i]))
    ensures var kept := DropBefore(t.holders, m.periods[0].startMs);
            ProcessManifest(t, m).1 == Completed <==>
              && |kept| <= |m.periods|
              && (kept != [] ==> Updatable(kept[0], m.periods[0]) && Updatable(kept[|kept| - 1], m.periods[|kept| - 1]))
  {
    var kept := DropBefore(t.holders, m.periods[0].startMs);
    if 0 < |kept| <= |m.periods| {
      UpdateIsFineIff(kept[0], m.periods[0]);
      UpdateIsFineIff(kept[|kept| - 1], m.periods[|kept| - 1]);
    }
  }

  /** A held period without the track: the manifest that it came from is not taken over again, and one
      that has the track by now looks up a representation that is not there. */
  lemma TracklessPeriodCannotBeRefreshed()
    ensures var t := Table(1, [Period(0, 10, Media([], 10000, 20000))], false);
            && ProcessManifest(t, Manifest([ManifestPeriod(10, 10000, [])])).1 == Failed
            && ProcessManifest(t, Manifest([ShortPeriod(10)])).1 == Crashed
  {
    var p := Period(0, 10, Media([], 10000, 20000));
    assert FirstFrom([p], 10, 0) == 0;
    assert UpdatePeriod(p, ManifestPeriod(10, 10000, [])).1 == Behind;
    assert UpdatePeriod(p, ShortPeriod(10)).1 == Missing;
  }

  // ----- Runs -----------------------------------------------------------------------

  datatype Event =
    | Refresh(manifest: Manifest, at: nat)
    | Disabled

  function Step(t: Table, e: Event): Table
  {
    match e
    case Refresh(m, _) => if t.fatal then t else ProcessManifest(t, m).0
    case Disabled => Disable(t)
  }

  /** A run: the tables it passes through and the events between them. */
  ghost predicate IsRun(tables: seq<Table>, events: seq<Event>) {
    |tables| == |events| + 1 && forall k :: 0 <= k < |events| ==> IsStep(tables, events, k)
  }

  ghost predicate IsStep(tables: seq<Table>, events: seq<Event>, k: nat)
    requires k < |events| < |tables|
  {
    tables[k + 1] == Step(tables[k], events[k])
  }

  /** A refresh failed since the last time everything was forgotten. */
  ghost predicate HasFailed(tables: seq<Table>, events: seq<Event>, k: nat)
    requires k <= |events| < |tables|
  {
    k > 0 &&
    match events[k - 1]
    case Disabled => false
    case Refresh(m, _) =>
      || HasFailed(tables, events, k - 1)
      || ProcessManifest(tables[k - 1], m).1 == Failed || ProcessManifest(tables[k - 1], m).1 == Crashed
  }

  lemma StepFails(t: Table, e: Event)
    ensures Step(t, e).fatal <==>
              && e.Refresh?
              && (t.fatal || ProcessManifest(t, e.manifest).1 == Failed || ProcessManifest(t, e.manifest).1 == Crashed)
    ensures e.Disabled? ==> Step(t, e).holders == []
    ensures e.Refresh? && t.fatal ==> Step(t, e) == t
  {
  }

  /** In every run the error is set exactly if a refresh has failed and nothing was forgotten since; while it
      is set refreshes change nothing. */
  lemma {:induction false} FailuresLast(tables: seq<Table>, events: seq<Event>, k: nat)
    requires IsRun(tables, events) && !tables[0].fatal && k <= |events|
    ensures tables[k].fatal <==> HasFailed(tables, events, k)
    ensures k < |events| && tables[k].fatal && events[k].Refresh? ==> tables[k + 1] == tables[k]
  {
    if k < |events| {
      assert IsStep(tables, events, k);
      StepFails(tables[k], events[k]);
    }
    if k > 0 {
      FailuresLast(tables, events, k - 1);
      assert IsStep(tables, events, k - 1);
      StepFails(tables[k - 1], events[k - 1]);
    }
  }

  /** Where the last manifest before the `k`-th event began. */
  ghost function LastAt(at: nat, events: seq<Event>, k: nat): nat
    requires k <= |events|
  {
    if k == 0 then at else if events[k - 1].Refresh? then events[k - 1].at else LastAt(at, events, k - 1)
  }

  /** Manifests of one presentation that only move forward. */
  ghost predicate Forward(starts: seq<int>, at: nat, events: seq<Event>) {
    StartsIncrease(starts) && forall k :: 0 <= k < |events| ==> MovesForward(starts, at, events, k)
  }

  ghost predicate MovesForward(starts: seq<int>, at: nat, events: seq<Event>, k: nat)
    requires k < |events|
  {
    events[k].Refresh? ==>
      LastAt(at, events, k) <= events[k].at && ShowsFrom(starts, events[k].manifest.periods, events[k].at)
  }

  /** What every reachable table satisfies, when the last manifest began at period `at`. */
  ghost predicate Inv(starts: seq<int>, t: Table, at: nat) {
    && Contiguous(t)
    && (t.holders == [] || exists a :: Began(starts, t, at, a))
  }

  ghost predicate Began(starts: seq<int>, t: Table, at: nat, a: nat) {
    a <= at && HoldsFrom(starts, t.holders, a)
  }

  lemma StepKeepsInv(starts: seq<int>, t: Table, at: nat, e: Event)
    requires StartsIncrease(starts) && Inv(starts, t, at)
    requires e.Refresh? ==> at <= e.at && ShowsFrom(starts, e.manifest.periods, e.at)
    ensures Inv(starts, Step(t, e), if e.Refresh? then e.at else at)
    ensures e.Refresh? && !t.fatal && ProcessManifest(t, e.manifest).1 == Completed ==>
              Matches(Step(t, e).holders, e.manifest.periods)
  {
    if e.Refresh? {
      var a: nat :| t.holders == [] || Began(starts, t, at, a);
      if t.fatal {
        assert t.holders == [] || Began(starts, t, e.at, a);
      } else {
        RefreshKeepsInv(starts, t, if t.holders == [] then e.at else a, e);
      }
    }
  }

  lemma RefreshKeepsInv(starts: seq<int>, t: Table, a: nat, e: Event)
    requires StartsIncrease(starts) && Contiguous(t) && !t.fatal
    requires e.Refresh? && a <= e.at && HoldsFrom(starts, t.holders, a) && ShowsFrom(starts, e.manifest.periods, e.at)
    ensures Inv(starts, Step(t, e), e.at)
    ensures ProcessManifest(t, e.manifest).1 == Completed ==> Matches(Step(t, e).holders, e.manifest.periods)
  {
    var m := e.manifest;
    ProcessKeepsContiguous(t, m);
    ProcessMatchesIff(t, m, starts, a, e.at);
    var u := Step(t, e);
    if ProcessManifest(t, m).1 == Completed {
      assert Began(starts, u, e.at, e.at);
    } else {
      UnfinishedHoldsFrom(t, m, starts, a, e.at);
    }
  }

  /** A manifest that is not taken over drops old periods only. */
  lemma UnfinishedHoldsFrom(t: Table, m: Manifest, starts: seq<int>, a: nat, at: nat)
    requires StartsIncrease(starts) && a <= at && HoldsFrom(starts, t.holders, a) && ShowsFrom(starts, m.periods, at)
    requires ProcessManifest(t, m).1 != Completed
    ensures var u := ProcessManifest(t, m).0;
            u.holders != [] ==> Began(starts, u, at, a + |t.holders| - |u.holders|)
  {
    FirstFromAdvances(starts, t.holders, a, at);
    UnfinishedIsRear(t, m);
    RearHoldsFrom(starts, t.holders, ProcessManifest(t, m).0.holders, a);
  }

  lemma UnfinishedIsRear(t: Table, m: Manifest)
    requires ProcessManifest(t, m).1 != Completed
    ensures IsRear(t.holders, ProcessManifest(t, m).0.holders)
    ensures |t.holders| - |ProcessManifest(t, m).0.holders| == FirstFrom(t.holders, m.periods[0].startMs, 0)
  {
    UnfinishedKeepsPlaces(t, m);
    KeptIsRear(t.holders, FirstFrom(t.holders, m.periods[0].startMs, 0), ProcessManifest(t, m).0.holders);
  }

  lemma UnfinishedKeepsPlaces(t: Table, m: Manifest)
    requires ProcessManifest(t, m).1 != Completed
    ensures SamePlaces(ProcessManifest(t, m).0.holders, DropBefore(t.holders, m.periods[0].startMs))
  {
  }

  lemma KeptIsRear(holders: seq<Period>, n: nat, rear: seq<Period>)
    requires n <= |holders| && SamePlaces(rear, holders[n..])
    ensures IsRear(holders, rear) && |holders| - |rear| == n
  {
  }

  /** The periods at the end, as to their starts. */
  ghost predicate IsRear(holders: seq<Period>, rear: seq<Period>) {
    && |rear| <= |holders|
    && forall i :: 0 <= i < |rear| ==> rear[i].startMs == holders[|holders| - |rear| + i].startMs
  }

  lemma RearHoldsFrom(starts: seq<int>, holders: seq<Period>, rear: seq<Period>, a: nat)
    requires HoldsFrom(starts, holders, a) && IsRear(holders, rear)
    ensures HoldsFrom(starts, rear, a + |holders| - |rear|)
  {
  }

  lemma {:induction false} KeysStayContiguous(tables: seq<Table>, events: seq<Event>, k: nat)
    requires IsRun(tables, events) && Contiguous(tables[0]) && k <= |events|
    ensures Contiguous(tables[k])
  {
    if k > 0 {
      KeysStayContiguous(tables, events, k - 1);
      assert IsStep(tables, events, k - 1);
      StepKeepsKeys(tables[k - 1], events[k - 1]);
    }
  }

  /** In all tables a run passes through the keys are contiguous, and no key is ever reused for
      another period. */
  lemma {:induction false} KeysStayContiguousAndUnique(tables: seq<Table>, events: seq<Event>, i: nat, j: nat)
    requires IsRun(tables, events) && Contiguous(tables[0]) && i <= j <= |events|
    ensures Contiguous(tables[j]) && KeysKeepMeaning(tables[i], tables[j])
    decreases j
  {
    KeysStayContiguous(tables, events, j);
    if i < j {
      KeysStayContiguousAndUnique(tables, events, i, j - 1);
      assert IsStep(tables, events, j - 1);
      StepKeepsKeys(tables[j - 1], events[j - 1]);
      KeysKeepMeaningIsTransitive(tables[i], tables[j - 1], tables[j]);
    } else {
      KeysKeepMeaningIsReflexive(tables[i]);
    }
  }

  lemma KeysKeepMeaningIsReflexive(t: Table)
    ensures KeysKeepMeaning(t, t)
  {
  }

  lemma StepKeepsKeys(t: Table, e: Event)
    requires Contiguous(t)
    ensures Contiguous(Step(t, e)) && KeysKeepMeaning(t, Step(t, e))
  {
    if e.Refresh? {
      ProcessKeepsContiguous(t, e.manifest);
      ProcessKeepsMeaning(t, e.manifest);
    }
  }

  lemma {:induction false} RunKeepsInv(starts: seq<int>, at: nat, tables: seq<Table>, events: seq<Event>, k: nat)
    requires Forward(starts, at, events) && IsRun(tables, events) && Inv(starts, tables[0], at) && k <= |events|
    ensures Inv(starts, tables[k], LastAt(at, events, k))
  {
    if k > 0 {
      RunKeepsInv(starts, at, tables, events, k - 1);
      assert IsStep(tables, events, k - 1) && MovesForward(starts, at, events, k - 1);
      StepKeepsInv(starts, tables[k - 1], LastAt(at, events, k - 1), events[k - 1]);
    }
  }

  /** When manifests only move forward, the table after each completed refresh of a run is the list
      of periods of its manifest. */
  lemma TableFollowsManifests(starts: seq<int>, at: nat, tables: seq<Table>, events: seq<Event>, k: nat)
    requires Forward(starts, at, events) && IsRun(tables, events) && Inv(starts, tables[0], at) && k < |events|
    ensures CompletesAt(tables[k], events[k]) ==> Matches(tables[k + 1].holders, events[k].manifest.periods)
  {
    RunKeepsInv(starts, at, tables, events, k);
    assert IsStep(tables, events, k) && MovesForward(starts, at, events, k);
    StepKeepsInv(starts, tables[k], LastAt(at, events, k), events[k]);
  }

  ghost predicate CompletesAt(t: Table, e: Event) {
    e.Refresh? && !t.fatal && ProcessManifest(t, e.manifest).1 == Completed
  }
}
