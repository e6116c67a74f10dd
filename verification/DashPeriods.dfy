/**
 The periods of a manifest as a chunk source holds them, and what only reads them: finding
 the period for a position, and snapping a seek to a segment start.
 */
module DashPeriods {
  import opened Samples
  import opened SegmentIndexes
  import opened RepresentationHolders

  /** A representation: whether an initialization has to be loaded before its segments, and what its
      holder knows of its segments. */
  datatype Representation = Representation(id: string, hasInitialization: bool, holder: State)

  /** What a period offers for the selected track: no representations if the track is missing. */
  datatype Media = Media(reps: seq<Representation>, availableStartUs: int, availableEndUs: int)

  /** A period as it is held: under a local key, with a start that never changes. */
  datatype Period = Period(key: int, startMs: int, media: Media) {
    function StartUs(): int {
      startMs * 1000
    }
  }

  /** When the media of a period is available: from its first segment to the end of its last one, and
      for the whole period if there is no index. An index without an end leaves the end as it was. */
  function Available(startUs: int, periodUs: int, index: Option<Index>, endUs: int): (int, int) {
    match index
    case None => (startUs, startUs + periodUs)
    case Some(i) =>
      var last := LastNum(i, periodUs);
      (startUs + TimeUs(i, FirstNum(i)),
       if last == UNBOUNDED then endUs else startUs + TimeUs(i, last) + DurationUs(i, last, periodUs))
  }

  /** The position of the first representation with the id. */
  function RepIndex(reps: seq<Representation>, id: string): (r: Option<nat>)
    ensures r.Some? ==> r.value < |reps| && reps[r.value].id == id
    ensures r.None? ==> forall i :: 0 <= i < |reps| ==> reps[i].id != id
  {
    if reps == [] then None
    else if reps[0].id == id then Some(0)
    else
      var rest := RepIndex(reps[1..], id);
      assert forall i :: 1 <= i < |reps| ==> reps[i] == reps[1..][i - 1];
      if rest.Some? then Some(rest.value + 1) else None
  }

  /** The first period with media that ends after the position, as an index; a position before the
      first period belongs to it. */
  function FindPeriod(periods: seq<Period>, positionUs: int): (r: Option<nat>)
    requires periods != []
    ensures r.Some? ==> r.value < |periods| && periods[r.value].media.reps != []
  {
    if positionUs < periods[0].media.availableStartUs && periods[0].media.reps != [] then Some(0)
    else FirstEndingAfter(periods, positionUs, 0)
  }

  /** The period has nothing to offer from the position on. */
  predicate Ended(p: Period, positionUs: int) {
    p.media.reps == [] || positionUs >= p.media.availableEndUs
  }

  function FirstEndingAfter(periods: seq<Period>, positionUs: int, i: nat): (r: Option<nat>)
    requires i <= |periods|
    ensures r.Some? ==>
              && i <= r.value < |periods|
              && periods[r.value].media.reps != [] && positionUs < periods[r.value].media.availableEndUs
              && forall j :: i <= j < r.value ==> Ended(periods[j], positionUs)
    ensures r.None? ==>
              forall j :: i <= j < |periods| ==> Ended(periods[j], positionUs)
    decreases |periods| - i
  {
    if i == |periods| then None
    else if positionUs < periods[i].media.availableEndUs && periods[i].media.reps != [] then Some(i)
    else FirstEndingAfter(periods, positionUs, i + 1)
  }

  /** The index of the first representation that has one. */
  function ArbitraryIndex(reps: seq<Representation>): Option<Index> {
    if reps == [] then None
    else if reps[0].holder.index.Some? then reps[0].holder.index
    else ArbitraryIndex(reps[1..])
  }

  /** The nearer of the two segment starts around `t`, in period time; the end of the media is given
      as the index's notion of the period's duration. */
  function Snap(index: Index, t: int, endUs: int): int
    requires IndexOk(index)
  {
    var n := NumAt(index, t, endUs);
    var start := TimeUs(index, n);
    if n == LastNum(index, endUs) then start
    else
      var next := TimeUs(index, n + 1);
      if t - start > next - t then next else start
  }

  predicate IndexOk(index: Index) {
    match index
    case Explicit(w) => w.Count() >= 1
    case Derived(_, _) => true
  }

  /** The position a seek is moved to; unchanged when no period, no start or no index applies. */
  function AdjustedSeek(periods: seq<Period>, targetUs: int): int
    requires periods != [] && forall i :: 0 <= i < |periods| ==> SeekOk(periods[i])
  {
    match FindPeriod(periods, targetUs)
    case None => targetUs
    case Some(i) => SeekInPeriod(periods[i], targetUs)
  }

  predicate SeekOk(p: Period) {
    var index := ArbitraryIndex(p.media.reps);
    index.Some? ==> IndexOk(index.value)
  }

  function SeekInPeriod(p: Period, targetUs: int): int
    requires SeekOk(p)
  {
    var index := ArbitraryIndex(p.media.reps);
    if targetUs < p.StartUs() || index.None? then targetUs
    else p.StartUs() + Snap(index.value, targetUs - p.StartUs(), p.media.availableEndUs)
  }

  function Distance(a: int, b: int): int {
    if a < b then b - a else a - b
  }

  /** `q` is nearer to `t` than `s`, or as near and not above it. */
  predicate AsNear(t: int, q: int, s: int) {
    Distance(t, q) < Distance(t, s) || (Distance(t, q) == Distance(t, s) && q <= s)
  }

  /** The segments the index has in a period of that duration. */
  predicate HasSegment(index: Index, periodUs: int, n: int)
    requires IndexOk(index)
  {
    FirstNum(index) <= n <= LastNum(index, periodUs)
  }

  /** A segment start at least as near as every other one, and below any equally near one. */
  ghost predicate IsNearestStart(index: Index, periodUs: int, t: int, q: int)
    requires IndexOk(index)
  {
    && (exists n :: HasSegment(index, periodUs, n) && TimeUs(index, n) == q)
    && forall n :: HasSegment(index, periodUs, n) ==> AsNear(t, q, TimeUs(index, n))
  }

  // ----- Listed segments ------------------------------------------------------------

  /** The segment found is the first one, or starts at or before the time; the next one starts
      after it. */
  lemma SegmentAround(w: Window, t: int)
    requires ValidWindow(w) && w.Has(SegmentAt(w, t))
    ensures var k := SegmentAt(w, t) - w.firstNum;
            && (k > 0 ==> w.bounds[k] <= t)
            && (k + 1 < w.Count() ==> t < w.bounds[k + 1])
  {
    StartedAround(w.bounds, w.Count(), t);
  }

  lemma {:induction false} StartedAround(bounds: seq<int>, n: nat, t: int)
    requires Increasing(bounds) && n <= |bounds|
    ensures var k := StartedBy(bounds, n, t);
            && (k > 0 ==> bounds[k - 1] <= t)
            && (k < n ==> t < bounds[k])
  {
    if n > 0 && bounds[n - 1] > t {
      StartedAround(bounds, n - 1, t);
    }
  }

  /** Listed segments start in the order of their numbers. */
  lemma ListedInOrder(w: Window, m: int, n: int)
    requires ValidWindow(w) && w.Has(m) && w.Has(n) && m < n
    ensures TimeUs(Explicit(w), m) < TimeUs(Explicit(w), n)
  {
  }

  lemma ListedSnapIsNearest(w: Window, t: int, periodUs: int, endUs: int)
    requires ValidWindow(w)
    ensures IsNearestStart(Explicit(w), periodUs, t, Snap(Explicit(w), t, endUs))
  {
    var index := Explicit(w);
    SegmentAtClamps(w, t);
    SegmentAround(w, t);
    var k := SegmentAt(w, t);
    var q := Snap(index, t, endUs);
    assert HasSegment(index, periodUs, if q == TimeUs(index, k) then k else k + 1);
    forall n | HasSegment(index, periodUs, n)
      ensures AsNear(t, q, TimeUs(index, n))
    {
      if n < k {
        ListedInOrder(w, n, k);
      } else if k + 1 < n {
        ListedInOrder(w, k + 1, n);
      }
    }
  }

  // ----- Segments of equal duration -------------------------------------------------

  lemma {:induction false} ProductIsNatural(k: nat, d: nat)
    ensures k * d >= 0
    decreases k
  {
    if k > 0 {
      ProductIsNatural(k - 1, d);
      assert k * d == (k - 1) * d + d;
    }
  }

  lemma ProductsInOrder(m: int, n: int, d: int)
    requires m < n && d > 0
    ensures m * d + d <= n * d
  {
    ProductIsNatural(n - m - 1, d);
    assert (n - m - 1) * d == n * d - m * d - d;
  }

  lemma QuotientAtLeast(x: int, a: int, d: int)
    requires d > 0 && x * d <= a
    ensures x <= a / d
  {
    var q := a / d;
    assert a == q * d + a % d;
    if q < x {
      ProductsInOrder(q, x, d);
    }
  }

  /** As many segments as it takes to fill the period: all but the last start inside it, and one
      more would not. */
  lemma CountIsCeiling(us: int, d: int)
    requires d > 0
    ensures var count := (us + d - 1) / d;
            count * d - d < us <= count * d
  {
  }

  /** The segment at a time inside a period, in an index whose end may lie beyond the period's. */
  lemma DerivedNumAt(index: Index, t: int, periodUs: int, endUs: int)
    requires index.Derived? && 0 <= t < periodUs <= endUs
    ensures var n := NumAt(index, t, endUs);
            && n == index.firstNum + t / index.durationUs
            && TimeUs(index, n) == t - t % index.durationUs
            && index.firstNum <= n <= LastNum(index, periodUs) <= LastNum(index, endUs)
  {
    CountsAreOrdered(t, periodUs, endUs, index.durationUs);
    StartOf(index, t / index.durationUs, t);
  }

  lemma CountsAreOrdered(t: int, p: int, e: int, d: int)
    requires d > 0 && 0 <= t < p <= e
    ensures 0 <= t / d < (p + d - 1) / d <= (e + d - 1) / d
  {
    QuotientAtLeast(t / d + 1, p + d - 1, d);
    QuotientAtLeast((p + d - 1) / d, e + d - 1, d);
  }

  lemma StartOf(index: Index, k: int, t: int)
    requires index.Derived? && k == t / index.durationUs
    ensures TimeUs(index, index.firstNum + k) == t - t % index.durationUs
  {
    assert index.firstNum + k - index.firstNum == k;
  }

  lemma DerivedNext(index: Index, n: int)
    requires index.Derived?
    ensures TimeUs(index, n + 1) == TimeUs(index, n) + index.durationUs
  {
  }

  lemma DerivedInOrder(index: Index, m: int, n: int)
    requires index.Derived? && m < n
    ensures TimeUs(index, m) + index.durationUs <= TimeUs(index, n)
  {
    ProductsInOrder(m - index.firstNum, n - index.firstNum, index.durationUs);
  }

  predicate InSecondHalf(index: Index, t: int)
    requires index.Derived?
  {
    2 * (t % index.durationUs) > index.durationUs
  }

  /** The end of the media counts from the start of the presentation, not of the period. A seek into
      the second half of the last segment goes past the period if that end makes room for a
      further segment. */
  predicate GoesPast(index: Index, t: int, periodUs: int, endUs: int)
    requires IndexOk(index)
  {
    && index.Derived?
    && NumAt(index, t, endUs) == LastNum(index, periodUs) < LastNum(index, endUs)
    && InSecondHalf(index, t)
  }

  /** Which of the two starts around the time is taken. */
  lemma DerivedSnapIs(index: Index, t: int, periodUs: int, endUs: int)
    requires index.Derived? && 0 <= t < periodUs <= endUs
    ensures var n := NumAt(index, t, endUs);
            Snap(index, t, endUs) ==
            TimeUs(index, if InSecondHalf(index, t) && n != LastNum(index, endUs) then n + 1 else n)
  {
    DerivedNumAt(index, t, periodUs, endUs);
    DerivedNext(index, NumAt(index, t, endUs));
  }

  lemma DerivedSnapIsNearest(index: Index, t: int, periodUs: int, endUs: int)
    requires index.Derived? && 0 <= t < periodUs <= endUs
    requires !GoesPast(index, t, periodUs, endUs)
    ensures IsNearestStart(index, periodUs, t, Snap(index, t, endUs))
  {
    DerivedNumAt(index, t, periodUs, endUs);
    DerivedSnapIs(index, t, periodUs, endUs);
    var k, q := NumAt(index, t, endUs), Snap(index, t, endUs);
    DerivedNext(index, k);
    assert HasSegment(index, periodUs, if q == TimeUs(index, k) then k else k + 1);
    forall n | HasSegment(index, periodUs, n)
      ensures AsNear(t, q, TimeUs(index, n))
    {
      if n < k {
        DerivedInOrder(index, n, k);
      } else if k + 1 < n {
        DerivedInOrder(index, k + 1, n);
      }
    }
  }

  lemma DerivedSnapGoesPast(index: Index, t: int, periodUs: int, endUs: int)
    requires index.Derived? && 0 <= t < periodUs <= endUs
    requires GoesPast(index, t, periodUs, endUs)
    ensures Snap(index, t, endUs) == TimeUs(index, LastNum(index, periodUs) + 1) >= periodUs
    ensures !IsNearestStart(index, periodUs, t, Snap(index, t, endUs))
  {
    var last := LastNum(index, periodUs);
    DerivedSnapIs(index, t, periodUs, endUs);
    CountIsCeiling(periodUs, index.durationUs);
    assert TimeUs(index, last + 1) == (periodUs + index.durationUs - 1) / index.durationUs * index.durationUs;
    forall n | HasSegment(index, periodUs, n)
      ensures TimeUs(index, n) < TimeUs(index, last + 1)
    {
      DerivedInOrder(index, n, last + 1);
    }
  }

  // ----- Either kind of index -------------------------------------------------------

  /** A position inside the period goes to a nearest segment start of the period, if and only if it
      does not go past the period. */
  lemma SnapIsNearestIff(index: Index, t: int, periodUs: int, endUs: int)
    requires ValidIndex(index) && (index.Derived? ==> 0 <= t < periodUs <= endUs)
    ensures IsNearestStart(index, periodUs, t, Snap(index, t, endUs)) <==> !GoesPast(index, t, periodUs, endUs)
  {
    if index.Explicit? {
      ListedSnapIsNearest(index.window, t, periodUs, endUs);
    } else if GoesPast(index, t, periodUs, endUs) {
      DerivedSnapGoesPast(index, t, periodUs, endUs);
    } else {
      DerivedSnapIsNearest(index, t, periodUs, endUs);
    }
  }

  /** Snapping a segment start leaves it alone. */
  lemma SnapIsStable(index: Index, n: int, periodUs: int, endUs: int)
    requires ValidIndex(index) && HasSegment(index, periodUs, n) && (index.Derived? ==> 0 < periodUs <= endUs)
    ensures Snap(index, TimeUs(index, n), endUs) == TimeUs(index, n)
  {
    match index
    case Explicit(w) => SegmentAtContains(w, w.bounds[n - w.firstNum], n - w.firstNum);
    case Derived(firstNum, d) =>
      StartsInsidePeriod(index, n, periodUs);
      DerivedSnapIs(index, TimeUs(index, n), periodUs, endUs);
      DerivedNumAt(index, TimeUs(index, n), periodUs, endUs);
      assert TimeUs(index, n) % d == 0;
  }

  lemma StartsInsidePeriod(index: Index, n: int, periodUs: int)
    requires index.Derived? && periodUs > 0 && HasSegment(index, periodUs, n)
    ensures 0 <= TimeUs(index, n) < periodUs && TimeUs(index, n) % index.durationUs == 0
  {
    var d, k := index.durationUs, n - index.firstNum;
    LastIsInside(k, periodUs, d);
    NoRemainder(k, d);
  }

  lemma LastIsInside(k: int, us: int, d: int)
    requires d > 0 && 0 <= k < (us + d - 1) / d
    ensures 0 <= k * d < us
  {
    CountIsCeiling(us, d);
    ProductsInOrder(k, (us + d - 1) / d, d);
    ProductsInOrder(-1, k, d);
  }

  lemma NoRemainder(k: int, d: int)
    requires d > 0
    ensures k * d % d == 0
  {
    var q, r := k * d / d, k * d % d;
    assert k * d == q * d + r && 0 <= r < d;
    if q < k {
      ProductsInOrder(q, k, d);
    } else if k < q {
      ProductsInOrder(k, q, d);
    }
  }

  // ----- Seeks over periods ---------------------------------------------------------

  /** How long the period's media lasts. */
  function PeriodUs(p: Period): int {
    p.media.availableEndUs - p.StartUs()
  }

  /** The segments of a period start inside it, the first one not before it. */
  ghost predicate StartsInside(p: Period) {
    match ArbitraryIndex(p.media.reps)
    case None => true
    case Some(Explicit(w)) => ValidWindow(w) && 0 <= w.bounds[0] && w.bounds[w.Count() - 1] < PeriodUs(p)
    case Some(Derived(_, _)) => p.startMs >= 0 && PeriodUs(p) > 0
  }

  /** The segments of a period start when the media of an earlier one has ended. */
  ghost predicate StartsAfter(p: Period, earlier: Period) {
    var index := ArbitraryIndex(p.media.reps);
    index.Some? && IndexOk(index.value) ==>
      earlier.media.availableEndUs <= p.StartUs() + TimeUs(index.value, FirstNum(index.value))
  }

  /** Periods in order without overlap. */
  ghost predicate Disjoint(periods: seq<Period>) {
    && (forall i :: 0 <= i < |periods| ==> StartsInside(periods[i]))
    && (forall i, j :: 0 <= i < j < |periods| ==> StartsAfter(periods[j], periods[i]))
    && (periods != [] ==> periods[0].media.availableStartUs <= periods[0].media.availableEndUs)
  }

  /** The period a seek falls in, if its start and its index let the seek be adjusted. */
  function SeekPeriod(periods: seq<Period>, targetUs: int): (r: Option<nat>)
    requires periods != []
    ensures r.Some? ==> r.value < |periods| && ArbitraryIndex(periods[r.value].media.reps).Some?
  {
    match FindPeriod(periods, targetUs)
    case None => None
    case Some(i) =>
      if targetUs < periods[i].StartUs() || ArbitraryIndex(periods[i].media.reps).None? then None else Some(i)
  }

  /** The seek would go past the period it falls in. */
  ghost predicate SeekGoesPast(periods: seq<Period>, targetUs: int)
    requires periods != [] && Disjoint(periods)
  {
    var found := SeekPeriod(periods, targetUs);
    found.Some? &&
    var p := periods[found.value];
    assert StartsInside(p);
    GoesPast(ArbitraryIndex(p.media.reps).value, targetUs - p.StartUs(), PeriodUs(p), p.media.availableEndUs)
  }

  /** The position is a nearest segment start of the period that the seek falls in. */
  ghost predicate IsNearestInPeriod(periods: seq<Period>, targetUs: int, positionUs: int)
    requires periods != [] && Disjoint(periods) && SeekPeriod(periods, targetUs).Some?
  {
    var p := periods[SeekPeriod(periods, targetUs).value];
    assert StartsInside(p);
    IsNearestStart(ArbitraryIndex(p.media.reps).value, PeriodUs(p), targetUs - p.StartUs(), positionUs - p.StartUs())
  }

  lemma DisjointIsSeekable(periods: seq<Period>)
    requires Disjoint(periods)
    ensures forall i :: 0 <= i < |periods| ==> SeekOk(periods[i])
  {
    forall i | 0 <= i < |periods|
      ensures SeekOk(periods[i])
    {
      assert StartsInside(periods[i]);
    }
  }

  /** A position found in a period is before its end. */
  lemma FoundIsBeforeEnd(periods: seq<Period>, targetUs: int)
    requires periods != [] && Disjoint(periods) && FindPeriod(periods, targetUs).Some?
    ensures targetUs < periods[FindPeriod(periods, targetUs).value].media.availableEndUs
  {
  }

  lemma {:induction false} FirstEndingAfterIs(periods: seq<Period>, q: int, from: nat, i: nat)
    requires from <= i < |periods| && periods[i].media.reps != [] && q < periods[i].media.availableEndUs
    requires forall j :: 0 <= j < i ==> periods[j].media.availableEndUs <= q
    ensures FirstEndingAfter(periods, q, from) == Some(i)
    decreases i - from
  {
    if from < i {
      FirstEndingAfterIs(periods, q, from + 1, i);
    }
  }

  /** A segment start of the period found for some position is found to be in that period again. */
  lemma StartStaysInPeriod(periods: seq<Period>, targetUs: int, i: nat, index: Index, n: int)
    requires periods != [] && Disjoint(periods) && FindPeriod(periods, targetUs) == Some(i)
    requires ArbitraryIndex(periods[i].media.reps) == Some(index) && IndexOk(index)
    requires HasSegment(index, PeriodUs(periods[i]), n)
    ensures FindPeriod(periods, periods[i].StartUs() + TimeUs(index, n)) == Some(i)
  {
    var p := periods[i];
    assert StartsInside(p);
    StartIsInRange(p, index, n);
    var q := p.StartUs() + TimeUs(index, n);
    forall j | 0 <= j < i
      ensures periods[j].media.availableEndUs <= q
    {
      assert StartsAfter(p, periods[j]);
    }
    FirstEndingAfterIs(periods, q, 0, i);
  }

  /** Every segment starts between the first segment's start and the end of the period. */
  lemma StartIsInRange(p: Period, index: Index, n: int)
    requires StartsInside(p) && ArbitraryIndex(p.media.reps) == Some(index)
    requires IndexOk(index) && HasSegment(index, PeriodUs(p), n)
    ensures 0 <= TimeUs(index, FirstNum(index)) <= TimeUs(index, n) < PeriodUs(p)
  {
    match index
    case Explicit(w) =>
      if w.firstNum < n {
        ListedInOrder(w, w.firstNum, n);
      }
      if n < w.LastNum() {
        ListedInOrder(w, n, w.LastNum());
      }
    case Derived(_, _) => StartsInsidePeriod(index, n, PeriodUs(p));
  }

  /** For periods without overlap and either kind of index: a seek that can be adjusted goes to a
      nearest segment start of the period it falls in, the lower one on a tie, if and only if it
      does not go past that period. */
  lemma AdjustedSeekIsNearestIff(periods: seq<Period>, targetUs: int)
    requires periods != [] && Disjoint(periods) && SeekPeriod(periods, targetUs).Some?
    ensures forall i :: 0 <= i < |periods| ==> SeekOk(periods[i])
    ensures IsNearestInPeriod(periods, targetUs, AdjustedSeek(periods, targetUs)) <==> !SeekGoesPast(periods, targetUs)
  {
    DisjointIsSeekable(periods);
    FoundIsBeforeEnd(periods, targetUs);
    var p := periods[SeekPeriod(periods, targetUs).value];
    assert StartsInside(p);
    SnapIsNearestIff(ArbitraryIndex(p.media.reps).value, targetUs - p.StartUs(), PeriodUs(p), p.media.availableEndUs);
  }

  /** Where no period, no start or no index applies, the target is kept. */
  lemma OtherSeeksAreKept(periods: seq<Period>, targetUs: int)
    requires periods != [] && Disjoint(periods) && SeekPeriod(periods, targetUs).None?
    ensures forall i :: 0 <= i < |periods| ==> SeekOk(periods[i])
    ensures AdjustedSeek(periods, targetUs) == targetUs
  {
    DisjointIsSeekable(periods);
  }

  /** A seek that does not go past its period is adjusted once and for all. */
  lemma AdjustedSeekIsIdempotent(periods: seq<Period>, targetUs: int)
    requires periods != [] && Disjoint(periods) && !SeekGoesPast(periods, targetUs)
    ensures forall i :: 0 <= i < |periods| ==> SeekOk(periods[i])
    ensures AdjustedSeek(periods, AdjustedSeek(periods, targetUs)) == AdjustedSeek(periods, targetUs)
  {
    var found := SeekPeriod(periods, targetUs);
    if found.None? {
      OtherSeeksAreKept(periods, targetUs);
    } else {
      AdjustedSeekIsNearestIff(periods, targetUs);
      var index, n := NearestIsStart(periods, targetUs, AdjustedSeek(periods, targetUs));
      SeekToStart(periods, targetUs, found.value, index, n);
    }
  }

  lemma NearestIsStart(periods: seq<Period>, targetUs: int, q: int) returns (index: Index, n: int)
    requires periods != [] && Disjoint(periods) && SeekPeriod(periods, targetUs).Some?
    requires IsNearestInPeriod(periods, targetUs, q)
    ensures var p := periods[SeekPeriod(periods, targetUs).value];
            && ArbitraryIndex(p.media.reps) == Some(index) && IndexOk(index)
            && HasSegment(index, PeriodUs(p), n) && q == p.StartUs() + TimeUs(index, n)
  {
    var p := periods[SeekPeriod(periods, targetUs).value];
    assert StartsInside(p);
    index := ArbitraryIndex(p.media.reps).value;
    n :| HasSegment(index, PeriodUs(p), n) && TimeUs(index, n) == q - p.StartUs();
  }

  lemma SeekToStart(periods: seq<Period>, targetUs: int, i: nat, index: Index, n: int)
    requires periods != [] && Disjoint(periods) && FindPeriod(periods, targetUs) == Some(i)
    requires forall j :: 0 <= j < |periods| ==> SeekOk(periods[j])
    requires ArbitraryIndex(periods[i].media.reps) == Some(index) && IndexOk(index)
    requires HasSegment(index, PeriodUs(periods[i]), n)
    ensures var q := periods[i].StartUs() + TimeUs(index, n);
            AdjustedSeek(periods, q) == q
  {
    var p := periods[i];
    assert StartsInside(p);
    StartStaysInPeriod(periods, targetUs, i, index, n);
    StartIsInRange(p, index, n);
    SnapIsStable(index, n, PeriodUs(p), p.media.availableEndUs);
  }

  /** So a seek that can be adjusted goes to a nearest start and stays there, if and only if it does
      not go past its period. */
  lemma AdjustedSeekIsSoundIff(periods: seq<Period>, targetUs: int)
    requires periods != [] && Disjoint(periods) && SeekPeriod(periods, targetUs).Some?
    ensures forall i :: 0 <= i < |periods| ==> SeekOk(periods[i])
    ensures var q := AdjustedSeek(periods, targetUs);
            IsNearestInPeriod(periods, targetUs, q) && AdjustedSeek(periods, q) == q <==>
                !SeekGoesPast(periods, targetUs)
  {
    AdjustedSeekIsNearestIff(periods, targetUs);
    if !SeekGoesPast(periods, targetUs) {
      AdjustedSeekIsIdempotent(periods, targetUs);
    }
  }

  /** A seek that goes past its period lands at or after the end of it, in another period or in
      none. */
  lemma PastSeekChangesPeriod(periods: seq<Period>, targetUs: int)
    requires periods != [] && Disjoint(periods) && SeekGoesPast(periods, targetUs)
    ensures forall i :: 0 <= i < |periods| ==> SeekOk(periods[i])
    ensures var i := SeekPeriod(periods, targetUs).value;
            var q := AdjustedSeek(periods, targetUs);
            q >= periods[i].media.availableEndUs && FindPeriod(periods, q) != Some(i)
  {
    DisjointIsSeekable(periods);
    FoundIsBeforeEnd(periods, targetUs);
    var i := SeekPeriod(periods, targetUs).value;
    var p := periods[i];
    assert StartsInside(p);
    DerivedSnapGoesPast(ArbitraryIndex(p.media.reps).value, targetUs - p.StartUs(), PeriodUs(p),
                        p.media.availableEndUs);
    if FindPeriod(periods, AdjustedSeek(periods, targetUs)).Some? {
      FoundIsBeforeEnd(periods, AdjustedSeek(periods, targetUs));
    }
  }

  /** Such a seek: one period from 100 to 130 milliseconds, with three segments of 10 milliseconds. A
      seek to 128 goes to 130, where no period is found. */
  function PastExample(): seq<Period> {
    var index := Some(Derived(1, 10000));
    [Period(0, 100, Media([Representation("a", false, State(100000, 30000, 0, index, index))], 100000, 130000))]
  }

  lemma SeekCanGoPast()
    ensures Disjoint(PastExample()) && SeekGoesPast(PastExample(), 128000)
    ensures AdjustedSeek(PastExample(), 128000) == 130000
    ensures FindPeriod(PastExample(), 130000) == None
  {
    var p := PastExample()[0];
    var index := Derived(1, 10000);
    assert p.media.reps[0].holder.index == Some(index);
    assert ArbitraryIndex(p.media.reps) == Some(index);
    assert FindPeriod(PastExample(), 128000) == Some(0);
    assert NumAt(index, 28000, 130000) == 3;
  }

  /** Periods from 100 to 128 and from 128 to 148 milliseconds: a seek to 127 goes to 130, and from
      there to 128. */
  function TwiceExample(): seq<Period> {
    var index := Some(Derived(1, 10000));
    [Period(0, 100, Media([Representation("a", false, State(100000, 28000, 0, index, index))], 100000, 128000)),
     Period(1, 128, Media([Representation("a", false, State(128000, 20000, 0, index, index))], 128000, 148000))]
  }

  lemma TwiceExampleIsDisjoint()
    ensures Disjoint(TwiceExample())
    ensures FindPeriod(TwiceExample(), 127000) == Some(0) && FindPeriod(TwiceExample(), 130000) == Some(1)
    ensures forall i :: 0 <= i < 2 ==> ArbitraryIndex(TwiceExample()[i].media.reps) == Some(Derived(1, 10000))
  {
    assert forall i :: 0 <= i < 2 ==> ArbitraryIndex(TwiceExample()[i].media.reps) == Some(Derived(1, 10000));
    assert FirstEndingAfter(TwiceExample(), 127000, 0) == Some(0);
    FirstEndingAfterIs(TwiceExample(), 130000, 0, 1);
  }

  lemma PastSeekCanMoveAgain()
    ensures Disjoint(TwiceExample()) && SeekGoesPast(TwiceExample(), 127000)
    ensures forall i :: 0 <= i < |TwiceExample()| ==> SeekOk(TwiceExample()[i])
    ensures AdjustedSeek(TwiceExample(), 127000) == 130000 && AdjustedSeek(TwiceExample(), 130000) == 128000
  {
    TwiceExampleIsDisjoint();
    DisjointIsSeekable(TwiceExample());
    assert Snap(Derived(1, 10000), 27000, 128000) == 30000;
    assert Snap(Derived(1, 10000), 2000, 148000) == 0;
  }
}
