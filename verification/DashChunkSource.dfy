/**
 The chunk source as it is written: an ordered map of period holders that manifests update
 in place, and the operations that walk it. Each method is proved against the functions on
 the list of held periods.
 */
module DashChunkSources {
  import opened Samples
  import opened DashPeriods
  import opened RepresentationHolders
  import opened ChunkSchedules
  import opened PeriodTables

  /** The keys of the map are exactly those from `lo` up to `hi`. */
  ghost predicate IsRange(m: map<int, Period>, lo: int, hi: int) {
    && lo <= hi
    && (forall k :: k in m <==> lo <= k < hi)
    && (forall k :: k in m ==> m[k].key == k)
  }

  ghost function Listed(m: map<int, Period>, lo: int, hi: int): (s: seq<Period>)
    requires IsRange(m, lo, hi)
    ensures |s| == hi - lo && forall i :: 0 <= i < |s| ==> s[i] == m[lo + i]
  {
    seq(hi - lo, i requires 0 <= i < hi - lo => m[lo + i])
  }

  lemma RangeSize(m: map<int, Period>, lo: int, hi: int)
    requires IsRange(m, lo, hi)
    ensures |m| == hi - lo
  {
    IntervalSize(m.Keys, lo, hi);
    assert |m.Keys| == |m|;
  }

  lemma {:induction false} IntervalSize(s: set<int>, lo: int, hi: int)
    requires lo <= hi && forall k :: k in s <==> lo <= k < hi
    ensures |s| == hi - lo
    decreases hi - lo
  {
    if lo < hi {
      IntervalSize(s - {lo}, lo + 1, hi);
    } else if s != {} {
      var k :| k in s;
      assert false;
    }
  }

  lemma {:induction false} FirstFromIs(holders: seq<Period>, startMs: int, i: nat, n: nat)
    requires i <= n <= |holders|
    requires forall j :: 0 <= j < n ==> holders[j].startMs < startMs
    requires n < |holders| ==> holders[n].startMs >= startMs
    ensures FirstFrom(holders, startMs, i) == n
    decreases n - i
  {
    if i < n {
      FirstFromIs(holders, startMs, i + 1, n);
    }
  }

  lemma {:induction false} FindKeyInRange(m: map<int, Period>, lo: int, hi: int, key: int, i: nat)
    requires IsRange(m, lo, hi) && i <= hi - lo && (lo <= key < hi ==> lo + i <= key)
    ensures FindKey(Listed(m, lo, hi), key, i) == if lo <= key < hi then Some(key - lo) else None
    decreases hi - lo - i
  {
    if i < hi - lo && lo + i != key {
      FindKeyInRange(m, lo, hi, key, i + 1);
    }
  }

  lemma MoveFirst(held: seq<Period>, periods: seq<ManifestPeriod>, i: nat, key: int)
    requires i < |periods|
    ensures held + NewHolders(periods, i, key) ==
            held + [NewPeriod(periods[i], key)] + NewHolders(periods, i + 1, key + 1)
  {
    assert NewHolders(periods, i, key) == [NewPeriod(periods[i], key)] + NewHolders(periods, i + 1, key + 1);
  }

  /** Brings one held period up to date with its manifest. */
  method UpdateHolder(p: Period, mp: ManifestPeriod) returns (r: Period, result: Update)
    ensures (r, result) == UpdatePeriod(p, mp)
  {
    if mp.listed == [] {
      return p, Behind;
    }
    var reps, news := p.media.reps, NewReps(mp);
    for i := 0 to |reps|
      invariant |reps| == |p.media.reps|
      invariant RefreshReps(p.media.reps, news, 0) == RefreshReps(reps, news, i)
    {
      if |news| <= i {
        return p.(media := p.media.(reps := reps)), Missing;
      }
      var found := RepIndex(reps, news[i].id);
      if found.None? || !RefreshOk(reps[found.value].holder, news[i].holder.manifest) {
        return p.(media := p.media.(reps := reps)), Missing;
      }
      var k := found.value;
      var (h, ok) := Refreshed(reps[k].holder, news[i].holder.periodUs, news[i].holder.manifest);
      reps := reps[k := Representation(reps[k].id, news[i].hasInitialization, h)];
      if !ok {
        return p.(media := p.media.(reps := reps)), Behind;
      }
    }
    if reps == [] {
      return p, Missing;
    }
    var (from, to) := Available(p.StartUs(), mp.durationUs, FirstIndex(mp), p.media.availableEndUs);
    return p.(media := Media(reps, from, to)), Fine;
  }

  class DashChunkSource {
    var periodHolders: map<int, Period>
    var nextPeriodHolderIndex: int
    ghost var firstKey: int
    var fatalError: bool
    var evaluationFormat: Option<string>
    var lastChunkWasInitialization: bool
    /** The representations whose holder has been given its media format. */
    var formats: set<(int, string)>

    ghost predicate Valid()
      reads this
    {
      IsRange(periodHolders, firstKey, nextPeriodHolderIndex)
    }

    ghost function Held(): seq<Period>
      requires Valid()
      reads this
    {
      Listed(periodHolders, firstKey, nextPeriodHolderIndex)
    }

    ghost function Model(): Table
      requires Valid()
      reads this
    {
      Table(nextPeriodHolderIndex, Held(), fatalError)
    }

    ghost function Mem(): Memory
      reads this
    {
      Memory(evaluationFormat, lastChunkWasInitialization)
    }

    constructor ()
      ensures Valid() && Model() == Table(0, [], false) && Mem() == Memory(None, false) && formats == {}
    {
      periodHolders := map[];
      nextPeriodHolderIndex := 0;
      firstKey := 0;
      fatalError := false;
      evaluationFormat := None;
      lastChunkWasInitialization := false;
      formats := {};
    }

    /** The least key of the map. */
    method Begin() returns (k: int)
      requires Valid() && |periodHolders| > 0
      ensures k == firstKey && k in periodHolders
    {
      RangeSize(periodHolders, firstKey, nextPeriodHolderIndex);
      assert firstKey in periodHolders;
      k :| k in periodHolders && forall j :: j in periodHolders ==> k <= j;
    }

    method DropOldPeriods(startMs: int)
      requires Valid()
      modifies this`periodHolders, this`firstKey
      ensures Valid() && Held() == DropBefore(old(Held()), startMs)
    {
      ghost var before, n := Held(), 0;
      RangeSize(periodHolders, firstKey, nextPeriodHolderIndex);
      while |periodHolders| > 0
        invariant Valid() && n <= |before| && Held() == before[n..] && |periodHolders| == |before| - n
        invariant forall j :: 0 <= j < n ==> before[j].startMs < startMs
        decreases |periodHolders|
      {
        var k := Begin();
        assert periodHolders[k] == Held()[0] == before[n];
        if periodHolders[k].startMs >= startMs {
          break;
        }
        EraseFirst();
        n := n + 1;
      }
      FirstFromIs(before, startMs, 0, n);
    }

    method EraseFirst()
      requires Valid() && |periodHolders| > 0
      modifies this`periodHolders, this`firstKey
      ensures Valid() && old(Held()) != [] && Held() == old(Held())[1..] && |periodHolders| == old(|periodHolders|) - 1
    {
      RangeSize(periodHolders, firstKey, nextPeriodHolderIndex);
      var k := Begin();
      periodHolders := periodHolders - {k};
      firstKey := firstKey + 1;
      RangeSize(periodHolders, firstKey, nextPeriodHolderIndex);
    }

    /** Replaces the period under its key. */
    method Put(p: Period)
      requires Valid() && p.key in periodHolders
      modifies this`periodHolders
      ensures Valid() && Held() == old(Held())[p.key - firstKey := p]
    {
      periodHolders := periodHolders[p.key := p];
    }

    method AddPeriods(periods: seq<ManifestPeriod>)
      requires Valid() && |Held()| <= |periods|
      modifies this`periodHolders, this`nextPeriodHolderIndex
      ensures Valid() && Held() == old(Held()) + NewHolders(periods, |old(Held())|, old(nextPeriodHolderIndex))
      ensures nextPeriodHolderIndex == old(nextPeriodHolderIndex) + |periods| - |old(Held())|
    {
      RangeSize(periodHolders, firstKey, nextPeriodHolderIndex);
      ghost var size, all := |periodHolders|, Held() + NewHolders(periods, |periodHolders|, nextPeriodHolderIndex);
      var i := |periodHolders|;
      while i < |periods|
        invariant Valid() && size <= i <= |periods| && |Held()| == i
        invariant nextPeriodHolderIndex == old(nextPeriodHolderIndex) + i - size
        invariant all == Held() + NewHolders(periods, i, nextPeriodHolderIndex)
      {
        InsertNext(periods, i, all);
        i := i + 1;
      }
    }

    /** Inserts the `i`-th period; `all` are those held and those still to come. */
    method InsertNext(periods: seq<ManifestPeriod>, i: nat, ghost all: seq<Period>)
      requires Valid() && i < |periods| && all == Held() + NewHolders(periods, i, nextPeriodHolderIndex)
      modifies this`periodHolders, this`nextPeriodHolderIndex
      ensures Valid() && nextPeriodHolderIndex == old(nextPeriodHolderIndex) + 1 && |Held()| == |old(Held())| + 1
      ensures all == Held() + NewHolders(periods, i + 1, nextPeriodHolderIndex)
    {
      MoveFirst(Held(), periods, i, nextPeriodHolderIndex);
      Insert(periods[i]);
    }

    method Insert(p: ManifestPeriod)
      requires Valid()
      modifies this`periodHolders, this`nextPeriodHolderIndex
      ensures Valid() && nextPeriodHolderIndex == old(nextPeriodHolderIndex) + 1
      ensures Held() == old(Held()) + [NewPeriod(p, old(nextPeriodHolderIndex))]
    {
      periodHolders := periodHolders[nextPeriodHolderIndex := NewPeriod(p, nextPeriodHolderIndex)];
      nextPeriodHolderIndex := nextPeriodHolderIndex + 1;
    }

    method ProcessManifest(m: Manifest) returns (outcome: Outcome)
      requires Valid()
      modifies this
      ensures Valid() && (Model(), outcome) == PeriodTables.ProcessManifest(old(Model()), m)
      ensures Mem() == old(Mem()) && formats == old(formats)
    {
      DropOldPeriods(m.periods[0].startMs);
      RangeSize(periodHolders, firstKey, nextPeriodHolderIndex);
      assert Model() == old(Model()).(holders := DropBefore(old(Held()), m.periods[0].startMs));
      if |periodHolders| > |m.periods| {
        return Discarded;
      }
      outcome := TakeOver(m);
    }

    method TakeOver(m: Manifest) returns (outcome: Outcome)
      requires Valid() && |periodHolders| <= |m.periods|
      modifies this`periodHolders, this`nextPeriodHolderIndex, this`fatalError
      ensures Valid() && |old(Held())| <= |m.periods| && (Model(), outcome) == TakenOver(old(Model()), m)
    {
      RangeSize(periodHolders, firstKey, nextPeriodHolderIndex);
      var result := UpdatePeriods(m);
      if result != Fine {
        fatalError := true;
        return if result == Behind then Failed else Crashed;
      }
      AddPeriods(m.periods);
      return Completed;
    }

    /** Only the first and the last period can change. */
    method UpdatePeriods(m: Manifest) returns (result: Update)
      requires Valid() && |periodHolders| <= |m.periods|
      modifies this`periodHolders
      ensures Valid() && |old(Held())| <= |m.periods| && (Held(), result) == Updated(old(Held()), m)
    {
      RangeSize(periodHolders, firstKey, nextPeriodHolderIndex);
      var count := |periodHolders|;
      if count == 0 {
        return Fine;
      }
      var k := Begin();
      var first;
      assert periodHolders[k] == Held()[0];
      first, result := UpdateHolder(periodHolders[k], m.periods[0]);
      Put(first);
      if result != Fine || count == 1 {
        return;
      }
      var last;
      assert periodHolders[nextPeriodHolderIndex - 1] == Held()[count - 1];
      last, result := UpdateHolder(periodHolders[nextPeriodHolderIndex - 1], m.periods[count - 1]);
      Put(last);
    }

    method Disable()
      requires Valid()
      modifies this
      ensures Valid() && Model() == PeriodTables.Disable(old(Model()))
      ensures Mem() == old(Mem()).(format := None) && formats == old(formats)
    {
      periodHolders := map[];
      firstKey := nextPeriodHolderIndex;
      evaluationFormat := None;
      fatalError := false;
    }

    /** The key of the first period with media that ends after the position. */
    method FindPeriodHolder(positionUs: int) returns (r: Option<int>)
      requires Valid() && |periodHolders| > 0
      ensures Held() != [] && (r.Some? ==> r.value in periodHolders)
      ensures FindPeriod(Held(), positionUs) == if r.Some? then Some(r.value - firstKey) else None
    {
      RangeSize(periodHolders, firstKey, nextPeriodHolderIndex);
      var k := Begin();
      if positionUs < periodHolders[k].media.availableStartUs && periodHolders[k].media.reps != [] {
        return Some(k);
      }
      while k in periodHolders
        invariant firstKey <= k <= nextPeriodHolderIndex
        invariant FirstEndingAfter(Held(), positionUs, 0) == FirstEndingAfter(Held(), positionUs, k - firstKey)
        decreases nextPeriodHolderIndex - k
      {
        if positionUs < periodHolders[k].media.availableEndUs && periodHolders[k].media.reps != [] {
          return Some(k);
        }
        k := k + 1;
      }
      return None;
    }

    method GetAdjustedSeek(targetUs: int) returns (r: int)
      requires Valid() && |periodHolders| > 0
      requires forall i :: 0 <= i < |Held()| ==> SeekOk(Held()[i])
      ensures Held() != [] && r == AdjustedSeek(Held(), targetUs)
    {
      var found := FindPeriodHolder(targetUs);
      if found.None? {
        return targetUs;
      }
      var p := periodHolders[found.value];
      assert p == Held()[found.value - firstKey];
      var index := ArbitraryIndex(p.media.reps);
      if targetUs < p.StartUs() || index.None? {
        return targetUs;
      }
      return p.StartUs() + Snap(index.value, targetUs - p.StartUs(), p.media.availableEndUs);
    }

    /** The next period with representations after the one under `k`. */
    method MoveToNextPeriod(k: int) returns (r: Option<int>)
      requires Valid() && k in periodHolders
      ensures r.Some? ==> r.value in periodHolders
      ensures NextPeriod(Held(), k + 1 - firstKey) == if r.Some? then At(r.value - firstKey, true) else End
    {
      var next := k + 1;
      while next in periodHolders && periodHolders[next].media.reps == []
        invariant k < next <= nextPeriodHolderIndex
        invariant NextPeriod(Held(), k + 1 - firstKey) == NextPeriod(Held(), next - firstKey)
        decreases nextPeriodHolderIndex - next
      {
        next := next + 1;
      }
      return if next in periodHolders then Some(next) else None;
    }

    /** Where the next chunk comes from: a period, and whether it starts it; nothing at the end. Not
        defined if the period of the last chunk does not know its format. */
    method LocateNext(queue: seq<Segment>, positionUs: int) returns (defined: bool, k: Option<int>, startsPeriod: bool)
      requires Valid() && |periodHolders| > 0
      ensures defined <==> QueueOk(Held(), queue)
      ensures k.Some? ==> k.value in periodHolders
      ensures defined ==>
                Locate(Held(), queue, positionUs) == if k.Some? then At(k.value - firstKey, startsPeriod) else End
    {
      RangeSize(periodHolders, firstKey, nextPeriodHolderIndex);
      if queue == [] {
        k := FindPeriodHolder(positionUs);
        return true, k, true;
      }
      var previous := queue[|queue| - 1];
      FindKeyInRange(periodHolders, firstKey, nextPeriodHolderIndex, previous.key, 0);
      if previous.key !in periodHolders {
        var first := Begin();
        return true, Some(first), true;
      }
      defined, k, startsPeriod := LocateAfterLast(queue, positionUs);
    }

    /** After a chunk of a period that is still held. */
    method LocateAfterLast(queue: seq<Segment>, ghost positionUs: int)
      returns (defined: bool, k: Option<int>, startsPeriod: bool)
      requires Valid() && queue != [] && Last(queue).key in periodHolders
      requires FindKey(Held(), Last(queue).key, 0) == Some(Last(queue).key - firstKey)
      ensures defined <==> QueueOk(Held(), queue)
      ensures k.Some? ==> k.value in periodHolders
      ensures defined ==>
                Locate(Held(), queue, positionUs) == if k.Some? then At(k.value - firstKey, startsPeriod) else End
    {
      var previous := queue[|queue| - 1];
      var p := periodHolders[previous.key];
      assert p == Held()[previous.key - firstKey];
      if !Fits(p, previous.id) {
        return false, None, false;
      }
      var last := nextPeriodHolderIndex - 1;
      if previous.key == last && FellOffEnd(p, previous) {
        return true, None, false;
      }
      if FellOffEnd(p, previous) {
        k := MoveToNextPeriod(previous.key);
        return true, k, true;
      }
      return true, Some(previous.key), false;
    }

    /** The next operation; `eval` is what the evaluator answers if it is asked. There is none where
        the code would use a representation that it did not find. */
    method GetChunkOperation(queue: seq<Segment>, positionUs: int, eval: Evaluation, out: Operation)
      returns (r: Option<Operation>)
      requires Valid() && (!fatalError ==> |periodHolders| > 0)
      modifies this`evaluationFormat, this`lastChunkWasInitialization
      ensures fatalError ==> r == Some(out.(chunk := None)) && Mem() == old(Mem())
      ensures !fatalError ==> (r.Some? <==> OpOk(Held(), old(Mem()), queue, positionUs, eval, out))
      ensures !fatalError && r.Some? ==>
                (Mem(), r.value) == NextOperation(Held(), formats, old(Mem()), queue, positionUs, eval, out)
    {
      if fatalError {
        return Some(out.(chunk := None));
      }
      var defined, k, startsPeriod := LocateNext(queue, positionUs);
      if !defined {
        return None;
      }
      if k.None? {
        return Some(out.(chunk := None, endOfStream := true));
      }
      assert periodHolders[k.value] == Held()[k.value - firstKey];
      r := OperationInPeriod(periodHolders[k.value], startsPeriod, queue, positionUs, eval, out);
    }

    method OperationInPeriod(p: Period, startsPeriod: bool, queue: seq<Segment>, positionUs: int, eval: Evaluation,
                             out: Operation)
      returns (r: Option<Operation>)
      modifies this`evaluationFormat, this`lastChunkWasInitialization
      ensures r.Some? <==> FormatOk(p, old(Mem()), |queue|, eval, out)
      ensures r.Some? ==>
                (Mem(), r.value) == OperationIn(p, startsPeriod, formats, old(Mem()), queue, positionUs, eval, out)
    {
      var queueSize := Evaluate(|queue|, eval);
      var out1 := out.(queueSize := queueSize);
      if evaluationFormat.None? {
        return Some(out1.(chunk := None));
      }
      var id := evaluationFormat.value;
      if queueSize == |queue| && out.chunk.Some? && out.chunk.value.Format() == id {
        return Some(out1);
      }
      if !Fits(p, id) {
        return None;
      }
      var chunk := NewChunk(p, id, queue, startsPeriod, positionUs);
      lastChunkWasInitialization := chunk.InitChunk?;
      return Some(out1.(chunk := Some(chunk)));
    }

    method Evaluate(size: nat, eval: Evaluation) returns (queueSize: nat)
      modifies this`evaluationFormat
      ensures Evaluation(evaluationFormat, queueSize) == Decided(old(Mem()), size, eval)
    {
      queueSize := size;
      if evaluationFormat.None? || !lastChunkWasInitialization {
        evaluationFormat := eval.format;
        queueSize := eval.queueSize;
      }
    }

    method NewChunk(p: Period, id: string, queue: seq<Segment>, startsPeriod: bool, positionUs: int)
      returns (chunk: Chunk)
      requires Fits(p, id)
      ensures chunk == ChunkFor(p, formats, id, queue, startsPeriod, positionUs)
    {
      var rep := FindRep(p.media.reps, id).value;
      if (p.key, id) !in formats && rep.hasInitialization {
        return InitChunk(p.key, id);
      }
      var num := SegmentNumber(rep.holder, queue, startsPeriod, positionUs);
      return MediaChunk(Segment(p.key, id, num));
    }

    /** A loaded initialization gives its format to the holder, if the period is still held. */
    method OnChunkLoadCompleted(chunk: Chunk, hasFormat: bool)
      requires Valid()
      modifies this`formats
      ensures Valid() && Held() == old(Held())
      ensures formats == old(formats) +
                         if chunk.InitChunk? && hasFormat && FindKey(Held(), chunk.key, 0).Some?
                         then {(chunk.key, chunk.id)} else {}
    {
      if chunk.InitChunk? {
        FindKeyInRange(periodHolders, firstKey, nextPeriodHolderIndex, chunk.key, 0);
        if chunk.key in periodHolders && hasFormat {
          formats := formats + {(chunk.key, chunk.id)};
        }
      }
    }
  }
}
