/**
 Which chunk a chunk source asks for next, for a static manifest played forward at normal
 rate: the operation itself, the list of segments that playback should fetch, and the
 proof that asking and loading in any order fetches exactly that list.
 */
module ChunkSchedules {
  import opened Samples
  import opened SegmentIndexes
  import opened RepresentationHolders
  import opened DashPeriods

  /** A media chunk: the key of its period, its format and its segment number. */
  datatype Segment = Segment(key: int, id: string, num: int)

  datatype Chunk =
    | MediaChunk(segment: Segment)
    | InitChunk(key: int, id: string)
  {
    function Format(): string {
      if MediaChunk? then segment.id else id
    }
  }

  /** What the format evaluator decides: a format, and how much of the queue to keep. */
  datatype Evaluation = Evaluation(format: Option<string>, queueSize: nat)

  /** What the chunk source remembers between calls. */
  datatype Memory = Memory(format: Option<string>, lastWasInit: bool)

  /** The operation handed out, which the caller keeps until it has been carried out. */
  datatype Operation = Operation(chunk: Option<Chunk>, queueSize: nat, endOfStream: bool)

  datatype Place = End | At(period: nat, startsPeriod: bool)

  function Last<T>(s: seq<T>): T
    requires s != []
  {
    s[|s| - 1]
  }

  // ----- Lookups --------------------------------------------------------------------

  function FindKey(periods: seq<Period>, key: int, i: nat): (r: Option<nat>)
    requires i <= |periods|
    ensures r.Some? ==> i <= r.value < |periods| && periods[r.value].key == key
    ensures r.None? ==> forall j :: i <= j < |periods| ==> periods[j].key != key
    decreases |periods| - i
  {
    if i == |periods| then None
    else if periods[i].key == key then Some(i)
    else FindKey(periods, key, i + 1)
  }

  function FindRep(reps: seq<Representation>, id: string): (r: Option<Representation>)
    ensures r.Some? ==> r.value in reps && r.value.id == id
    ensures r.None? ==> forall x :: x in reps ==> x.id != id
  {
    if reps == [] then None
    else if reps[0].id == id then Some(reps[0])
    else FindRep(reps[1..], id)
  }

  /** The holder has an index to look segments up in. */
  predicate Known(h: State) {
    h.index.Some? && IndexOk(h.index.value)
  }

  /** The period knows the format of the segment, and its index. */
  predicate Fits(p: Period, id: string) {
    var rep := FindRep(p.media.reps, id);
    rep.Some? && Known(rep.value.holder)
  }

  predicate FellOffEnd(p: Period, s: Segment)
    requires Fits(p, s.id)
  {
    IsBeyondLastSegment(FindRep(p.media.reps, s.id).value.holder, s.num + 1)
  }

  /** The first period from the `i`-th on that has representations. */
  function NextPeriod(periods: seq<Period>, i: nat): (r: Place)
    requires i <= |periods|
    ensures r.At? ==> i <= r.period < |periods| && r.startsPeriod && periods[r.period].media.reps != []
    decreases |periods| - i
  {
    if i == |periods| then End
    else if periods[i].media.reps != [] then At(i, true)
    else NextPeriod(periods, i + 1)
  }

  /** What a caller's queue has to satisfy: the period of its last chunk, if still held, knows it. */
  predicate QueueOk(periods: seq<Period>, queue: seq<Segment>) {
    && periods != []
    && (queue != [] ==>
          var found := FindKey(periods, Last(queue).key, 0);
          && (Last(periods).key == Last(queue).key ==> Fits(Last(periods), Last(queue).id))
          && (found.Some? ==> Fits(periods[found.value], Last(queue).id)))
  }

  /** Where the next chunk comes from. */
  function Locate(periods: seq<Period>, queue: seq<Segment>, positionUs: int): (r: Place)
    requires QueueOk(periods, queue)
    ensures r.At? ==> r.period < |periods|
  {
    if queue == [] then
      match FindPeriod(periods, positionUs)
      case None => End
      case Some(i) => At(i, true)
    else
      var previous := Last(queue);
      if previous.key == Last(periods).key && FellOffEnd(Last(periods), previous) then End
      else
        match FindKey(periods, previous.key, 0)
        case None => At(0, true)
        case Some(i) => if FellOffEnd(periods[i], previous) then NextPeriod(periods, i + 1) else At(i, false)
  }

  // ----- The operation --------------------------------------------------------------

  /** The evaluation in force: a remembered format stays until the initialization it needed is
      followed by media. */
  function Decided(mem: Memory, queueSize: nat, eval: Evaluation): Evaluation {
    if mem.format.None? || !mem.lastWasInit then eval else Evaluation(mem.format, queueSize)
  }

  function SegmentNumber(holder: State, queue: seq<Segment>, startsPeriod: bool, positionUs: int): int
    requires Known(holder)
  {
    if queue == [] then SegmentNum(holder, positionUs)
    else if startsPeriod then FirstAvailableSegmentNum(holder)
    else Last(queue).num + 1
  }

  /** The chunk to load: the initialization if its format is not known yet, else the segment. */
  function ChunkFor(p: Period, ready: set<(int, string)>, id: string, queue: seq<Segment>, startsPeriod: bool,
                    positionUs: int): Chunk
    requires Fits(p, id)
  {
    var rep := FindRep(p.media.reps, id).value;
    if (p.key, id) !in ready && rep.hasInitialization then InitChunk(p.key, id)
    else MediaChunk(Segment(p.key, id, SegmentNumber(rep.holder, queue, startsPeriod, positionUs)))
  }

  /** A chunk at hand is kept if neither the format nor the size of the queue changed. */
  predicate KeepsChunk(decided: Evaluation, size: nat, out: Operation) {
    && decided.format.Some? && decided.queueSize == size
    && out.chunk.Some? && out.chunk.value.Format() == decided.format.value
  }

  /** The decided format has to be one of the period's, unless nothing changes. */
  predicate FormatOk(p: Period, mem: Memory, size: nat, eval: Evaluation, out: Operation) {
    var decided := Decided(mem, size, eval);
    decided.format.Some? && !KeepsChunk(decided, size, out) ==> Fits(p, decided.format.value)
  }

  /** The operation once the period is known. */
  function OperationIn(p: Period, startsPeriod: bool, ready: set<(int, string)>, mem: Memory, queue: seq<Segment>,
                       positionUs: int, eval: Evaluation, out: Operation): (Memory, Operation)
    requires FormatOk(p, mem, |queue|, eval, out)
  {
    var decided := Decided(mem, |queue|, eval);
    var mem1, out1 := mem.(format := decided.format), out.(queueSize := decided.queueSize);
    if decided.format.None? then (mem1, out1.(chunk := None))
    else if KeepsChunk(decided, |queue|, out) then (mem1, out1)
    else
      var chunk := ChunkFor(p, ready, decided.format.value, queue, startsPeriod, positionUs);
      (mem1.(lastWasInit := chunk.InitChunk?), out1.(chunk := Some(chunk)))
  }

  /** All representations that the operation looks up without a check are there. */
  predicate OpOk(periods: seq<Period>, mem: Memory, queue: seq<Segment>, positionUs: int, eval: Evaluation,
                 out: Operation) {
    && QueueOk(periods, queue)
    && var place := Locate(periods, queue, positionUs);
       place.At? ==> FormatOk(periods[place.period], mem, |queue|, eval, out)
  }

  function NextOperation(periods: seq<Period>, ready: set<(int, string)>, mem: Memory, queue: seq<Segment>,
                         positionUs: int, eval: Evaluation, out: Operation): (Memory, Operation)
    requires OpOk(periods, mem, queue, positionUs, eval, out)
  {
    match Locate(periods, queue, positionUs)
    case End => (mem, out.(chunk := None, endOfStream := true))
    case At(i, startsPeriod) => OperationIn(periods[i], startsPeriod, ready, mem, queue, positionUs, eval, out)
  }

  /** The format in force: the one remembered, after an initialization, and else the evaluator's. */
  function FormatInForce(mem: Memory, eval: Evaluation): Option<string> {
    if mem.lastWasInit && mem.format.Some? then mem.format else eval.format
  }

  /** The chunk at hand has the format in force, and all of the queue is kept. */
  predicate StaysAtHand(mem: Memory, size: nat, eval: Evaluation, out: Operation) {
    && FormatInForce(mem, eval).Some? && out.chunk.Some?
    && (var chunk := out.chunk.value;
        FormatInForce(mem, eval).value == if chunk.MediaChunk? then chunk.segment.id else chunk.id)
    && ((mem.lastWasInit && mem.format.Some?) || eval.queueSize == size)
  }

  /** What an operation hands out: at the end nothing but that; no chunk without a format; the chunk at hand
      if nothing changed; else a chunk of the format and the period located, an initialization
      exactly if one is needed and not there yet. */
  lemma OperationHandsOut(periods: seq<Period>, ready: set<(int, string)>, mem: Memory, queue: seq<Segment>,
                          positionUs: int, eval: Evaluation, out: Operation)
    requires OpOk(periods, mem, queue, positionUs, eval, out)
    ensures var (mem', out') := NextOperation(periods, ready, mem, queue, positionUs, eval, out);
            var place, format := Locate(periods, queue, positionUs), FormatInForce(mem, eval);
            if place.End? then mem' == mem && out'.chunk.None? && out'.endOfStream
            else
              && mem'.format == format && out'.endOfStream == out.endOfStream
              && (format.None? ==> out'.chunk.None? && mem'.lastWasInit == mem.lastWasInit)
              && (StaysAtHand(mem, |queue|, eval, out) ==>
                    out'.chunk == out.chunk && mem'.lastWasInit == mem.lastWasInit)
              && (format.Some? && !StaysAtHand(mem, |queue|, eval, out) ==>
                    && out'.chunk.Some?
                    && IsHandedOut(periods[place.period], ready, format.value, out'.chunk.value)
                    && mem'.lastWasInit == out'.chunk.value.InitChunk?)
  {
  }

  ghost predicate IsHandedOut(p: Period, ready: set<(int, string)>, id: string, chunk: Chunk) {
    var rep := FindRep(p.media.reps, id);
    && rep.Some?
    && match chunk
       case InitChunk(key, format) =>
         key == p.key && format == id && rep.value.hasInitialization && (p.key, id) !in ready
       case MediaChunk(s) =>
         s.key == p.key && s.id == id && (!rep.value.hasInitialization || (p.key, id) in ready)
  }

  /** After a chunk whose period is no longer held comes the first segment of the first period that is. */
  lemma DroppedPeriodStartsOver(periods: seq<Period>, ready: set<(int, string)>, mem: Memory, queue: seq<Segment>,
                                positionUs: int, eval: Evaluation, out: Operation)
    requires OpOk(periods, mem, queue, positionUs, eval, out) && queue != []
    requires forall i :: 0 <= i < |periods| ==> periods[i].key != Last(queue).key
    ensures var out' := NextOperation(periods, ready, mem, queue, positionUs, eval, out).1;
            !StaysAtHand(mem, |queue|, eval, out) && out'.chunk.Some? && out'.chunk.value.MediaChunk? ==>
              var s := out'.chunk.value.segment;
              && s.key == periods[0].key && FindRep(periods[0].media.reps, s.id).Some?
              && s.num == FirstAvailableSegmentNum(FindRep(periods[0].media.reps, s.id).value.holder)
  {
  }

  // ----- The expected segments ------------------------------------------------------

  /** A segment to be fetched, in whatever format. */
  datatype Slot = Slot(key: int, num: int)

  ghost function FirstOf(h: State): int
    requires Known(h)
  {
    FirstAvailableSegmentNum(h)
  }

  ghost function LastOf(h: State): int
    requires Known(h)
  {
    LastNum(h.index.value, h.periodUs) + h.shift
  }

  /** All representations of the period number the same, bounded range of segments, and agree on the
      segment at a position. */
  ghost predicate Aligned(p: Period, positionUs: int) {
    forall r :: r in p.media.reps ==> AlignedRep(p, positionUs, r)
  }

  ghost predicate AlignedRep(p: Period, positionUs: int, r: Representation)
    requires p.media.reps != []
  {
    var h, h0 := r.holder, p.media.reps[0].holder;
    && Known(h) && ValidIndex(h.index.value)
    && Known(h0)
    && FirstOf(h) == FirstOf(h0) && LastOf(h) == LastOf(h0)
    && LastNum(h.index.value, h.periodUs) != UNBOUNDED && FirstOf(h) <= LastOf(h)
    && SegmentNum(h, positionUs) == SegmentNum(h0, positionUs)
  }

  ghost predicate Playable(periods: seq<Period>, positionUs: int) {
    && periods != []
    && (forall i, j :: 0 <= i < j < |periods| ==> periods[i].key < periods[j].key)
    && (forall i :: 0 <= i < |periods| ==> Aligned(periods[i], positionUs))
  }

  ghost function Low(p: Period): int {
    if p.media.reps != [] && Known(p.media.reps[0].holder) then FirstOf(p.media.reps[0].holder) else 0
  }

  ghost function High(p: Period): int {
    if p.media.reps != [] && Known(p.media.reps[0].holder) then LastOf(p.media.reps[0].holder) else -1
  }

  /** The segments of a period from a number on. */
  ghost function Slots(p: Period, from: int): seq<Slot>
    decreases High(p) - from
  {
    if from > High(p) then [] else [Slot(p.key, from)] + Slots(p, from + 1)
  }

  /** All segments of the periods from the `i`-th on. */
  ghost function Tail(periods: seq<Period>, i: nat): seq<Slot>
    requires i <= |periods|
    decreases |periods| - i
  {
    if i == |periods| then []
    else if periods[i].media.reps == [] then Tail(periods, i + 1)
    else Slots(periods[i], Low(periods[i])) + Tail(periods, i + 1)
  }

  /** All segments from a position to the end. */
  ghost function Expected(periods: seq<Period>, positionUs: int): seq<Slot>
    requires Playable(periods, positionUs)
  {
    match FindPeriod(periods, positionUs)
    case None => []
    case Some(i) => Slots(periods[i], StartNumber(periods[i], positionUs)) + Tail(periods, i + 1)
  }

  ghost function StartNumber(p: Period, positionUs: int): int
    requires p.media.reps != [] && Aligned(p, positionUs)
  {
    assert AlignedRep(p, positionUs, p.media.reps[0]);
    SegmentNum(p.media.reps[0].holder, positionUs)
  }

  /** What remains to be fetched after a segment of the `i`-th period. */
  ghost function After(periods: seq<Period>, i: nat, num: int): seq<Slot>
    requires i < |periods|
  {
    Slots(periods[i], num + 1) + Tail(periods, i + 1)
  }

  ghost function Remaining(periods: seq<Period>, positionUs: int, queue: seq<Segment>): seq<Slot>
    requires Playable(periods, positionUs)
  {
    if queue == [] then Expected(periods, positionUs)
    else
      match FindKey(periods, Last(queue).key, 0)
      case None => []
      case Some(i) => After(periods, i, Last(queue).num)
  }

  // ----- The next chunk is the next expected segment ---------------------------------

  /** A segment a period offers. */
  ghost predicate Offered(periods: seq<Period>, s: Segment) {
    exists i :: 0 <= i < |periods| && OfferedBy(periods[i], s)
  }

  ghost predicate OfferedBy(p: Period, s: Segment) {
    p.key == s.key && FindRep(p.media.reps, s.id).Some? && Low(p) <= s.num <= High(p)
  }

  lemma FindKeyIs(periods: seq<Period>, positionUs: int, i: nat)
    requires Playable(periods, positionUs) && i < |periods|
    ensures FindKey(periods, periods[i].key, 0) == Some(i)
  {
  }

  /** In a playable period every representation has the period's numbers. */
  lemma RepNumbers(p: Period, positionUs: int, id: string)
    requires Aligned(p, positionUs) && FindRep(p.media.reps, id).Some?
    ensures p.media.reps != [] && Fits(p, id)
    ensures var h := FindRep(p.media.reps, id).value.holder;
            && FirstOf(h) == Low(p) <= High(p) == LastOf(h)
            && SegmentNum(h, positionUs) == StartNumber(p, positionUs)
            && Low(p) <= StartNumber(p, positionUs) <= High(p)
            && forall n :: IsBeyondLastSegment(h, n) <==> n > High(p)
  {
    var rep := FindRep(p.media.reps, id).value;
    assert AlignedRep(p, positionUs, rep);
    assert AlignedRep(p, positionUs, p.media.reps[0]);
    NumberIsInRange(p.media.reps[0].holder, positionUs);
  }

  /** A lookup by position stays in a bounded index. */
  lemma NumberIsInRange(h: State, positionUs: int)
    requires Known(h) && ValidIndex(h.index.value)
    requires LastNum(h.index.value, h.periodUs) != UNBOUNDED && FirstOf(h) <= LastOf(h)
    ensures FirstOf(h) <= SegmentNum(h, positionUs) <= LastOf(h)
  {
    match h.index.value
    case Explicit(w) => SegmentAtClamps(w, positionUs - h.periodStartUs);
    case Derived(_, _) =>
  }

  lemma SlotsThenTail(periods: seq<Period>, i: nat, from: int)
    requires i < |periods| && from <= High(periods[i])
    ensures Slots(periods[i], from) + Tail(periods, i + 1) == [Slot(periods[i].key, from)] + After(periods, i, from)
  {
    assert Slots(periods[i], from) == [Slot(periods[i].key, from)] + Slots(periods[i], from + 1);
  }

  lemma HasNumbers(p: Period, positionUs: int)
    requires p.media.reps != [] && Aligned(p, positionUs)
    ensures Low(p) <= StartNumber(p, positionUs) <= High(p)
  {
    RepNumbers(p, positionUs, p.media.reps[0].id);
  }

  lemma {:induction false} NextPeriodIsNextInTail(periods: seq<Period>, positionUs: int, i: nat)
    requires Playable(periods, positionUs) && i <= |periods|
    ensures var place := NextPeriod(periods, i);
            && (place.End? ==> Tail(periods, i) == [])
            && (place.At? ==>
                  var p := periods[place.period];
                  && p.media.reps != [] && Low(p) <= High(p)
                  && Tail(periods, i) == [Slot(p.key, Low(p))] + After(periods, place.period, Low(p)))
    decreases |periods| - i
  {
    if i < |periods| {
      var p := periods[i];
      if p.media.reps == [] {
        NextPeriodIsNextInTail(periods, positionUs, i + 1);
        assert Tail(periods, i) == Tail(periods, i + 1);
      } else {
        assert Aligned(p, positionUs);
        HasNumbers(p, positionUs);
        SlotsThenTail(periods, i, Low(p));
      }
    }
  }

  /** The place of the next chunk: the end exactly when nothing remains, else the period and number
      of the next remaining segment, for every representation of that period. */
  lemma LocateIsNext(periods: seq<Period>, positionUs: int, queue: seq<Segment>)
    requires Playable(periods, positionUs) && (queue != [] ==> Offered(periods, Last(queue)))
    ensures QueueOk(periods, queue)
    ensures var place := Locate(periods, queue, positionUs);
            var rest := Remaining(periods, positionUs, queue);
            && (place.End? <==> rest == [])
            && (place.At? ==> IsNext(periods, positionUs, queue, place, rest[0].num, rest))
  {
    if queue == [] {
      StartIsNext(periods, positionUs);
    } else {
      var i :| 0 <= i < |periods| && OfferedBy(periods[i], Last(queue));
      FollowerIsNext(periods, positionUs, queue, i);
    }
  }

  lemma FollowerIsNext(periods: seq<Period>, positionUs: int, queue: seq<Segment>, i: nat)
    requires Playable(periods, positionUs) && i < |periods| && queue != [] && OfferedBy(periods[i], Last(queue))
    ensures QueueOk(periods, queue)
    ensures var place := Locate(periods, queue, positionUs);
            var rest := Remaining(periods, positionUs, queue);
            && (place.End? <==> rest == [])
            && (place.At? ==> IsNext(periods, positionUs, queue, place, rest[0].num, rest))
  {
    LocateAfter(periods, positionUs, queue, i);
    FindKeyIs(periods, positionUs, i);
    if Last(queue).num + 1 > High(periods[i]) {
      NextPeriodFollows(periods, positionUs, queue, i);
    } else {
      NextNumberFollows(periods, positionUs, queue, i);
    }
  }

  /** After the last segment of a period comes the next period with representations. */
  lemma NextPeriodFollows(periods: seq<Period>, positionUs: int, queue: seq<Segment>, i: nat)
    requires Playable(periods, positionUs) && i < |periods| && queue != []
    requires Last(queue).num + 1 > High(periods[i])
    ensures var place := NextPeriod(periods, i + 1);
            var rest := After(periods, i, Last(queue).num);
            && (place.End? <==> rest == [])
            && (place.At? ==> IsNext(periods, positionUs, queue, place, rest[0].num, rest))
  {
    NextPeriodIsNextInTail(periods, positionUs, i + 1);
    assert After(periods, i, Last(queue).num) == Tail(periods, i + 1);
  }

  /** Before that comes the next number. */
  lemma NextNumberFollows(periods: seq<Period>, positionUs: int, queue: seq<Segment>, i: nat)
    requires Playable(periods, positionUs) && i < |periods| && queue != [] && OfferedBy(periods[i], Last(queue))
    requires Last(queue).num + 1 <= High(periods[i]) && periods[i].media.reps != []
    ensures var rest := After(periods, i, Last(queue).num);
            rest != [] && IsNext(periods, positionUs, queue, At(i, false), rest[0].num, rest)
  {
    SlotsThenTail(periods, i, Last(queue).num + 1);
  }

  lemma LocateAfter(periods: seq<Period>, positionUs: int, queue: seq<Segment>, i: nat)
    requires Playable(periods, positionUs) && i < |periods| && queue != [] && OfferedBy(periods[i], Last(queue))
    ensures QueueOk(periods, queue) && periods[i].media.reps != []
    ensures Locate(periods, queue, positionUs) ==
            if Last(queue).num + 1 > High(periods[i]) then NextPeriod(periods, i + 1) else At(i, false)
  {
    FindKeyIs(periods, positionUs, i);
    assert Aligned(periods[i], positionUs);
    RepNumbers(periods[i], positionUs, Last(queue).id);
    assert i + 1 < |periods| ==> periods[i].key < periods[|periods| - 1].key;
  }

  lemma StartIsNext(periods: seq<Period>, positionUs: int)
    requires Playable(periods, positionUs)
    ensures var place := Locate(periods, [], positionUs);
            var rest := Expected(periods, positionUs);
            && (place.End? <==> rest == [])
            && (place.At? ==> IsNext(periods, positionUs, [], place, rest[0].num, rest))
  {
    var found := FindPeriod(periods, positionUs);
    if found.Some? {
      var p := periods[found.value];
      assert Aligned(p, positionUs);
      HasNumbers(p, positionUs);
      SlotsThenTail(periods, found.value, StartNumber(p, positionUs));
    }
  }

  /** `num` of the period at `place` is the first of the remaining segments, and is what any of the
      period's representations computes. */
  ghost predicate IsNext(periods: seq<Period>, positionUs: int, queue: seq<Segment>, place: Place, num: int,
                         rest: seq<Slot>)
    requires place.At?
  {
    && place.period < |periods|
    && var p := periods[place.period];
       && p.media.reps != [] && Low(p) <= num <= High(p)
       && rest == [Slot(p.key, num)] + After(periods, place.period, num)
       && (queue == [] ==> Aligned(p, positionUs) && num == StartNumber(p, positionUs))
       && (queue != [] && place.startsPeriod ==> num == Low(p))
       && (queue != [] && !place.startsPeriod ==> num == Last(queue).num + 1)
  }
}
