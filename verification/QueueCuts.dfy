/**
 Playback when the evaluator cuts the queue. The chunk source hands the evaluator's cut on to the
 caller, which gives up the chunks from there on; but the chunk that it hands out with it is
 the one after the last chunk of the whole queue. What was cut is then not loaded again.
 */
module QueueCuts {
  import opened Samples
  import opened SegmentIndexes
  import opened RepresentationHolders
  import opened DashPeriods
  import opened ChunkSchedules
  import opened ChunkPlayback
  import Formats = FormatSelection
  import Buffered = BufferedSource
  import Buffers = ChunkBuffers

  // ----- The size that an operation hands out ---------------------------------------

  /** Whenever there is a period to load from, the operation keeps as much of the queue as the evaluator
      says, if the evaluator was asked, and else all of it; at the end it leaves the size alone. */
  lemma OperationKeepsAsDecided(periods: seq<Period>, ready: set<(int, string)>, mem: Memory, queue: seq<Segment>,
                                positionUs: int, eval: Evaluation, out: Operation)
    requires OpOk(periods, mem, queue, positionUs, eval, out)
    ensures var size := NextOperation(periods, ready, mem, queue, positionUs, eval, out).1.queueSize;
            if Locate(periods, queue, positionUs).End? then size == out.queueSize
            else if mem.format.Some? && mem.lastWasInit then size == |queue|
            else size == eval.queueSize
  {
  }

  // ----- Asking and cutting ---------------------------------------------------------

  /** All chunks loaded are segments that the periods offer. */
  ghost predicate AllOffered(periods: seq<Period>, history: seq<Segment>) {
    forall i :: 0 <= i < |history| ==> Offered(periods, history[i])
  }

  ghost predicate CutInv(periods: seq<Period>, positionUs: int, p: Player)
    requires Playable(periods, positionUs)
  {
    Inv(periods, positionUs, p) && AllOffered(periods, p.history)
  }

  /** The evaluator keeps the first chunk of a queue, and no more than there are. */
  ghost predicate EvalOk(p: Player, eval: Evaluation)
    requires p.dropped <= |p.history|
  {
    eval.queueSize <= |Queue(p)| && (Queue(p) != [] ==> eval.queueSize > 0)
  }

  /** Before it asks, the caller sets the size to that of its queue. */
  ghost function Asking(p: Player): Operation
    requires p.dropped <= |p.history|
  {
    p.out.(queueSize := |Queue(p)|, endOfStream := false)
  }

  ghost predicate AskOk(periods: seq<Period>, positionUs: int, p: Player, eval: Evaluation) {
    && p.dropped <= |p.history| && EvalOk(p, eval)
    && OpOk(periods, p.mem, Queue(p), positionUs, eval, Asking(p))
  }

  ghost function Asked(periods: seq<Period>, positionUs: int, p: Player, eval: Evaluation): Player
    requires AskOk(periods, positionUs, p, eval)
  {
    var (mem, out) := NextOperation(periods, p.ready, p.mem, Queue(p), positionUs, eval, Asking(p));
    p.(mem := mem, out := out)
  }

  /** The caller gives up what the operation does not keep. */
  ghost function Cut(p: Player): Player
    requires p.dropped <= |p.history|
  {
    if p.dropped + p.out.queueSize < |p.history| then p.(history := p.history[..p.dropped + p.out.queueSize]) else p
  }

  ghost function AskAndCut(periods: seq<Period>, positionUs: int, p: Player, eval: Evaluation): Player
    requires AskOk(periods, positionUs, p, eval)
  {
    Cut(Asked(periods, positionUs, p, eval))
  }

  // ----- What remains after a cut ---------------------------------------------------

  /** What follows a slot in a list of slots is what remains after it. */
  ghost predicate FollowedByRest(periods: seq<Period>, slots: seq<Slot>, k: nat)
    requires k < |slots|
  {
    exists i :: && 0 <= i < |periods| && periods[i].key == slots[k].key
                && slots[k + 1..] == After(periods, i, slots[k].num)
  }

  lemma {:induction false} SlotsAreFollowed(periods: seq<Period>, i: nat, from: int, k: nat)
    requires i < |periods| && k < |Slots(periods[i], from)|
    ensures FollowedByRest(periods, Slots(periods[i], from) + Tail(periods, i + 1), k)
    decreases High(periods[i]) - from
  {
    var slots := Slots(periods[i], from) + Tail(periods, i + 1);
    SlotsThenTail(periods, i, from);
    if k == 0 {
      assert slots[1..] == After(periods, i, from);
    } else {
      SlotsAreFollowed(periods, i, from + 1, k - 1);
      var rest := Slots(periods[i], from + 1) + Tail(periods, i + 1);
      assert slots[1..] == rest;
      assert slots[k] == rest[k - 1] && slots[k + 1..] == rest[k..];
    }
  }

  lemma {:induction false} TailIsFollowed(periods: seq<Period>, i: nat, k: nat)
    requires i <= |periods| && k < |Tail(periods, i)|
    ensures FollowedByRest(periods, Tail(periods, i), k)
    decreases |periods| - i
  {
    if periods[i].media.reps == [] {
      TailIsFollowed(periods, i + 1, k);
    } else {
      ListIsFollowed(periods, i, Low(periods[i]), k);
    }
  }

  lemma {:induction false} ListIsFollowed(periods: seq<Period>, i: nat, from: int, k: nat)
    requires i < |periods| && k < |Slots(periods[i], from) + Tail(periods, i + 1)|
    ensures FollowedByRest(periods, Slots(periods[i], from) + Tail(periods, i + 1), k)
    decreases |periods| - i, 1
  {
    var first, tail := Slots(periods[i], from), Tail(periods, i + 1);
    if k < |first| {
      SlotsAreFollowed(periods, i, from, k);
    } else {
      TailIsFollowed(periods, i + 1, k - |first|);
      assert (first + tail)[k + 1..] == tail[k - |first| + 1..];
    }
  }

  lemma ExpectedIsFollowed(periods: seq<Period>, positionUs: int, k: nat)
    requires Playable(periods, positionUs) && k < |Expected(periods, positionUs)|
    ensures FollowedByRest(periods, Expected(periods, positionUs), k)
  {
    var i, from := ExpectedIsList(periods, positionUs);
    ListIsFollowed(periods, i, from, k);
  }

  lemma ExpectedIsList(periods: seq<Period>, positionUs: int) returns (i: nat, from: int)
    requires Playable(periods, positionUs) && Expected(periods, positionUs) != []
    ensures i < |periods| && Expected(periods, positionUs) == Slots(periods[i], from) + Tail(periods, i + 1)
  {
    i := FindPeriod(periods, positionUs).value;
    assert Aligned(periods[i], positionUs);
    from := StartNumber(periods[i], positionUs);
  }

  /** After a cut the segments that were cut remain, too. */
  lemma RemainsAfterCut(periods: seq<Period>, positionUs: int, history: seq<Segment>, n: nat)
    requires Playable(periods, positionUs) && n <= |history|
    requires SlotsOf(history) + Remaining(periods, positionUs, history) == Expected(periods, positionUs)
    ensures n <= |Expected(periods, positionUs)|
    ensures Remaining(periods, positionUs, history[..n]) == Expected(periods, positionUs)[n..]
    ensures SlotsOf(history[..n]) + Remaining(periods, positionUs, history[..n]) == Expected(periods, positionUs)
  {
    CutSlots(history, Remaining(periods, positionUs, history), Expected(periods, positionUs), n);
    CutRemains(periods, positionUs, history, n);
    var slots := Expected(periods, positionUs);
    assert slots[..n] + slots[n..] == slots;
  }

  lemma CutRemains(periods: seq<Period>, positionUs: int, history: seq<Segment>, n: nat)
    requires Playable(periods, positionUs) && n <= |history| && n <= |Expected(periods, positionUs)|
    requires n > 0 ==> Expected(periods, positionUs)[n - 1] == Slot(history[n - 1].key, history[n - 1].num)
    ensures Remaining(periods, positionUs, history[..n]) == Expected(periods, positionUs)[n..]
  {
    var slots := Expected(periods, positionUs);
    if n > 0 {
      ExpectedIsFollowed(periods, positionUs, n - 1);
      assert Last(history[..n]) == history[n - 1];
      RestIsAfter(periods, positionUs, history[..n], slots, n - 1);
    } else {
      assert history[..n] == [] && slots[n..] == slots;
    }
  }

  lemma CutSlots(history: seq<Segment>, rest: seq<Slot>, slots: seq<Slot>, n: nat)
    requires SlotsOf(history) + rest == slots && n <= |history|
    ensures n <= |slots| && SlotsOf(history[..n]) == slots[..n]
    ensures n > 0 ==> slots[n - 1] == Slot(history[n - 1].key, history[n - 1].num)
  {
  }

  lemma RestIsAfter(periods: seq<Period>, positionUs: int, queue: seq<Segment>, slots: seq<Slot>, k: nat)
    requires Playable(periods, positionUs) && queue != [] && k < |slots| && FollowedByRest(periods, slots, k)
    requires slots[k] == Slot(Last(queue).key, Last(queue).num)
    ensures Remaining(periods, positionUs, queue) == slots[k + 1..]
  {
    var i :| 0 <= i < |periods| && periods[i].key == slots[k].key && slots[k + 1..] == After(periods, i, slots[k].num);
    FindKeyIs(periods, positionUs, i);
  }

  /** A cut leaves a queue that the invariant allows, whatever chunk is at hand. */
  lemma CutKeepsQueue(periods: seq<Period>, positionUs: int, p: Player)
    requires Playable(periods, positionUs) && QueueInv(periods, positionUs, p) && AllOffered(periods, p.history)
    requires p.history != [] ==> p.out.queueSize > 0
    ensures QueueInv(periods, positionUs, Cut(p)) && AllOffered(periods, Cut(p).history)
    ensures Remaining(periods, positionUs, Cut(p).history) == Expected(periods, positionUs)[|Cut(p).history|..]
  {
    var n := |Cut(p).history|;
    RemainsAfterCut(periods, positionUs, p.history, n);
    assert Cut(p).history == p.history[..n];
    assert AllOffered(periods, p.history[..n]);
  }

  lemma AskedKeepsInv(periods: seq<Period>, positionUs: int, p: Player, eval: Evaluation)
    requires Playable(periods, positionUs) && CutInv(periods, positionUs, p) && AskOk(periods, positionUs, p, eval)
    ensures var u := Asked(periods, positionUs, p, eval);
            && u.history == p.history && u.dropped == p.dropped && u.ready == p.ready && Inv(periods, positionUs, u)
            && (p.history != [] ==> u.out.queueSize > 0)
            && (u.out.endOfStream <==> Remaining(periods, positionUs, p.history) == [])
            && (u.out.chunk.Some? <==> Remaining(periods, positionUs, p.history) != [] &&
                                       Decided(p.mem, |Queue(p)|, eval).format.Some?)
  {
    var q := p.(out := Asking(p));
    assert Inv(periods, positionUs, q);
    NextPlace(periods, positionUs, q);
    var place := Locate(periods, Queue(q), positionUs);
    if place.At? {
      FormatOkIff(periods, positionUs, q, place.period, eval);
      OperationKeepsInv(periods, positionUs, q, place, eval);
    }
  }

  // ----- When a cut loses segments --------------------------------------------------

  /** The evaluator is asked, and gives up part of the queue. */
  predicate GivesUp(p: Player, eval: Evaluation)
    requires p.dropped <= |p.history|
  {
    !Reuses(p.mem) && eval.queueSize < |p.history| - p.dropped
  }

  /** The history is cut if and only if something remains to be loaded and the evaluator gives up part of
      the queue. */
  lemma CutIff(periods: seq<Period>, positionUs: int, p: Player, eval: Evaluation)
    requires Playable(periods, positionUs) && CutInv(periods, positionUs, p) && AskOk(periods, positionUs, p, eval)
    ensures var u := AskAndCut(periods, positionUs, p, eval);
            var cut := Remaining(periods, positionUs, p.history) != [] && GivesUp(p, eval);
            && u.history == (if cut then p.history[..p.dropped + eval.queueSize] else p.history)
            && u.dropped == p.dropped && u.ready == p.ready
  {
    AskedSize(periods, positionUs, p, eval);
    var a := Asked(periods, positionUs, p, eval);
    assert a.history == p.history && a.dropped == p.dropped && a.ready == p.ready;
  }

  lemma AskedSize(periods: seq<Period>, positionUs: int, p: Player, eval: Evaluation)
    requires Playable(periods, positionUs) && CutInv(periods, positionUs, p) && AskOk(periods, positionUs, p, eval)
    ensures var cut := Remaining(periods, positionUs, p.history) != [] && GivesUp(p, eval);
            Asked(periods, positionUs, p, eval).out.queueSize == if cut then eval.queueSize else |p.history| - p.dropped
  {
    NextPlace(periods, positionUs, p);
    OperationKeepsAsDecided(periods, p.ready, p.mem, Queue(p), positionUs, eval, Asking(p));
  }

  /** The chunk at hand does not go with a cut: a media chunk, which then is not the next one, or an
      initialization for a format that the period of the first segment cut does not have. */
  ghost predicate Misleads(periods: seq<Period>, positionUs: int, u: Player)
    requires Playable(periods, positionUs)
  {
    u.out.chunk.Some? &&
    match u.out.chunk.value
    case MediaChunk(_) => true
    case InitChunk(_, id) => !NextHas(periods, Remaining(periods, positionUs, u.history), id)
  }

  /** Asking and cutting keeps the invariant if and only if nothing is cut or the chunk does not mislead. */
  lemma CutKeepsInvIff(periods: seq<Period>, positionUs: int, p: Player, eval: Evaluation)
    requires Playable(periods, positionUs) && CutInv(periods, positionUs, p) && AskOk(periods, positionUs, p, eval)
    ensures var u := AskAndCut(periods, positionUs, p, eval);
            CutInv(periods, positionUs, u) <==> u.history == p.history || !Misleads(periods, positionUs, u)
  {
    var a, u := Asked(periods, positionUs, p, eval), AskAndCut(periods, positionUs, p, eval);
    AskedKeepsInv(periods, positionUs, p, eval);
    CutKeepsQueue(periods, positionUs, a);
    if u.history != p.history && a.out.chunk.Some? && a.out.chunk.value.MediaChunk? {
      AllCutAreEarlier(periods, positionUs, a, a.out.chunk.value.segment, |u.history|);
      assert Remaining(periods, positionUs, u.history)[0] == Expected(periods, positionUs)[|u.history|];
    }
  }

  /** What was loaded is the beginning of what is expected. */
  ghost predicate InStep(periods: seq<Period>, positionUs: int, p: Player)
    requires Playable(periods, positionUs)
  {
    SlotsOf(p.history) <= Expected(periods, positionUs)
  }

  /** If a media chunk is handed out it is loaded in step if and only if nothing was cut: after a cut, the
      segments cut are passed over. */
  lemma CutPassesOverIff(periods: seq<Period>, positionUs: int, p: Player, eval: Evaluation, u: Player, s: Segment)
    requires Playable(periods, positionUs) && CutInv(periods, positionUs, p) && AskOk(periods, positionUs, p, eval)
    requires u == AskAndCut(periods, positionUs, p, eval) && u.out.chunk == Some(MediaChunk(s))
    ensures InStep(periods, positionUs, Loaded(u)) <==> !GivesUp(p, eval)
    ensures |p.history| < |Expected(periods, positionUs)|
    ensures forall k :: |u.history| <= k < |p.history| ==> Before(Expected(periods, positionUs)[k], Slot(s.key, s.num))
  {
    var a := CutShape(periods, positionUs, p, eval, u);
    CutPassesOver(periods, positionUs, a, s, |u.history|);
    LoadedSlots(u, s);
  }

  /** The state between asking and cutting. */
  lemma CutShape(periods: seq<Period>, positionUs: int, p: Player, eval: Evaluation, u: Player) returns (a: Player)
    requires Playable(periods, positionUs) && CutInv(periods, positionUs, p) && AskOk(periods, positionUs, p, eval)
    requires u == AskAndCut(periods, positionUs, p, eval)
    ensures Inv(periods, positionUs, a) && a.history == p.history && a.out == u.out
    ensures |u.history| <= |p.history| && u.history == a.history[..|u.history|]
    ensures u.out.chunk.Some? ==> (|u.history| < |p.history| <==> GivesUp(p, eval))
  {
    a := Asked(periods, positionUs, p, eval);
    AskedKeepsInv(periods, positionUs, p, eval);
    CutIff(periods, positionUs, p, eval);
  }

  /** The segment at hand comes next after the first `n` if and only if there are no more. */
  lemma CutPassesOver(periods: seq<Period>, positionUs: int, a: Player, s: Segment, n: nat)
    requires Playable(periods, positionUs) && Inv(periods, positionUs, a) && a.out.chunk == Some(MediaChunk(s))
    requires n <= |a.history|
    ensures var slots := Expected(periods, positionUs);
            && |a.history| < |slots|
            && (SlotsOf(a.history[..n]) + [Slot(s.key, s.num)] <= slots <==> n == |a.history|)
            && forall k :: n <= k < |a.history| ==> Before(slots[k], Slot(s.key, s.num))
  {
    var slots := Expected(periods, positionUs);
    CutSlots(a.history, Remaining(periods, positionUs, a.history), slots, n);
    NextInStepIff(SlotsOf(a.history[..n]), Slot(s.key, s.num), slots);
    HeldIsNext(periods, positionUs, a, s);
    AllCutAreEarlier(periods, positionUs, a, s, n);
  }

  lemma HeldIsNext(periods: seq<Period>, positionUs: int, a: Player, s: Segment)
    requires Playable(periods, positionUs) && Inv(periods, positionUs, a) && a.out.chunk == Some(MediaChunk(s))
    ensures |a.history| < |Expected(periods, positionUs)|
    ensures Expected(periods, positionUs)[|a.history|] == Slot(s.key, s.num)
  {
    assert Expected(periods, positionUs) == SlotsOf(a.history) + Remaining(periods, positionUs, a.history);
  }

  lemma AllCutAreEarlier(periods: seq<Period>, positionUs: int, a: Player, s: Segment, n: nat)
    requires Playable(periods, positionUs) && Inv(periods, positionUs, a) && a.out.chunk == Some(MediaChunk(s))
    requires n <= |a.history|
    ensures |a.history| < |Expected(periods, positionUs)|
    ensures forall k :: n <= k < |a.history| ==> Before(Expected(periods, positionUs)[k], Slot(s.key, s.num))
  {
    HeldIsNext(periods, positionUs, a, s);
    ExpectedIsAllInOrder(periods, positionUs);
  }

  lemma LoadedSlots(u: Player, s: Segment)
    requires u.out.chunk == Some(MediaChunk(s))
    ensures SlotsOf(Loaded(u).history) == SlotsOf(u.history) + [Slot(s.key, s.num)]
  {
  }

  lemma NextInStepIff(done: seq<Slot>, next: Slot, slots: seq<Slot>)
    requires done <= slots
    ensures done + [next] <= slots <==> |done| < |slots| && slots[|done|] == next
  {
    if |done| < |slots| && slots[|done|] == next {
      assert slots[..|done| + 1] == done + [next];
    }
  }

  // ----- Runs -----------------------------------------------------------------------

  ghost predicate MovesTo(periods: seq<Period>, positionUs: int, p: Player, e: Event, u: Player) {
    match e
    case Ask(eval) => AskOk(periods, positionUs, p, eval) && u == AskAndCut(periods, positionUs, p, eval)
    case Load => p.out.chunk.Some? && u == Loaded(p)
    case Drop(count) => (count > 0 ==> p.dropped + count < |p.history|) && u == p.(dropped := p.dropped + count)
  }

  ghost predicate IsRun(periods: seq<Period>, positionUs: int, states: seq<Player>, events: seq<Event>) {
    && |states| == |events| + 1
    && forall i :: 0 <= i < |events| ==> MovesTo(periods, positionUs, states[i], events[i], states[i + 1])
  }

  /** The event does not cut, or hands out no chunk that misleads. */
  ghost predicate Harmless(periods: seq<Period>, positionUs: int, p: Player, e: Event, u: Player)
    requires Playable(periods, positionUs)
  {
    e.Ask? ==> u.history == p.history || !Misleads(periods, positionUs, u)
  }

  lemma MoveKeepsInv(periods: seq<Period>, positionUs: int, p: Player, e: Event, u: Player)
    requires Playable(periods, positionUs) && CutInv(periods, positionUs, p) && MovesTo(periods, positionUs, p, e, u)
    requires Harmless(periods, positionUs, p, e, u)
    ensures CutInv(periods, positionUs, u)
  {
    match e
    case Ask(eval) => CutKeepsInvIff(periods, positionUs, p, eval);
    case Load =>
      LoadKeepsInv(periods, positionUs, p);
      LoadIsOffered(periods, positionUs, p);
    case Drop(_) =>
  }

  lemma LoadIsOffered(periods: seq<Period>, positionUs: int, p: Player)
    requires Playable(periods, positionUs) && CutInv(periods, positionUs, p) && p.out.chunk.Some?
    ensures AllOffered(periods, Loaded(p).history)
  {
  }

  /** In every run whose cuts are harmless, what has been loaded and not been cut is at all times the
      beginning of what is expected, and all of it when the end is announced. */
  lemma {:induction false} HarmlessCutsFetchExpected(periods: seq<Period>, positionUs: int, states: seq<Player>,
                                                     events: seq<Event>, i: nat)
    requires Playable(periods, positionUs) && IsRun(periods, positionUs, states, events) && i < |states|
    requires CutInv(periods, positionUs, states[0])
    requires forall k :: 0 <= k < i ==> Harmless(periods, positionUs, states[k], events[k], states[k + 1])
    ensures CutInv(periods, positionUs, states[i]) && InStep(periods, positionUs, states[i])
    ensures states[i].out.endOfStream ==> SlotsOf(states[i].history) == Expected(periods, positionUs)
  {
    if i > 0 {
      HarmlessCutsFetchExpected(periods, positionUs, states, events, i - 1);
      MoveKeepsInv(periods, positionUs, states[i - 1], events[i - 1], states[i]);
    }
    SoundIsInStep(periods, positionUs, states[i]);
  }

  lemma SoundIsInStep(periods: seq<Period>, positionUs: int, p: Player)
    requires Playable(periods, positionUs) && Inv(periods, positionUs, p)
    ensures InStep(periods, positionUs, p)
    ensures p.out.endOfStream ==> SlotsOf(p.history) == Expected(periods, positionUs)
  {
    assert SlotsOf(p.history) + [] == SlotsOf(p.history);
  }

  // ----- A cut that loses a segment -------------------------------------------------

  /** One period of three segments, in a low and in a higher quality. */
  function Choices(): seq<Period> {
    var index := Some(Explicit(Window(1, [0, 10000, 20000, 30000])));
    var holder := State(0, 30000, 0, index, index);
    [Period(0, 0, Media([Representation("a", false, holder), Representation("b", false, holder)], 0, 30000))]
  }

  /** Two of them loaded in low quality. */
  const TWO_LOADED := Player(Memory(Some("a"), false), {}, [Segment(0, "a", 1), Segment(0, "a", 2)], 0,
                             Operation(None, 2, false))

  lemma ChoicesExpect()
    ensures Playable(Choices(), 0)
    ensures Expected(Choices(), 0) == [Slot(0, 1), Slot(0, 2), Slot(0, 3)]
  {
    var p := Choices()[0];
    ChoicesAligned();
    ChoicesSlots(p);
    assert FindPeriod(Choices(), 0) == Some(0);
    assert Tail(Choices(), 1) == [];
  }

  lemma ChoicesAligned()
    ensures Aligned(Choices()[0], 0) && StartNumber(Choices()[0], 0) == 1
  {
    var p := Choices()[0];
    SegmentAtContains(p.media.reps[0].holder.index.value.window, 0, 0);
    SameIndexIsAligned(p, p.media.reps[0].holder, 0);
  }

  /** Representations that share a listed index are aligned. */
  lemma SameIndexIsAligned(p: Period, h: State, positionUs: int)
    requires p.media.reps != [] && forall r :: r in p.media.reps ==> r.holder == h
    requires h.index.Some? && h.index.value.Explicit? && ValidWindow(h.index.value.window)
    ensures Aligned(p, positionUs) && StartNumber(p, positionUs) == SegmentNum(h, positionUs)
  {
    assert p.media.reps[0] in p.media.reps;
    forall r | r in p.media.reps
      ensures AlignedRep(p, positionUs, r)
    {
    }
  }

  lemma ChoicesSlots(p: Period)
    requires p == Choices()[0]
    ensures Low(p) == 1 && High(p) == 3
    ensures Slots(p, 1) == [Slot(0, 1), Slot(0, 2), Slot(0, 3)] && Slots(p, 3) == [Slot(0, 3)]
  {
    assert High(p) == 3;
    assert Slots(p, 4) == [] && Slots(p, 3) == [Slot(0, 3)] && Slots(p, 2) == [Slot(0, 2), Slot(0, 3)];
  }

  lemma TwoLoadedIsSound()
    ensures Playable(Choices(), 0) && CutInv(Choices(), 0, TWO_LOADED)
    ensures AskOk(Choices(), 0, TWO_LOADED, Evaluation(Some("b"), 1))
    ensures Remaining(Choices(), 0, TWO_LOADED.history) == [Slot(0, 3)]
  {
    var periods := Choices();
    ChoicesExpect();
    TwoLoadedLeave();
    assert FindRep(periods[0].media.reps, "b").Some?;
    assert NextHas(periods, [Slot(0, 3)], "b");
    NextPlace(periods, 0, TWO_LOADED);
    var place := Locate(periods, Queue(TWO_LOADED), 0);
    NextHasFits(periods, 0, [Slot(0, 3)], place.period, "b");
  }

  lemma TwoLoadedLeave()
    ensures Playable(Choices(), 0) && CutInv(Choices(), 0, TWO_LOADED)
    ensures Remaining(Choices(), 0, TWO_LOADED.history) == [Slot(0, 3)]
  {
    var periods := Choices();
    ChoicesExpect();
    ChoicesSlots(periods[0]);
    assert FindRep(periods[0].media.reps, "a").Some?;
    assert OfferedBy(periods[0], TWO_LOADED.history[0]) && OfferedBy(periods[0], TWO_LOADED.history[1]);
    assert Tail(periods, 1) == [];
    assert SlotsOf(TWO_LOADED.history) == [Slot(0, 1), Slot(0, 2)];
  }

  /** The evaluator switches up and gives up the second of them. */
  lemma SecondIsGivenUp()
    ensures var a, b := Formats.Format("a", 1, 100, 640, 360), Formats.Format("b", 1, 200, 1280, 720);
            var queue := [Formats.QueuedChunk(0, 10000, a), Formats.QueuedChunk(10000, 20000, a)];
            var limits := Formats.Thresholds(10000, 25000, 10000);
            && Formats.SwitchesUp(Some(a), b, Formats.BufferedUs(queue, 0), limits)
            && Formats.IsCut(queue, b, 0, limits, 1)
  {
  }

  /** The chunk source hands out the third with that; once it is loaded, the second is missing. */
  lemma CutCanLoseSegment() returns (u: Player)
    ensures Playable(Choices(), 0) && CutInv(Choices(), 0, TWO_LOADED)
    ensures AskOk(Choices(), 0, TWO_LOADED, Evaluation(Some("b"), 1))
    ensures u == AskAndCut(Choices(), 0, TWO_LOADED, Evaluation(Some("b"), 1))
    ensures u.out.chunk.Some? && SlotsOf(Loaded(u).history) == [Slot(0, 1), Slot(0, 3)]
  {
    TwoLoadedIsSound();
    u := AskAndCut(Choices(), 0, TWO_LOADED, Evaluation(Some("b"), 1));
    var s := ThirdIsHandedOut(u);
    FirstIsKept(u);
    LoadedSlots(u, s);
  }

  lemma FirstIsKept(u: Player)
    requires AskOk(Choices(), 0, TWO_LOADED, Evaluation(Some("b"), 1))
    requires u == AskAndCut(Choices(), 0, TWO_LOADED, Evaluation(Some("b"), 1))
    ensures SlotsOf(u.history) == [Slot(0, 1)]
  {
    TwoLoadedIsSound();
    CutIff(Choices(), 0, TWO_LOADED, Evaluation(Some("b"), 1));
    assert u.history == [Segment(0, "a", 1)];
  }

  lemma ThirdIsHandedOut(u: Player) returns (s: Segment)
    requires AskOk(Choices(), 0, TWO_LOADED, Evaluation(Some("b"), 1))
    requires u == AskAndCut(Choices(), 0, TWO_LOADED, Evaluation(Some("b"), 1))
    ensures u.out.chunk == Some(MediaChunk(s)) && s.key == 0 && s.num == 3
  {
    TwoLoadedIsSound();
    AskedKeepsInv(Choices(), 0, TWO_LOADED, Evaluation(Some("b"), 1));
    assert Inits(Choices()) == {};
    s := u.out.chunk.value.segment;
  }

  // ----- The cut reaches the deque --------------------------------------------------

  /** The queue that the evaluator is shown is the deque. */
  ghost predicate Mirrors(chunks: seq<Buffers.MediaChunk>, queue: seq<Formats.QueuedChunk>) {
    |queue| == |chunks| &&
    forall i :: 0 <= i < |chunks| ==> queue[i].startUs == chunks[i].startUs && queue[i].endUs == chunks[i].endUs
  }

  /** What the chunk source, asked with the queue `segments`, says about the size, when the evaluator answers
      `r`. */
  ghost predicate HandsOut(periods: seq<Period>, ready: set<(int, string)>, mem: Memory, segments: seq<Segment>,
                           positionUs: int, r: Formats.FormatEvaluation, out: Operation, size: nat) {
    && r.format.Some? && var eval := Evaluation(Some(r.format.value.id), r.queueSize);
       && OpOk(periods, mem, segments, positionUs, eval, out) && Locate(periods, segments, positionUs).At?
       && size == NextOperation(periods, ready, mem, segments, positionUs, eval, out).1.queueSize
  }

  /** An update that evaluates, from the evaluator through the chunk source to the deque: if a format is used
      again the deque is kept whole; else it is cut before the first chunk after the head that is
      worth discarding, when switching up and there is one. A chunk whose load starts is added. */
  lemma CutReachesDeque(c: Buffered.Core, env: Buffered.Env, queue: seq<Formats.QueuedChunk>,
                        evaluation: Formats.FormatEvaluation, ideal: Formats.Format, limits: Formats.Thresholds,
                        r: Formats.FormatEvaluation, periods: seq<Period>, ready: set<(int, string)>, mem: Memory,
                        segments: seq<Segment>, positionUs: int, out: Operation)
    requires Buffered.UpdateOk(c, env) && Buffered.NeedsEvaluation(c, env) && Mirrors(c.buffer.chunks, queue)
    requires Formats.EvaluatesTo(queue, positionUs, evaluation, ideal, limits, r) && evaluation.queueSize == |queue|
    requires |segments| == |queue| && HandsOut(periods, ready, mem, segments, positionUs, r, out, env.op.queueSize)
    ensures var kept := Buffered.Evaluated(c, env).buffer.chunks;
            if && !Reuses(mem) && Formats.SomeDiscardable(queue, ideal, positionUs, limits)
               && Formats.SwitchesUp(evaluation.format, ideal, Formats.BufferedUs(queue, positionUs), limits)
            then && |kept| < |c.buffer.chunks| && kept == c.buffer.chunks[..|kept|]
                 && Formats.IsCut(queue, ideal, positionUs, limits, |kept|)
            else kept == c.buffer.chunks
    ensures var kept := Buffered.Evaluated(c, env).buffer.chunks;
            var chunks := Buffered.UpdateLoadControl(c, env).buffer.chunks;
            chunks == kept || (|chunks| == |kept| + 1 && chunks[..|kept|] == kept)
  {
    OperationKeepsAsDecided(periods, ready, mem, segments, positionUs, Evaluation(Some(r.format.value.id), r.queueSize),
                            out);
  }
}
