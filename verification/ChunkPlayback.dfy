/**
 Playback as a run: the caller asks for operations, loads the chunks it is given, and drops
 chunks it has played, in any order. Every run fetches the expected segments, each once and
 in order, and needs a bounded number of loads.
 */
module ChunkPlayback {
  import opened Samples
  import opened SegmentIndexes
  import opened RepresentationHolders
  import opened DashPeriods
  import opened ChunkSchedules

  /** `history` is every media chunk loaded so far; all but the first `dropped` are still queued. */
  datatype Player = Player(mem: Memory, ready: set<(int, string)>, history: seq<Segment>, dropped: nat, out: Operation)

  datatype Event =
    | Ask(eval: Evaluation)
    | Load
    | Drop(count: nat)

  ghost function Queue(p: Player): seq<Segment>
    requires p.dropped <= |p.history|
  {
    p.history[p.dropped..]
  }

  /** The next segment is in a period that has the format. */
  ghost predicate NextHas(periods: seq<Period>, rest: seq<Slot>, id: string) {
    && rest != []
    && exists i :: 0 <= i < |periods| && periods[i].key == rest[0].key && FindRep(periods[i].media.reps, id).Some?
  }

  /** The initializations there are to load. */
  ghost function Inits(periods: seq<Period>): set<(int, string)> {
    set i, r | 0 <= i < |periods| && r in periods[i].media.reps && r.hasInitialization :: (periods[i].key, r.id)
  }

  ghost function SlotsOf(history: seq<Segment>): seq<Slot> {
    seq(|history|, i requires 0 <= i < |history| => Slot(history[i].key, history[i].num))
  }

  // ----- Invariant ------------------------------------------------------------------

  ghost predicate QueueInv(periods: seq<Period>, positionUs: int, p: Player)
    requires Playable(periods, positionUs)
  {
    && p.dropped <= |p.history|
    && (p.history != [] ==> p.dropped < |p.history| && Offered(periods, Last(p.history)))
    && SlotsOf(p.history) + Remaining(periods, positionUs, p.history) == Expected(periods, positionUs)
  }

  /** The operation held: the next segment, or an initialization that is needed for it. */
  ghost predicate OutInv(periods: seq<Period>, rest: seq<Slot>, p: Player) {
    && (p.out.endOfStream ==> rest == [])
    && match p.out.chunk
       case None => true
       case Some(MediaChunk(s)) =>
         rest != [] && Offered(periods, s) && rest[0] == Slot(s.key, s.num) && !p.mem.lastWasInit
       case Some(InitChunk(key, id)) =>
         NextHas(periods, rest, id) && (key, id) in Inits(periods) - p.ready && p.mem == Memory(Some(id), true)
  }

  ghost predicate Inv(periods: seq<Period>, positionUs: int, p: Player)
    requires Playable(periods, positionUs)
  {
    QueueInv(periods, positionUs, p) && OutInv(periods, Remaining(periods, positionUs, p.history), p)
  }

  /** After an initialization was handed out its format is used again without asking the evaluator. */
  predicate Reuses(mem: Memory) {
    mem.lastWasInit && mem.format.Some?
  }

  /** A format to be used again is one that the next period has. */
  ghost predicate Remembers(periods: seq<Period>, positionUs: int, p: Player)
    requires Playable(periods, positionUs)
  {
    var rest := Remaining(periods, positionUs, p.history);
    Reuses(p.mem) && rest != [] ==> NextHas(periods, rest, p.mem.format.value)
  }

  // ----- Steps ----------------------------------------------------------------------

  /** The evaluator keeps the queue, and the operation is defined; only a chunk at hand is loaded; the
      last chunk stays queued. */
  ghost predicate EventOk(periods: seq<Period>, positionUs: int, p: Player, e: Event)
    requires Playable(periods, positionUs) && p.dropped <= |p.history|
  {
    match e
    case Ask(eval) => eval.queueSize == |Queue(p)| && OpOk(periods, p.mem, Queue(p), positionUs, eval, p.out)
    case Load => p.out.chunk.Some?
    case Drop(count) => count > 0 ==> p.dropped + count < |p.history|
  }

  ghost function Loaded(p: Player): Player
    requires p.out.chunk.Some?
  {
    var p1 := p.(out := p.out.(chunk := None));
    match p.out.chunk.value
    case MediaChunk(s) => p1.(history := p.history + [s])
    case InitChunk(key, id) => p1.(ready := p.ready + {(key, id)})
  }

  ghost function Step(periods: seq<Period>, positionUs: int, p: Player, e: Event): Player
    requires Playable(periods, positionUs) && Inv(periods, positionUs, p) && EventOk(periods, positionUs, p, e)
  {
    match e
    case Ask(eval) =>
      var (mem, out) := NextOperation(periods, p.ready, p.mem, Queue(p), positionUs, eval, p.out);
      p.(mem := mem, out := out)
    case Load => Loaded(p)
    case Drop(count) => p.(dropped := p.dropped + count)
  }

  lemma NextHasFits(periods: seq<Period>, positionUs: int, rest: seq<Slot>, i: nat, id: string)
    requires Playable(periods, positionUs) && i < |periods|
    requires NextHas(periods, rest, id) && periods[i].key == rest[0].key
    ensures FindRep(periods[i].media.reps, id).Some? && Aligned(periods[i], positionUs) && Fits(periods[i], id)
  {
    var j :| 0 <= j < |periods| && periods[j].key == rest[0].key && FindRep(periods[j].media.reps, id).Some?;
    FindKeyIs(periods, positionUs, i);
    FindKeyIs(periods, positionUs, j);
    assert Aligned(periods[i], positionUs);
    RepNumbers(periods[i], positionUs, id);
  }

  /** Dropping played chunks changes nothing for what comes next. */
  lemma QueueIsLikeHistory(periods: seq<Period>, positionUs: int, p: Player)
    requires Playable(periods, positionUs) && QueueInv(periods, positionUs, p)
    ensures (Queue(p) == [] <==> p.history == [])
    ensures Queue(p) != [] ==> Last(Queue(p)) == Last(p.history)
    ensures Remaining(periods, positionUs, Queue(p)) == Remaining(periods, positionUs, p.history)
  {
  }

  /** In every reachable state, the representations that the operation looks up without a check are
      there if and only if nothing remains, no format was decided on, or the period of the next
      segment has the decided format. */
  lemma AskIsDefinedIff(periods: seq<Period>, positionUs: int, p: Player, eval: Evaluation)
    requires Playable(periods, positionUs) && Inv(periods, positionUs, p)
    ensures var rest := Remaining(periods, positionUs, p.history);
            var format := Decided(p.mem, |Queue(p)|, eval).format;
            OpOk(periods, p.mem, Queue(p), positionUs, eval, p.out) <==>
              rest == [] || format.None? || NextHas(periods, rest, format.value)
  {
    NextPlace(periods, positionUs, p);
    var place := Locate(periods, Queue(p), positionUs);
    if place.At? {
      FormatOkIff(periods, positionUs, p, place.period, eval);
    }
  }

  /** Where the next chunk comes from, in terms of what remains. */
  lemma NextPlace(periods: seq<Period>, positionUs: int, p: Player)
    requires Playable(periods, positionUs) && QueueInv(periods, positionUs, p)
    ensures QueueOk(periods, Queue(p))
    ensures var place := Locate(periods, Queue(p), positionUs);
            var rest := Remaining(periods, positionUs, p.history);
            && (place.End? <==> rest == [])
            && (place.At? ==> IsNext(periods, positionUs, Queue(p), place, rest[0].num, rest))
  {
    QueueIsLikeHistory(periods, positionUs, p);
    LocateIsNext(periods, positionUs, Queue(p));
  }

  /** A chunk that is kept is of a format that the next period has, too. */
  lemma FormatOkIff(periods: seq<Period>, positionUs: int, p: Player, i: nat, eval: Evaluation)
    requires Playable(periods, positionUs) && Inv(periods, positionUs, p) && i < |periods|
    requires var rest := Remaining(periods, positionUs, p.history); rest != [] && periods[i].key == rest[0].key
    ensures var rest := Remaining(periods, positionUs, p.history);
            var format := Decided(p.mem, |Queue(p)|, eval).format;
            FormatOk(periods[i], p.mem, |Queue(p)|, eval, p.out) <==>
                format.None? || NextHas(periods, rest, format.value)
  {
    var rest := Remaining(periods, positionUs, p.history);
    var decided := Decided(p.mem, |Queue(p)|, eval);
    if KeepsChunk(decided, |Queue(p)|, p.out) {
      KeptIsNext(periods, rest, p);
    } else if decided.format.Some? && NextHas(periods, rest, decided.format.value) {
      NextHasFits(periods, positionUs, rest, i, decided.format.value);
    }
  }

  lemma KeptIsNext(periods: seq<Period>, rest: seq<Slot>, p: Player)
    requires OutInv(periods, rest, p) && p.out.chunk.Some?
    ensures NextHas(periods, rest, p.out.chunk.value.Format())
  {
    if p.out.chunk.value.MediaChunk? {
      var s := p.out.chunk.value.segment;
      var i :| 0 <= i < |periods| && OfferedBy(periods[i], s);
    }
  }

  /** The chunk asked for is the next segment or its initialization. */
  lemma ChunkForIsNext(periods: seq<Period>, positionUs: int, p: Player, place: Place, id: string)
    requires Playable(periods, positionUs) && QueueInv(periods, positionUs, p) && place.At?
    requires var rest := Remaining(periods, positionUs, p.history);
             && rest != [] && IsNext(periods, positionUs, Queue(p), place, rest[0].num, rest)
             && NextHas(periods, rest, id)
    ensures Fits(periods[place.period], id)
    ensures var rest := Remaining(periods, positionUs, p.history);
            var chunk := ChunkFor(periods[place.period], p.ready, id, Queue(p), place.startsPeriod, positionUs);
            && chunk.Format() == id
            && (chunk.MediaChunk? ==>
                  Offered(periods, chunk.segment) && rest[0] == Slot(chunk.segment.key, chunk.segment.num))
            && (chunk.InitChunk? ==> (chunk.key, chunk.id) in Inits(periods) - p.ready)
  {
    var rest := Remaining(periods, positionUs, p.history);
    var period := periods[place.period];
    NextHasFits(periods, positionUs, rest, place.period, id);
    RepNumbers(period, positionUs, id);
    var chunk := ChunkFor(period, p.ready, id, Queue(p), place.startsPeriod, positionUs);
    if chunk.MediaChunk? {
      assert OfferedBy(period, chunk.segment);
    } else {
      var rep := FindRep(period.media.reps, id).value;
      assert rep in period.media.reps && (period.key, rep.id) in Inits(periods);
    }
  }

  /** Asking keeps the invariant; it gives a chunk exactly when one remains and a format was decided
      on, and the end of the stream exactly when none remains. Afterwards a format to be used
      again is one that the next period has. */
  lemma AskKeepsInv(periods: seq<Period>, positionUs: int, p: Player, eval: Evaluation)
    requires Playable(periods, positionUs) && Inv(periods, positionUs, p) && EventOk(periods, positionUs, p, Ask(eval))
    ensures var u := Step(periods, positionUs, p, Ask(eval));
            var rest := Remaining(periods, positionUs, p.history);
            && Inv(periods, positionUs, u) && u.history == p.history && u.ready == p.ready
            && Remembers(periods, positionUs, u)
            && (u.out.chunk.Some? <==> rest != [] && Decided(p.mem, |Queue(p)|, eval).format.Some?)
            && (u.out.endOfStream <==> rest == [])
  {
    NextPlace(periods, positionUs, p);
    if Locate(periods, Queue(p), positionUs).At? {
      AskInPeriod(periods, positionUs, p, eval);
    }
  }

  lemma AskInPeriod(periods: seq<Period>, positionUs: int, p: Player, eval: Evaluation)
    requires Playable(periods, positionUs) && Inv(periods, positionUs, p) && EventOk(periods, positionUs, p, Ask(eval))
    requires Locate(periods, Queue(p), positionUs).At?
    ensures var u := Step(periods, positionUs, p, Ask(eval));
            && Inv(periods, positionUs, u) && u.history == p.history && u.ready == p.ready
            && Remembers(periods, positionUs, u)
            && (u.out.chunk.Some? <==> Decided(p.mem, |Queue(p)|, eval).format.Some?)
            && !u.out.endOfStream
  {
    NextPlace(periods, positionUs, p);
    var place := Locate(periods, Queue(p), positionUs);
    FormatOkIff(periods, positionUs, p, place.period, eval);
    OperationKeepsInv(periods, positionUs, p, place, eval);
  }

  lemma OperationKeepsInv(periods: seq<Period>, positionUs: int, p: Player, place: Place, eval: Evaluation)
    requires Playable(periods, positionUs) && Inv(periods, positionUs, p) && place.At?
    requires var rest := Remaining(periods, positionUs, p.history);
             var format := Decided(p.mem, |Queue(p)|, eval).format;
             && rest != [] && IsNext(periods, positionUs, Queue(p), place, rest[0].num, rest)
             && (format.Some? ==> NextHas(periods, rest, format.value))
    requires FormatOk(periods[place.period], p.mem, |Queue(p)|, eval, p.out)
    ensures var (mem, out) := OperationIn(periods[place.period], place.startsPeriod, p.ready, p.mem, Queue(p),
                                          positionUs, eval, p.out);
            && OutInv(periods, Remaining(periods, positionUs, p.history), p.(mem := mem, out := out))
            && mem.format == Decided(p.mem, |Queue(p)|, eval).format
            && (out.chunk.Some? <==> Decided(p.mem, |Queue(p)|, eval).format.Some?)
            && out.endOfStream == p.out.endOfStream
  {
    var format := Decided(p.mem, |Queue(p)|, eval).format;
    if format.Some? {
      ChunkForIsNext(periods, positionUs, p, place, format.value);
    }
  }

  ghost function Measure(periods: seq<Period>, positionUs: int, p: Player): nat
    requires Playable(periods, positionUs)
  {
    |Remaining(periods, positionUs, p.history)| + |Inits(periods) - p.ready|
  }

  /** Loading keeps the invariant and leaves less to load. */
  lemma LoadKeepsInv(periods: seq<Period>, positionUs: int, p: Player)
    requires Playable(periods, positionUs) && Inv(periods, positionUs, p) && p.out.chunk.Some?
    ensures Inv(periods, positionUs, Loaded(p))
    ensures Measure(periods, positionUs, Loaded(p)) == Measure(periods, positionUs, p) - 1
  {
    match p.out.chunk.value
    case MediaChunk(s) => LoadMediaKeepsInv(periods, positionUs, p, s);
    case InitChunk(key, id) =>
      assert Inits(periods) - Loaded(p).ready == (Inits(periods) - p.ready) - {(key, id)};
  }

  lemma LoadMediaKeepsInv(periods: seq<Period>, positionUs: int, p: Player, s: Segment)
    requires Playable(periods, positionUs) && Inv(periods, positionUs, p) && p.out.chunk == Some(MediaChunk(s))
    ensures Inv(periods, positionUs, Loaded(p))
    ensures Measure(periods, positionUs, Loaded(p)) == Measure(periods, positionUs, p) - 1
  {
    var rest, rest' := Remaining(periods, positionUs, p.history), Remaining(periods, positionUs, p.history + [s]);
    RemainingAfterNext(periods, positionUs, p.history, s);
    SlotsAppend(p.history, s, rest');
    assert QueueInv(periods, positionUs, Loaded(p));
  }

  lemma SlotsAppend(history: seq<Segment>, s: Segment, rest: seq<Slot>)
    ensures SlotsOf(history) + ([Slot(s.key, s.num)] + rest) == SlotsOf(history + [s]) + rest
  {
    assert SlotsOf(history + [s]) == SlotsOf(history) + [Slot(s.key, s.num)];
  }

  lemma RemainingAfterNext(periods: seq<Period>, positionUs: int, history: seq<Segment>, s: Segment)
    requires Playable(periods, positionUs) && (history != [] ==> Offered(periods, Last(history)))
    requires var rest := Remaining(periods, positionUs, history); rest != [] && rest[0] == Slot(s.key, s.num)
    ensures Remaining(periods, positionUs, history) ==
            [Slot(s.key, s.num)] + Remaining(periods, positionUs, history + [s])
  {
    LocateIsNext(periods, positionUs, history);
    var place := Locate(periods, history, positionUs);
    FindKeyIs(periods, positionUs, place.period);
    RemainingIsAfter(periods, positionUs, history, s, place.period);
  }

  lemma RemainingIsAfter(periods: seq<Period>, positionUs: int, history: seq<Segment>, s: Segment, i: nat)
    requires Playable(periods, positionUs) && i < |periods| && FindKey(periods, s.key, 0) == Some(i)
    ensures Remaining(periods, positionUs, history + [s]) == After(periods, i, s.num)
  {
    assert Last(history + [s]) == s;
  }

  lemma StepKeepsInv(periods: seq<Period>, positionUs: int, p: Player, e: Event)
    requires Playable(periods, positionUs) && Inv(periods, positionUs, p) && EventOk(periods, positionUs, p, e)
    ensures var u := Step(periods, positionUs, p, e);
            && Inv(periods, positionUs, u)
            && (e.Ask? || Remembers(periods, positionUs, p) ==> Remembers(periods, positionUs, u))
            && Measure(periods, positionUs, u) == Measure(periods, positionUs, p) - if e.Load? then 1 else 0
  {
    match e
    case Ask(eval) => AskKeepsInv(periods, positionUs, p, eval);
    case Load => LoadKeepsInv(periods, positionUs, p);
    case Drop(count) =>
  }

  // ----- Runs -----------------------------------------------------------------------

  ghost predicate Reaches(periods: seq<Period>, positionUs: int, p: Player, events: seq<Event>, u: Player)
    requires Playable(periods, positionUs) && Inv(periods, positionUs, p)
    decreases |events|
  {
    if events == [] then p == u
    else
      && EventOk(periods, positionUs, p, events[0])
      && (StepKeepsInv(periods, positionUs, p, events[0]);
          Reaches(periods, positionUs, Step(periods, positionUs, p, events[0]), events[1..], u))
  }

  function Loads(events: seq<Event>): nat {
    if events == [] then 0 else (if events[0].Load? then 1 else 0) + Loads(events[1..])
  }

  /** Playback from a position: whatever formats the evaluator picks and however asking, loading and
      dropping interleave, what has been loaded is a prefix of the expected segments, the end of
      the stream is announced only when all of them are loaded, and every load brings the end
      nearer by one. */
  lemma {:induction false} PlaybackFetchesExpected(periods: seq<Period>, positionUs: int, p: Player,
                                                   events: seq<Event>, u: Player)
    requires Playable(periods, positionUs) && Inv(periods, positionUs, p) && Reaches(periods, positionUs, p, events, u)
    ensures Inv(periods, positionUs, u)
    ensures SlotsOf(u.history) + Remaining(periods, positionUs, u.history) == Expected(periods, positionUs)
    ensures u.out.endOfStream ==> SlotsOf(u.history) == Expected(periods, positionUs)
    ensures Loads(events) + Measure(periods, positionUs, u) == Measure(periods, positionUs, p)
    decreases |events|
  {
    if events == [] {
      assert u.out.endOfStream ==> SlotsOf(u.history) + [] == SlotsOf(u.history);
    } else {
      StepKeepsInv(periods, positionUs, p, events[0]);
      PlaybackFetchesExpected(periods, positionUs, Step(periods, positionUs, p, events[0]), events[1..], u);
    }
  }

  /** A new player satisfies the invariant; no run of it loads more than the expected segments and
      the initializations. */
  lemma PlaybackIsBounded(periods: seq<Period>, positionUs: int, mem: Memory, events: seq<Event>, u: Player)
    requires Playable(periods, positionUs) && mem.format.None?
    ensures var p := Player(mem, {}, [], 0, Operation(None, 0, false));
            && Inv(periods, positionUs, p) && Remembers(periods, positionUs, p)
            && (Reaches(periods, positionUs, p, events, u) ==>
                  Loads(events) <= |Expected(periods, positionUs)| + |Inits(periods)|)
  {
    var p := Player(mem, {}, [], 0, Operation(None, 0, false));
    assert SlotsOf([]) + Expected(periods, positionUs) == Expected(periods, positionUs);
    if Reaches(periods, positionUs, p, events, u) {
      PlaybackFetchesExpected(periods, positionUs, p, events, u);
      assert Inits(periods) - {} == Inits(periods);
    }
  }

  /** Asking and loading in turn, with any policy that picks formats on offer, reaches the end of the
      stream: all expected segments are loaded after at most twice as many steps as there were
      things to load, and one more. */
  lemma {:induction false} PlaybackReachesEnd(periods: seq<Period>, positionUs: int, p: Player,
                                              policy: Player -> Evaluation)
    returns (events: seq<Event>, u: Player)
    requires Playable(periods, positionUs) && Inv(periods, positionUs, p) && Remembers(periods, positionUs, p)
    requires forall q :: Inv(periods, positionUs, q) && Remembers(periods, positionUs, q) ==>
                           EventOk(periods, positionUs, q, Ask(policy(q))) && policy(q).format.Some?
    ensures Reaches(periods, positionUs, p, events, u)
    ensures u.out.endOfStream && SlotsOf(u.history) == Expected(periods, positionUs)
    ensures |events| <= 2 * Measure(periods, positionUs, p) + 1
    decreases Measure(periods, positionUs, p)
  {
    var ask := Ask(policy(p));
    StepKeepsInv(periods, positionUs, p, ask);
    var asked := Step(periods, positionUs, p, ask);
    AskGives(periods, positionUs, p, policy(p));
    if asked.out.endOfStream {
      u := asked;
      events := [ask];
      ReachesFirst(periods, positionUs, p, ask, [], u);
      assert [ask] + [] == events;
    } else {
      StepKeepsInv(periods, positionUs, asked, Load);
      var rest;
      rest, u := PlaybackReachesEnd(periods, positionUs, Loaded(asked), policy);
      ReachesFirst(periods, positionUs, asked, Load, rest, u);
      ReachesFirst(periods, positionUs, p, ask, [Load] + rest, u);
      events := [ask] + ([Load] + rest);
    }
  }

  lemma AskGives(periods: seq<Period>, positionUs: int, p: Player, eval: Evaluation)
    requires Playable(periods, positionUs) && Inv(periods, positionUs, p) && EventOk(periods, positionUs, p, Ask(eval))
    requires eval.format.Some?
    ensures var u := Step(periods, positionUs, p, Ask(eval));
            if u.out.endOfStream then SlotsOf(u.history) == Expected(periods, positionUs) else u.out.chunk.Some?
  {
    AskKeepsInv(periods, positionUs, p, eval);
    assert SlotsOf(p.history) + [] == SlotsOf(p.history);
  }

  lemma ReachesFirst(periods: seq<Period>, positionUs: int, p: Player, e: Event, rest: seq<Event>, u: Player)
    requires Playable(periods, positionUs) && Inv(periods, positionUs, p) && EventOk(periods, positionUs, p, e)
    requires Inv(periods, positionUs, Step(periods, positionUs, p, e))
    requires Reaches(periods, positionUs, Step(periods, positionUs, p, e), rest, u)
    ensures Reaches(periods, positionUs, p, [e] + rest, u)
  {
    assert ([e] + rest)[1..] == rest;
  }

  // ----- What the expected segments are ---------------------------------------------

  ghost predicate InOrder(slots: seq<Slot>) {
    forall a, b :: 0 <= a < b < |slots| ==> Before(slots[a], slots[b])
  }

  ghost predicate Before(a: Slot, b: Slot) {
    a.key < b.key || (a.key == b.key && a.num < b.num)
  }

  lemma {:induction false} SlotsAre(p: Period, from: int)
    ensures InOrder(Slots(p, from))
    ensures forall s :: s in Slots(p, from) <==> s.key == p.key && from <= s.num <= High(p)
    decreases High(p) - from
  {
    if from <= High(p) {
      SlotsAre(p, from + 1);
      var rest := Slots(p, from + 1);
      assert forall a :: 0 <= a < |rest| ==> rest[a] in rest;
    }
  }

  /** A slot of one of the periods from the `i`-th on that have representations. */
  ghost predicate SlotFrom(periods: seq<Period>, i: nat, s: Slot) {
    exists j :: i <= j < |periods| && SlotIn(periods[j], s)
  }

  ghost predicate SlotIn(p: Period, s: Slot) {
    p.media.reps != [] && s.key == p.key && Low(p) <= s.num <= High(p)
  }

  lemma InOrderConcat(a: seq<Slot>, b: seq<Slot>, key: int)
    requires InOrder(a) && InOrder(b)
    requires (forall s :: s in a ==> s.key == key) && (forall s :: s in b ==> key < s.key)
    ensures InOrder(a + b)
  {
    forall i, j | 0 <= i < j < |a + b|
      ensures Before((a + b)[i], (a + b)[j])
    {
      assert i < |a| <= j ==> a[i] in a && b[j - |a|] in b;
    }
  }

  lemma {:induction false} TailIs(periods: seq<Period>, positionUs: int, i: nat)
    requires Playable(periods, positionUs) && i <= |periods|
    ensures InOrder(Tail(periods, i))
    ensures forall s :: s in Tail(periods, i) <==> SlotFrom(periods, i, s)
    decreases |periods| - i
  {
    if i < |periods| {
      var p := periods[i];
      TailIs(periods, positionUs, i + 1);
      SlotsAre(p, Low(p));
      assert forall s :: SlotFrom(periods, i, s) <==> SlotIn(p, s) || SlotFrom(periods, i + 1, s);
      LaterSlotsFollow(periods, positionUs, i);
      if p.media.reps != [] {
        InOrderConcat(Slots(p, Low(p)), Tail(periods, i + 1), p.key);
      }
    }
  }

  lemma LaterSlotsFollow(periods: seq<Period>, positionUs: int, i: nat)
    requires Playable(periods, positionUs) && i < |periods|
    ensures forall s :: SlotFrom(periods, i + 1, s) ==> periods[i].key < s.key
  {
  }

  /** The expected segments are exactly those of the starting period from the segment at the position
      on, and all those of the later periods that have representations; in order and each once. */
  lemma ExpectedIsAllInOrder(periods: seq<Period>, positionUs: int)
    requires Playable(periods, positionUs)
    ensures var found := FindPeriod(periods, positionUs);
            var slots := Expected(periods, positionUs);
            && InOrder(slots)
            && (found.None? ==> slots == [])
            && (found.Some? ==>
                  forall s :: s in slots <==>
                                || (&& s.key == periods[found.value].key
                                    && StartNumber(periods[found.value], positionUs) <= s.num
                                    && s.num <= High(periods[found.value]))
                                || SlotFrom(periods, found.value + 1, s))
  {
    var found := FindPeriod(periods, positionUs);
    if found.Some? {
      var p := periods[found.value];
      assert Aligned(p, positionUs);
      SlotsAre(p, StartNumber(p, positionUs));
      TailIs(periods, positionUs, found.value + 1);
      LaterSlotsFollow(periods, positionUs, found.value);
      InOrderConcat(Slots(p, StartNumber(p, positionUs)), Tail(periods, found.value + 1), p.key);
    }
  }

  // ----- An example -----------------------------------------------------------------

  /** A presentation of three periods: two listed segments, a period without the track, and two
      segments of equal duration of which the last one is cut short. */
  function Example(): seq<Period> {
    var listed := Some(Explicit(Window(1, [0, 10000, 20000])));
    var equal := Some(Derived(5, 10000));
    [Period(0, 0, Media([Representation("a", true, State(0, 20000, 0, listed, listed))], 0, 20000)),
     Period(1, 20, Media([], 20000, 30000)),
     Period(2, 30, Media([Representation("b", false, State(30000, 15000, 7, equal, equal))], 30000, 45000))]
  }

  /** It can be played from any position. */
  lemma ExampleIsPlayable(positionUs: int)
    ensures Playable(Example(), positionUs)
    ensures Inits(Example()) == {(0, "a")}
  {
    FirstIsAligned(positionUs);
    LastIsAligned(positionUs);
  }

  lemma FirstIsAligned(positionUs: int)
    ensures Aligned(Example()[0], positionUs)
  {
    var p := Example()[0];
    assert AlignedRep(p, positionUs, p.media.reps[0]);
  }

  lemma LastIsAligned(positionUs: int)
    ensures Aligned(Example()[2], positionUs)
  {
    assert AlignedRep(Example()[2], positionUs, Example()[2].media.reps[0]);
  }

  lemma ExampleTail()
    ensures Tail(Example(), 1) == [Slot(2, 12), Slot(2, 13)]
  {
    var periods := Example();
    var q := periods[2];
    assert Low(q) == 12 && High(q) == 13;
    assert Slots(q, 13) == [Slot(2, 13)] && Slots(q, 12) == [Slot(2, 12), Slot(2, 13)];
    assert Tail(periods, 3) == [];
    assert Tail(periods, 2) == [Slot(2, 12), Slot(2, 13)];
  }

  /** The second segment, and then those of the third period. */
  lemma ExampleExpects()
    ensures Playable(Example(), 12000)
    ensures Expected(Example(), 12000) == [Slot(0, 2), Slot(2, 12), Slot(2, 13)]
  {
    ExampleIsPlayable(12000);
    ExampleTail();
    var p := Example()[0];
    SegmentAtContains(p.media.reps[0].holder.index.value.window, 12000, 1);
    assert High(p) == 2;
    assert Slots(p, 2) == [Slot(0, 2)];
    assert FindPeriod(Example(), 12000) == Some(0);
  }
}
