/**
 The chunk sample source as a state machine. Calls of the player, commits of the loading
 thread and load outcomes are events; what the chunk source, the clock and the load control
 answer is part of the event. The functions follow the code, and each requires only what
 makes it defined: that `front()` and `back()` have an element, and that the sample
 queue's index check holds. The invariant, which shows that these always hold, is in
 module `SourceSafety`.
 */
module BufferedSource {
  import opened Samples
  import SampleQueue
  import opened InfoQueues
  import opened TrackOutputs
  import opened ChunkBuffers

  /** The sentinel for "no reset pending", the least 64-bit integer. */
  const NO_RESET: int := -0x8000_0000_0000_0000

  datatype Phase = Idle | Initialized | Prepared | Enabled | Disabling

  /** A chunk handed out by the chunk source. */
  datatype Loadable =
    | Media(id: nat, startUs: int, endUs: int)
    | Init(id: nat)

  /** The operation holder: the pointed-to chunk and whether the holder still owns it. */
  datatype Holder = Holder(chunk: Option<Loadable>, owned: bool, queueSize: nat)

  datatype Loader = Resting | Loading(chunk: nat, canceled: bool)

  /** The life cycle: phase, track count, a posted disable, and the done callbacks asked for, run,
      and still to run. */
  datatype Life = Life(phase: Phase, tracks: int, posted: bool, callback: Option<nat>, asked: seq<nat>, ran: seq<nat>)

  /** What the reader sees: positions, a pending discontinuity and the last format. */
  datatype Play = Play(downstreamUs: int, lastSeekUs: int, discontinuity: bool, format: Option<nat>)

  /** What is being loaded. */
  datatype Load = Load(
    pendingReset: int,
    finished: bool,
    holder: Holder,
    backedOff: bool,
    errorCount: nat,
    loader: Loader,
    nextId: nat)

  /** The part of the state that loading works on. */
  datatype Core = Core(buffer: Buffer, load: Load) {
    predicate IsPendingReset() {
      load.pendingReset != NO_RESET
    }

    predicate HoldsMedia() {
      load.holder.chunk.Some? && load.holder.chunk.value.Media?
    }
  }

  datatype Source = Source(life: Life, play: Play, core: Core)

  const INITIAL := Source(
    Life(Idle, 0, false, None, [], []),
    Play(0, 0, false, None),
    Core(NOTHING, Load(NO_RESET, false, Holder(None, true, 0), false, 0, Resting, 0)))

  /** What the chunk source leaves in the holder: the old chunk, none, or a new one. */
  datatype NextChunk = Keep | Nothing | NewMedia(startUs: int, endUs: int) | NewInit

  datatype Operation = Operation(queueSize: nat, next: NextChunk, endOfStream: bool)

  /** One evaluation's worth of answers: the chunk operation, whether the load control grants the
      load, whether the last evaluation is over two seconds ago, and whether the retry delay
      has passed. */
  datatype Env = Env(op: Operation, granted: bool, evaluationDue: bool, retryDue: bool)

  datatype Outcome = Complete | Canceled | Error

  datatype ReadResult =
    | NothingRead
    | FormatRead(chunkFormat: nat)
    | EndOfStream
    | SampleRead(sample: Peeked, index: nat)

  // ----- Loading --------------------------------------------------------------------

  function ClearLoadable(l: Load): Load {
    l.(holder := l.holder.(chunk := None, owned := true), backedOff := false, errorCount := 0)
  }

  /** The end of the stream, a pending reset, or the end of the last chunk. */
  function NextLoadPosition(c: Core): int
    requires c.IsPendingReset() || c.load.finished || c.buffer.chunks != []
  {
    if c.IsPendingReset() then c.load.pendingReset
    else if c.load.finished then -1
    else c.buffer.chunks[|c.buffer.chunks| - 1].endUs
  }

  /** The holder after the chunk source answered; a new chunk gets the identity `nextId`. */
  function Answered(h: Holder, nextId: nat, op: Operation): Holder {
    match op.next
    case Keep => h.(queueSize := op.queueSize)
    case Nothing => Holder(None, true, op.queueSize)
    case NewMedia(startUs, endUs) => Holder(Some(Media(nextId, startUs, endUs)), true, op.queueSize)
    case NewInit => Holder(Some(Init(nextId)), true, op.queueSize)
  }

  /** Asks the chunk source. */
  function DoChunkOperation(l: Load, op: Operation): Load {
    l.(finished := op.endOfStream,
       holder := Answered(l.holder, l.nextId, op),
       nextId := if op.next.NewMedia? || op.next.NewInit? then l.nextId + 1 else l.nextId)
  }

  /** If chunks are discarded down to `n`, the sample queue can be cut where chunk `n` starts. */
  predicate DiscardOk(b: Buffer, n: nat) {
    && |b.Samples()| == |b.origins|
    && (n < |b.chunks| ==> b.Read() <= b.chunks[n].first <= b.Write())
  }

  /** Shrinks the deque to `n` chunks, and the sample queue with it. */
  function DiscardUpstream(c: Core, n: nat): (c': Core)
    requires DiscardOk(c.buffer, n)
    ensures |c'.buffer.Samples()| == |c'.buffer.origins|
  {
    if |c.buffer.chunks| <= n then c
    else Core(Truncated(c.buffer, n), c.load.(finished := false))
  }

  /** Starts loading the held chunk; a media chunk moves from the holder to the deque. */
  function MaybeStartLoading(c: Core): Core
    requires c.HoldsMedia() ==> c.load.holder.owned
  {
    match c.load.holder.chunk
    case None => c
    case Some(Init(id)) => c.(load := c.load.(loader := Loading(id, false)))
    case Some(Media(id, startUs, endUs)) =>
      Core(Pushed(c.buffer, id, startUs, endUs),
           c.load.(pendingReset := NO_RESET, holder := c.load.holder.(owned := false), loader := Loading(id, false)))
  }

  predicate NeedsEvaluation(c: Core, env: Env)
    requires c.IsPendingReset() || c.load.finished || c.buffer.chunks != []
  {
    && c.load.loader.Resting? && !c.load.backedOff
    && ((c.load.holder.chunk.None? && NextLoadPosition(c) != -1) || env.evaluationDue)
  }

  /** UpdateLoadControl is defined: the next position exists, a discard is within the queue, a
      backed-off chunk is there, and a media chunk about to be queued is still owned. */
  predicate UpdateOk(c: Core, env: Env) {
    && (c.IsPendingReset() || c.load.finished || c.buffer.chunks != [])
    && DiscardOk(c.buffer, env.op.queueSize)
    && (c.load.backedOff ==> c.load.holder.chunk.Some? && (c.HoldsMedia() ==> c.buffer.chunks != []))
    && (!c.load.backedOff && c.load.loader.Resting? && c.HoldsMedia() ==> c.load.holder.owned)
  }

  function Evaluated(c: Core, env: Env): Core
    requires UpdateOk(c, env)
  {
    if !NeedsEvaluation(c, env) then c
    else
      var c1 := c.(load := DoChunkOperation(c.load, env.op));
      DiscardUpstream(c1, c1.load.holder.queueSize)
  }

  /** The next load position reported to the load control. */
  function ReportedPosition(c: Core, env: Env): int
    requires UpdateOk(c, env) && (c.buffer.chunks != [] ==> env.op.queueSize > 0)
  {
    var c1 := Evaluated(c, env);
    if !NeedsEvaluation(c, env) then NextLoadPosition(c)
    else if c1.load.holder.chunk.None? then -1
    else if |c1.buffer.chunks| < |c.buffer.chunks| then NextLoadPosition(c1)
    else NextLoadPosition(c)
  }

  predicate ReportedBusy(c: Core) {
    c.load.loader.Loading? || c.load.backedOff
  }

  function UpdateLoadControl(c: Core, env: Env): (c': Core)
    requires UpdateOk(c, env)
    ensures |c'.buffer.Samples()| == |c'.buffer.origins|
  {
    if c.load.backedOff then if env.retryDue then ResumeFromBackOff(c, env.op) else c
    else
      var c1 := Evaluated(c, env);
      if c1.load.loader.Resting? && env.granted then MaybeStartLoading(c1) else c1
  }

  /** Retries the backed-off chunk, or gives it up for another one. */
  function ResumeFromBackOff(c: Core, op: Operation): (c': Core)
    requires DiscardOk(c.buffer, op.queueSize)
    requires c.load.holder.chunk.Some? && (c.HoldsMedia() ==> c.buffer.chunks != [])
    ensures |c'.buffer.Samples()| == |c'.buffer.origins|
  {
    var chunk := c.load.holder.chunk.value;
    if chunk.Init? then ResumeInit(c, op)
    else if chunk.id == c.buffer.chunks[0].id then
      c.(load := c.load.(backedOff := false, loader := Loading(chunk.id, false)))
    else ResumeLast(c, op)
  }

  /** Asks for another chunk while the initialization chunk is still held. */
  function ResumeInit(c: Core, op: Operation): (c': Core)
    requires DiscardOk(c.buffer, op.queueSize)
    requires c.load.holder.chunk.Some? && c.load.holder.chunk.value.Init?
    ensures |c'.buffer.Samples()| == |c'.buffer.origins|
  {
    var c0 := c.(load := DoChunkOperation(c.load.(backedOff := false), op));
    var c1 := DiscardUpstream(c0, c0.load.holder.queueSize);
    if op.next.Keep? then c1.(load := c1.load.(loader := Loading(c.load.holder.chunk.value.id, false)))
    else MaybeStartLoading(c1)
  }

  /** Asks for another chunk with the last one set aside; a different answer discards at least that
      chunk. */
  function ResumeLast(c: Core, op: Operation): (c': Core)
    requires DiscardOk(c.buffer, op.queueSize) && c.load.holder.chunk.Some?
    ensures |c'.buffer.Samples()| == |c'.buffer.origins|
  {
    var c1 := c.(load := DoChunkOperation(c.load.(backedOff := false), op));
    if op.next.Keep? then c1.(load := c1.load.(loader := Loading(c.load.holder.chunk.value.id, false)))
    else
      var c2 := DiscardUpstream(c1, c1.load.holder.queueSize);
      MaybeStartLoading(c2.(load := c2.load.(errorCount := 0)))
  }

  /** Everything dropped, waiting to load from `positionUs`. */
  function Restarted(c: Core, positionUs: int): Core {
    Core(NOTHING, ClearLoadable(c.load.(pendingReset := positionUs, finished := false)))
  }

  /** Drops everything and evaluates, or asks for a load in flight to be canceled first. */
  function RestartFrom(c: Core, positionUs: int, env: Env): Core
    requires c.load.loader.Resting? ==> positionUs != NO_RESET
  {
    if c.load.loader.Loading? then
      c.(load := c.load.(pendingReset := positionUs, finished := false, loader := c.load.loader.(canceled := true)))
    else UpdateLoadControl(Restarted(c, positionUs), env)
  }

  // ----- Calls ----------------------------------------------------------------------

  function EnableStep(s: Source, positionUs: int, env: Env): Source
    requires s.core.load.loader.Resting? ==> positionUs != NO_RESET
  {
    Source(s.life.(phase := Enabled, tracks := s.life.tracks + 1),
           Play(positionUs, positionUs, false, None),
           RestartFrom(s.core, positionUs, env))
  }

  function DisableStep(s: Source, done: Option<nat>): Source {
    var life := s.life.(phase := Disabling,
                        callback := if done.Some? then done else s.life.callback,
                        asked := if done.Some? then s.life.asked + [done.value] else s.life.asked);
    var load := s.core.load;
    if load.loader.Loading? then
      s.(life := life, core := s.core.(load := load.(loader := load.loader.(canceled := true))))
    else s.(life := life.(posted := true))
  }

  function DisableAndClear(s: Source): Source {
    var life := s.life.(phase := Prepared, tracks := s.life.tracks - 1, posted := false);
    Source(if s.life.callback.None? then life
           else life.(callback := None, ran := life.ran + [s.life.callback.value]),
           s.play,
           Core(NOTHING, ClearLoadable(s.core.load)))
  }

  function ContinueStep(s: Source, positionUs: int, env: Env): Source
    requires UpdateOk(s.core, env)
  {
    var c := UpdateLoadControl(s.core, env);
    s.(play := s.play.(downstreamUs := positionUs),
       core := if c.load.finished then c else c.(buffer := Settled(c.buffer)))
  }

  predicate SeekIsNoop(s: Source, positionUs: int) {
    positionUs == (if s.core.IsPendingReset() then s.core.load.pendingReset else s.play.downstreamUs)
  }

  predicate SeeksInside(c: Core, positionUs: int) {
    !c.IsPendingReset() && SampleQueue.SkipTarget(c.buffer.Samples(), positionUs).Some?
  }

  /** A seek that restarts at once has a position to load from. */
  predicate SeekDefined(s: Source, positionUs: int) {
    && |s.core.buffer.Samples()| == |s.core.buffer.origins|
    && (|| SeekIsNoop(s, positionUs) || SeeksInside(s.core, positionUs)
        || s.core.load.loader.Loading? || positionUs != NO_RESET)
  }

  function SeekStep(s: Source, positionUs: int, env: Env): Source
    requires SeekDefined(s, positionUs)
  {
    var play := s.play.(downstreamUs := positionUs, lastSeekUs := positionUs);
    if SeekIsNoop(s, positionUs) then s.(play := play)
    else s.(play := play.(discontinuity := true), core := MoveTo(s.core, positionUs, env))
  }

  /** Seeks within the sample queue if possible, dropping passed chunks, and restarts otherwise. */
  function MoveTo(c: Core, positionUs: int, env: Env): Core
    requires |c.buffer.Samples()| == |c.buffer.origins|
    requires SeeksInside(c, positionUs) || c.load.loader.Loading? || positionUs != NO_RESET
  {
    if SeeksInside(c, positionUs) then c.(buffer := PopPassed(Skipped(c.buffer, positionUs)))
    else RestartFrom(c, positionUs, env)
  }

  /** A delivered sample, marked as decode-only when it lies on the wrong side of the last seek. */
  function Marked(p: Peeked, lastSeekUs: int, forward: bool): Peeked {
    if (if forward then p.timeUs < lastSeekUs else p.timeUs > lastSeekUs)
    then p.(flags := p.flags.(decodeOnly := true)) else p
  }

  /** The buffer a read works on: settled and, if there is a sample, without passed chunks. */
  function Readied(b: Buffer): Buffer
    requires |b.Samples()| == |b.origins|
  {
    if HasSample(b.track) then PopPassed(Settled(b)) else Settled(b)
  }

  lemma ReadiedIsSettled(b: Buffer)
    requires |b.Samples()| == |b.origins|
    ensures Readied(b).track == Settle(b.track) && Readied(b).origins == Settled(b).origins
    ensures |Readied(b).Samples()| == |Readied(b).origins|
    ensures b.chunks != [] ==> Readied(b).chunks != []
    ensures HasSample(b.track) ==> Readied(b).Samples() != []
  {
    SettledKeepsOrigins(b);
  }

  lemma SettledKeepsOrigins(b: Buffer)
    requires |b.Samples()| == |b.origins|
    ensures |Settled(b).Samples()| == |Settled(b).origins| && Settled(b).chunks == b.chunks
  {
  }

  /** A read has a chunk at the front unless it returns at once. */
  predicate ReadOk(s: Source) {
    && |s.core.buffer.Samples()| == |s.core.buffer.origins|
    && (!s.play.discontinuity && !s.core.IsPendingReset() ==> s.core.buffer.chunks != [])
  }

  /** One read: the new state and the result. */
  function ReadStep(s: Source, positionUs: int, chunkFormat: Option<nat>, formatFinal: bool, forward: bool)
    : (Source, ReadResult)
    requires ReadOk(s)
  {
    var play := s.play.(downstreamUs := positionUs);
    if s.play.discontinuity || s.core.IsPendingReset() then (s.(play := play), NothingRead)
    else
      ReadiedIsSettled(s.core.buffer);
      var b := Readied(s.core.buffer);
      var have := HasSample(s.core.buffer.track);
      var (format, early) := ReadFormat(play.format, have || formatFinal, chunkFormat);
      var s1 := s.(play := play.(format := format), core := s.core.(buffer := b));
      if early.Some? then (s1, FormatRead(early.value))
      else if !have then (s1, if s.core.load.finished then EndOfStream else NothingRead)
      else (s1.(core := s1.core.(buffer := Taken(b))),
            SampleRead(Marked(PeekOf(b.Samples()[0]), play.lastSeekUs, forward), b.Read()))
  }

  /** The downstream format after looking at the current chunk's, and the format to return if it is
      a new one. */
  function ReadFormat(format: Option<nat>, look: bool, chunkFormat: Option<nat>): (Option<nat>, Option<nat>) {
    if !look then (format, None)
    else if chunkFormat.None? then (None, None)
    else if chunkFormat != format then (chunkFormat, chunkFormat)
    else (format, None)
  }

  function CommitStep(s: Source, info: SampleInfo): Source
    requires s.core.buffer.chunks != []
  {
    s.(core := s.core.(buffer := Committed(s.core.buffer, info)))
  }

  /** Whether the end of a load finishes a disable instead of updating the load control. */
  predicate EndsDisable(s: Source, outcome: Outcome) {
    outcome.Canceled? && !s.life.phase.Enabled?
  }

  /** The state after a load has ended, before the load control is updated. */
  function DonePoint(c: Core, outcome: Outcome): Core {
    var load := c.load.(loader := Resting);
    match outcome
    case Complete => c.(load := ClearLoadable(load))
    case Error => c.(load := load.(backedOff := true, errorCount := load.errorCount + 1))
    case Canceled => Restarted(c.(load := load), load.pendingReset)
  }

  function DoneStep(s: Source, outcome: Outcome, env: Env): Source
    requires !EndsDisable(s, outcome) ==> UpdateOk(DonePoint(s.core, outcome), env)
  {
    if EndsDisable(s, outcome) then
      DisableAndClear(s.(core := s.core.(load := ClearLoadable(s.core.load.(loader := Resting)))))
    else s.(core := UpdateLoadControl(DonePoint(s.core, outcome), env))
  }
}
