/**
 Why the chunk sample source never looks at a missing chunk, never cuts its sample queue
 outside its bounds, and always knows which chunk a sample came from: an invariant that
 every event keeps, whatever the chunk source, the load control and the loader answer.
 */
module SourceSafety {
  import opened Samples
  import opened InfoQueues
  import opened TrackOutputs
  import opened ChunkBuffers
  import opened BufferedSource

  datatype Event =
    | Register
    | Prepare(ready: bool)
    | Enable(positionUs: int, env: Env)
    | Disable(done: Option<nat>)
    | RunPosted
    | ContinueBuffering(positionUs: int, env: Env)
    | ReadDiscontinuity
    | ReadData(positionUs: int, chunkFormat: Option<nat>, formatFinal: bool, forward: bool)
    | SeekTo(positionUs: int, env: Env)
    | CommitSample(info: SampleInfo)
    | LoadDone(outcome: Outcome, env: Env)

  // ----- The invariant --------------------------------------------------------------

  /** The chunk being loaded or retried is the one the holder points to, and a media chunk among
      them is the last of the deque; any other held chunk is owned and not on the deque. */
  ghost predicate HolderOk(c: Core) {
    var l := c.load;
    && (l.loader.Loading? ==> !l.backedOff && l.holder.chunk.Some? && l.holder.chunk.value.id == l.loader.chunk)
    && (l.backedOff ==> l.loader.Resting? && l.holder.chunk.Some?)
    && ((l.loader.Loading? || l.backedOff) && c.HoldsMedia() ==>
          && !l.holder.owned && c.buffer.chunks != []
          && c.buffer.chunks[|c.buffer.chunks| - 1].id == l.holder.chunk.value.id)
    && ((l.loader.Loading? || l.backedOff) && !c.HoldsMedia() ==> l.holder.owned)
    && (l.loader.Resting? && !l.backedOff ==> l.holder.owned)
    && (l.holder.chunk.Some? && l.holder.owned ==>
          forall i :: 0 <= i < |c.buffer.chunks| ==> c.buffer.chunks[i].id != l.holder.chunk.value.id)
    && (l.holder.chunk.Some? ==> l.holder.chunk.value.id < l.nextId)
    && (forall i :: 0 <= i < |c.buffer.chunks| ==> c.buffer.chunks[i].id < l.nextId)
  }

  ghost predicate CoreInv(c: Core) {
    ChunkBuffers.Inv(c.buffer) && HolderOk(c)
  }

  /** There is a position to load from or a chunk to continue after. */
  predicate Live(c: Core) {
    c.IsPendingReset() || c.buffer.chunks != []
  }

  /** Phases, cancellations and the pending reset fit together. */
  ghost predicate PhaseOk(s: Source) {
    var phase, loader := s.life.phase, s.core.load.loader;
    && s.life.tracks == (if phase.Enabled? || phase.Disabling? then 1 else 0)
    && (phase.Enabled? ==> Live(s.core))
    && (loader.Loading? && loader.canceled ==> phase.Disabling? || (phase.Enabled? && s.core.IsPendingReset()))
    && (phase.Disabling? ==> if s.life.posted then loader.Resting? else loader.Loading? && loader.canceled)
    && (s.life.posted ==> phase.Disabling?)
    && (!phase.Enabled? && !phase.Disabling? ==> loader.Resting?)
  }

  /** Done callbacks run in the order they were asked for, and only a disabling source has one
      that has not run. */
  ghost predicate CallbacksOk(l: Life) {
    && (l.callback.Some? ==> l.phase.Disabling?)
    && l.asked == l.ran + (if l.callback.Some? then [l.callback.value] else [])
  }

  ghost predicate Inv(s: Source) {
    CoreInv(s.core) && PhaseOk(s) && CallbacksOk(s.life)
  }

  // ----- What is assumed of the outside ---------------------------------------------

  /** How many chunks the chunk source is shown: a backed-off media chunk that is not the first of
      the deque is set aside. */
  function Offered(c: Core): nat {
    if c.load.backedOff && c.HoldsMedia() && c.buffer.chunks != [] &&
       c.load.holder.chunk.value.id != c.buffer.chunks[0].id
    then |c.buffer.chunks| - 1 else |c.buffer.chunks|
  }

  /** A chunk source that is shown chunks keeps at least one. */
  predicate OpOk(c: Core, op: Operation) {
    Offered(c) > 0 ==> op.queueSize > 0
  }

  /** Each call comes in a phase that allows it, and never restarts from the sentinel; the first
      sample of a chunk is a keyframe; a canceled load, and no other, reports that it was
      canceled. */
  predicate EventOk(s: Source, e: Event) {
    var c := s.core;
    match e
    case Register => s.life.phase.Idle?
    case Prepare(_) => s.life.phase.Initialized? || s.life.phase.Prepared?
    case Enable(p, env) => s.life.phase.Prepared? && p != NO_RESET
    case Disable(_) => s.life.phase.Enabled?
    case RunPosted => s.life.posted
    case ContinueBuffering(_, env) => s.life.phase.Enabled? && OpOk(c, env.op)
    case ReadDiscontinuity => true
    case ReadData(_, _, _, _) => s.life.phase.Enabled?
    case SeekTo(p, env) => s.life.phase.Enabled? && (SeekIsNoop(s, p) || SeeksInside(c, p) || p != NO_RESET)
    case CommitSample(info) =>
      && c.load.loader.Loading? && c.HoldsMedia() && info.offset >= 0
      && (c.buffer.chunks != [] && c.buffer.Write() == c.buffer.chunks[|c.buffer.chunks| - 1].first ==> info.IsSync())
    case LoadDone(outcome, env) =>
      && c.load.loader.Loading? && (c.load.loader.canceled <==> outcome.Canceled?)
      && OpOk(DonePoint(c, outcome), env.op)
  }

  // ----- Loading keeps the invariant ------------------------------------------------

  lemma UpdateDefined(c: Core, env: Env)
    requires CoreInv(c) && Live(c) && OpOk(c, env.op)
    ensures UpdateOk(c, env)
  {
    if env.op.queueSize < |c.buffer.chunks| {
      TruncatedKeepsInv(c.buffer, env.op.queueSize);
    }
  }

  /** The holder may take over any answer of the chunk source while nothing is being loaded, and
      a backed-off chunk may be given up for another one. */
  lemma OperationKeepsHolder(c: Core, op: Operation)
    requires HolderOk(c) && c.load.loader.Resting?
    requires c.load.backedOff ==> !op.next.Keep? || !c.HoldsMedia()
    ensures HolderOk(c.(load := DoChunkOperation(c.load.(backedOff := false), op)))
  {
  }

  lemma DiscardKeepsInv(c: Core, n: nat)
    requires CoreInv(c) && Live(c) && c.load.loader.Resting? && !c.load.backedOff
    requires c.buffer.chunks != [] ==> n > 0
    ensures DiscardOk(c.buffer, n)
    ensures var c' := DiscardUpstream(c, n);
            && CoreInv(c') && Live(c')
            && c'.load == c.load.(finished := c'.load.finished)
  {
    if n < |c.buffer.chunks| {
      TruncatedKeepsInv(c.buffer, n);
    }
  }

  lemma StartKeepsInv(c: Core)
    requires CoreInv(c) && Live(c) && c.load.loader.Resting? && !c.load.backedOff
    ensures CoreInv(MaybeStartLoading(c)) && Live(MaybeStartLoading(c))
    ensures var l := MaybeStartLoading(c).load.loader; l.Loading? ==> !l.canceled
  {
    if c.HoldsMedia() {
      var m := c.load.holder.chunk.value;
      PushedKeepsInv(c.buffer, m.id, m.startUs, m.endUs);
    }
  }

  lemma ResumeInitKeepsInv(c: Core, op: Operation)
    requires CoreInv(c) && Live(c) && c.load.backedOff && !c.HoldsMedia() && OpOk(c, op)
    ensures DiscardOk(c.buffer, op.queueSize)
    ensures var c' := ResumeInit(c, op);
            CoreInv(c') && Live(c') && (c'.load.loader.Loading? ==> !c'.load.loader.canceled)
  {
    OperationKeepsHolder(c, op);
    var c1 := c.(load := DoChunkOperation(c.load.(backedOff := false), op));
    DiscardKeepsInv(c1, op.queueSize);
    StartKeepsInv(DiscardUpstream(c1, op.queueSize));
  }

  lemma ResumeLastKeepsInv(c: Core, op: Operation)
    requires CoreInv(c) && Live(c) && c.load.backedOff && c.HoldsMedia() && OpOk(c, op)
    requires c.load.holder.chunk.value.id != c.buffer.chunks[0].id
    ensures DiscardOk(c.buffer, op.queueSize)
    ensures var c' := ResumeLast(c, op);
            CoreInv(c') && Live(c') && (c'.load.loader.Loading? ==> !c'.load.loader.canceled)
  {
    if op.queueSize < |c.buffer.chunks| {
      TruncatedKeepsInv(c.buffer, op.queueSize);
    }
    if !op.next.Keep? {
      ReplaceLastKeepsInv(c, op);
    }
  }

  lemma ReplaceLastKeepsInv(c: Core, op: Operation)
    requires CoreInv(c) && Live(c) && c.load.backedOff && c.HoldsMedia() && OpOk(c, op) && !op.next.Keep?
    requires c.load.holder.chunk.value.id != c.buffer.chunks[0].id
    ensures DiscardOk(c.buffer, op.queueSize)
    ensures var c' := ResumeLast(c, op);
            CoreInv(c') && Live(c') && (c'.load.loader.Loading? ==> !c'.load.loader.canceled)
  {
    OperationKeepsHolder(c, op);
    var c1 := c.(load := DoChunkOperation(c.load.(backedOff := false), op));
    DiscardKeepsInv(c1, op.queueSize);
    var c2 := DiscardUpstream(c1, op.queueSize);
    StartKeepsInv(c2.(load := c2.load.(errorCount := 0)));
  }

  /** Updating the load control keeps the invariant, and changes nothing while a load runs. */
  lemma UpdateKeepsInv(c: Core, env: Env)
    requires CoreInv(c) && Live(c) && OpOk(c, env.op)
    ensures UpdateOk(c, env)
    ensures var c' := UpdateLoadControl(c, env);
            && CoreInv(c') && Live(c')
            && (c.load.loader.Loading? ==> c' == c)
            && (c.load.loader.Resting? && c'.load.loader.Loading? ==> !c'.load.loader.canceled)
  {
    UpdateDefined(c, env);
    if c.load.backedOff {
      if env.retryDue {
        if !c.HoldsMedia() {
          ResumeInitKeepsInv(c, env.op);
        } else if c.load.holder.chunk.value.id != c.buffer.chunks[0].id {
          ResumeLastKeepsInv(c, env.op);
        }
      }
    } else if c.load.loader.Resting? {
      EvaluateKeepsInv(c, env);
      StartKeepsInv(Evaluated(c, env));
    }
  }

  lemma EvaluateKeepsInv(c: Core, env: Env)
    requires CoreInv(c) && Live(c) && OpOk(c, env.op) && !c.load.backedOff && c.load.loader.Resting?
    ensures UpdateOk(c, env)
    ensures var c' := Evaluated(c, env);
            CoreInv(c') && Live(c') && c'.load.loader.Resting? && !c'.load.backedOff
  {
    UpdateDefined(c, env);
    if NeedsEvaluation(c, env) {
      OperationKeepsHolder(c, env.op);
      assert c.load == c.load.(backedOff := false);
      DiscardKeepsInv(c.(load := DoChunkOperation(c.load, env.op)), env.op.queueSize);
    }
  }

  lemma RestartedInv(c: Core, positionUs: int)
    requires HolderOk(c) && positionUs != NO_RESET
    ensures var c' := Restarted(c.(load := c.load.(loader := Resting)), positionUs);
            CoreInv(c') && Live(c') && Offered(c') == 0
  {
    NothingInv();
  }

  lemma RestartKeepsInv(c: Core, positionUs: int, env: Env)
    requires CoreInv(c) && positionUs != NO_RESET
    ensures var c' := RestartFrom(c, positionUs, env);
            && CoreInv(c') && Live(c')
            && (c.load.loader.Loading? ==> c'.IsPendingReset() && c'.load.loader == c.load.loader.(canceled := true))
            && (c.load.loader.Resting? && c'.load.loader.Loading? ==> !c'.load.loader.canceled)
  {
    if c.load.loader.Resting? {
      RestartedInv(c, positionUs);
      assert c == c.(load := c.load.(loader := Resting));
      UpdateKeepsInv(Restarted(c, positionUs), env);
    }
  }

  /** When the chunk source answers a retry with another chunk and keeps no more chunks than it was
      shown, the backed-off chunk is removed from the deque. */
  lemma ReplacedChunkIsGone(c: Core, op: Operation)
    requires CoreInv(c) && Live(c) && c.load.backedOff && c.HoldsMedia() && OpOk(c, op)
    requires c.load.holder.chunk.value.id != c.buffer.chunks[0].id
    requires !op.next.Keep? && op.queueSize <= Offered(c)
    ensures DiscardOk(c.buffer, op.queueSize)
    ensures var chunks := ResumeLast(c, op).buffer.chunks;
            forall i :: 0 <= i < |chunks| ==> chunks[i].id != c.load.holder.chunk.value.id
  {
    ResumeLastKeepsInv(c, op);
    var chunks := ResumeLast(c, op).buffer.chunks;
    forall i | 0 <= i < |chunks|
      ensures chunks[i].id != c.load.holder.chunk.value.id
    {
      assert i < op.queueSize ==> chunks[i] == c.buffer.chunks[i];
    }
  }

  // ----- Every event keeps the invariant --------------------------------------------

  lemma ReadDefined(s: Source)
    requires Inv(s) && s.life.phase.Enabled?
    ensures ReadOk(s)
  {
  }

  lemma DonePointInv(c: Core, outcome: Outcome)
    requires CoreInv(c) && Live(c) && c.load.loader.Loading?
    requires outcome.Canceled? ==> c.IsPendingReset()
    ensures CoreInv(DonePoint(c, outcome)) && Live(DonePoint(c, outcome))
    ensures DonePoint(c, outcome).load.loader.Resting?
  {
    if outcome.Canceled? {
      RestartedInv(c, c.load.pendingReset);
    }
  }

  ghost function Step(s: Source, e: Event): Source
    requires Inv(s) && EventOk(s, e)
  {
    match e
    case Register => s.(life := s.life.(phase := Initialized))
    case Prepare(ready) => if s.life.phase.Prepared? || !ready then s else s.(life := s.life.(phase := Prepared))
    case Enable(p, env) => EnableStep(s, p, env)
    case Disable(done) => DisableStep(s, done)
    case RunPosted => DisableAndClear(s)
    case ContinueBuffering(p, env) => UpdateDefined(s.core, env); ContinueStep(s, p, env)
    case ReadDiscontinuity => s.(play := s.play.(discontinuity := false))
    case ReadData(p, chunkFormat, formatFinal, forward) =>
      ReadDefined(s);
      ReadStep(s, p, chunkFormat, formatFinal, forward).0
    case SeekTo(p, env) => SeekStep(s, p, env)
    case CommitSample(info) => CommitStep(s, info)
    case LoadDone(outcome, env) =>
      DoneDefined(s, outcome, env);
      DoneStep(s, outcome, env)
  }

  lemma DoneDefined(s: Source, outcome: Outcome, env: Env)
    requires Inv(s) && EventOk(s, LoadDone(outcome, env))
    ensures !EndsDisable(s, outcome) ==>
              && UpdateOk(DonePoint(s.core, outcome), env)
              && CoreInv(DonePoint(s.core, outcome)) && Live(DonePoint(s.core, outcome))
  {
    if !EndsDisable(s, outcome) {
      DonePointInv(s.core, outcome);
      UpdateDefined(DonePoint(s.core, outcome), env);
    }
  }

  /** Replacing the buffer by one with fewer chunks at the front, but not none. */
  lemma BufferKeepsHolder(c: Core, b: Buffer, n: nat)
    requires HolderOk(c) && n <= |c.buffer.chunks| && b.chunks == c.buffer.chunks[n..]
    requires c.buffer.chunks != [] ==> b.chunks != []
    ensures HolderOk(c.(buffer := b))
  {
  }

  lemma ContinueKeepsInv(s: Source, positionUs: int, env: Env)
    requires Inv(s) && EventOk(s, ContinueBuffering(positionUs, env))
    ensures Inv(Step(s, ContinueBuffering(positionUs, env)))
  {
    UpdateKeepsInv(s.core, env);
    var c := UpdateLoadControl(s.core, env);
    SettledKeepsCore(c);
    var c' := if c.load.finished then c else c.(buffer := Settled(c.buffer));
    EnabledWith(s, s.play.(downstreamUs := positionUs), c');
  }

  /** An enabled source with another sound core. */
  lemma EnabledWith(s: Source, play: Play, c: Core)
    requires Inv(s) && s.life.phase.Enabled? && CoreInv(c) && Live(c)
    requires c.load.loader.Loading? && c.load.loader.canceled ==> c.IsPendingReset()
    ensures Inv(Source(s.life, play, c))
  {
  }

  lemma SettledKeepsCore(c: Core)
    requires CoreInv(c)
    ensures CoreInv(c.(buffer := Settled(c.buffer))) && Settled(c.buffer).chunks == c.buffer.chunks
  {
    SettledKeepsInv(c.buffer);
    BufferKeepsHolder(c, Settled(c.buffer), 0);
  }

  /** The buffer after a read: settled; with a sample, without passed chunks; with the head taken or
      not. */
  lemma ReadBufferInv(c: Core)
    requires CoreInv(c) && c.buffer.chunks != []
    ensures CoreInv(c.(buffer := Readied(c.buffer)))
    ensures HasSample(c.buffer.track) ==> CoreInv(c.(buffer := Taken(Readied(c.buffer))))
    ensures HasSample(c.buffer.track) ==> Taken(Readied(c.buffer)).chunks != []
  {
    SettledKeepsInv(c.buffer);
    var b := Settled(c.buffer);
    if HasSample(c.buffer.track) {
      PopPassedKeepsInv(b);
      TakenKeepsInv(PopPassed(b));
      BufferKeepsHolder(c, PopPassed(b), Passed(b.chunks, b.Read()));
      BufferKeepsHolder(c, Taken(PopPassed(b)), Passed(b.chunks, b.Read()));
    } else {
      BufferKeepsHolder(c, b, 0);
    }
  }

  /** A read changes the reader's side and the buffer, and nothing of what is loaded. */
  lemma ReadShape(s: Source, positionUs: int, chunkFormat: Option<nat>, formatFinal: bool, forward: bool)
    requires ReadOk(s)
    ensures var (s', r) := ReadStep(s, positionUs, chunkFormat, formatFinal, forward);
            var b := s.core.buffer;
            && s'.life == s.life
            && s'.core == s.core.(buffer := s'.core.buffer)
            && (s.play.discontinuity || s.core.IsPendingReset() ==> s'.core.buffer == b && r == NothingRead)
            && (!s.play.discontinuity && !s.core.IsPendingReset() ==>
                  s'.core.buffer == if r.SampleRead? then Taken(Readied(b)) else Readied(b))
            && (r.SampleRead? ==>
                  HasSample(b.track) && r.index == Readied(b).Read() &&
                  r.sample == Marked(PeekOf(Readied(b).Samples()[0]), s.play.lastSeekUs, forward))
  {
  }

  lemma ReadKeepsInv(s: Source, e: Event)
    requires Inv(s) && e.ReadData? && EventOk(s, e)
    ensures Inv(Step(s, e))
  {
    ReadDefined(s);
    ReadShape(s, e.positionUs, e.chunkFormat, e.formatFinal, e.forward);
    if !s.play.discontinuity && !s.core.IsPendingReset() {
      ReadBufferInv(s.core);
    }
  }

  lemma SeekKeepsInv(s: Source, positionUs: int, env: Env)
    requires Inv(s) && EventOk(s, SeekTo(positionUs, env))
    ensures Inv(Step(s, SeekTo(positionUs, env)))
  {
    var c := s.core;
    if !SeekIsNoop(s, positionUs) {
      if SeeksInside(c, positionUs) {
        SkippedKeepsInv(c.buffer, positionUs);
        var b := Skipped(c.buffer, positionUs);
        BufferKeepsHolder(c, PopPassed(b), Passed(b.chunks, b.Read()));
      } else {
        RestartKeepsInv(c, positionUs, env);
      }
    }
  }

  lemma CommitKeepsInv(s: Source, info: SampleInfo)
    requires Inv(s) && EventOk(s, CommitSample(info))
    ensures Inv(Step(s, CommitSample(info)))
  {
    CommittedKeepsInv(s.core.buffer, info);
    BufferKeepsHolder(s.core, Committed(s.core.buffer, info), 0);
  }

  lemma DoneKeepsInv(s: Source, outcome: Outcome, env: Env)
    requires Inv(s) && EventOk(s, LoadDone(outcome, env))
    ensures Inv(Step(s, LoadDone(outcome, env)))
  {
    if EndsDisable(s, outcome) {
      NothingInv();
    } else {
      DonePointInv(s.core, outcome);
      UpdateKeepsInv(DonePoint(s.core, outcome), env);
    }
  }

  lemma StepKeepsInv(s: Source, e: Event)
    requires Inv(s) && EventOk(s, e)
    ensures Inv(Step(s, e))
  {
    match e
    case Register =>
    case Prepare(_) =>
    case Enable(p, env) => RestartKeepsInv(s.core, p, env);
    case Disable(done) =>
    case RunPosted => NothingInv();
    case ContinueBuffering(p, env) => ContinueKeepsInv(s, p, env);
    case ReadDiscontinuity =>
    case ReadData(_, _, _, _) => ReadKeepsInv(s, e);
    case SeekTo(p, env) => SeekKeepsInv(s, p, env);
    case CommitSample(info) => CommitKeepsInv(s, info);
    case LoadDone(outcome, env) => DoneKeepsInv(s, outcome, env);
  }

  // ----- Whole runs -----------------------------------------------------------------

  ghost predicate RunOk(s: Source, events: seq<Event>)
    requires Inv(s)
    decreases |events|
  {
    events == [] ||
    (EventOk(s, events[0]) && (StepKeepsInv(s, events[0]); RunOk(Step(s, events[0]), events[1..])))
  }

  ghost function Run(s: Source, events: seq<Event>): (s': Source)
    requires Inv(s) && RunOk(s, events)
    ensures Inv(s')
    decreases |events|
  {
    if events == [] then s
    else
      StepKeepsInv(s, events[0]);
      Run(Step(s, events[0]), events[1..])
  }

  /** The sample at `index` of `b` lies in the first chunk of `b'`, and came from it. */
  ghost predicate FromFirstChunk(b: Buffer, b': Buffer, index: nat)
    requires |b.origins| == |b.Samples()|
  {
    && b.Read() <= index < b.Write()
    && b'.chunks != []
    && b'.chunks[0].first <= index < b'.ChunkEnd(0)
    && b.origins[index - b.Read()] == b'.chunks[0].id
  }

  /** A sample handed out by a read belongs to the chunk the read left at the front. */
  ghost predicate ReadIsFromCurrentChunk(s: Source, e: Event)
    requires ReadOk(s) && e.ReadData?
  {
    var (s', r) := ReadStep(s, e.positionUs, e.chunkFormat, e.formatFinal, e.forward);
    var b := s.core.buffer;
    r.SampleRead? ==>
      && FromFirstChunk(b, s'.core.buffer, r.index)
      && r.sample == Marked(PeekOf(b.Samples()[r.index - b.Read()]), s.play.lastSeekUs, e.forward)
  }

  lemma ReadComesFromCurrentChunk(s: Source, e: Event)
    requires Inv(s) && EventOk(s, e) && e.ReadData?
    ensures ReadOk(s) && ReadIsFromCurrentChunk(s, e)
  {
    ReadDefined(s);
    if HasSample(s.core.buffer.track) {
      HeadOfReadied(s.core.buffer);
      ReadFromShape(s, e);
    } else {
      ReadShape(s, e.positionUs, e.chunkFormat, e.formatFinal, e.forward);
    }
  }

  lemma ReadFromShape(s: Source, e: Event)
    requires ReadOk(s) && e.ReadData? && HasSample(s.core.buffer.track)
    requires Readied(s.core.buffer).Samples() != []
    requires |Readied(s.core.buffer).Samples()| == |Readied(s.core.buffer).origins|
    requires FromFirstChunk(s.core.buffer, Taken(Readied(s.core.buffer)), Readied(s.core.buffer).Read())
    requires var b := s.core.buffer; Readied(b).Samples()[0] == b.Samples()[Readied(b).Read() - b.Read()]
    ensures ReadIsFromCurrentChunk(s, e)
  {
    ReadShape(s, e.positionUs, e.chunkFormat, e.formatFinal, e.forward);
  }

  lemma HeadOfReadied(b: Buffer)
    requires ChunkBuffers.Inv(b) && HasSample(b.track)
    ensures Readied(b).Samples() != [] && |Readied(b).Samples()| == |Readied(b).origins|
    ensures FromFirstChunk(b, Taken(Readied(b)), Readied(b).Read())
    ensures Readied(b).Samples()[0] == b.Samples()[Readied(b).Read() - b.Read()]
  {
    ReadiedIsSettled(b);
    SettledKeepsInv(b);
    SettledHead(b);
    PopPassedKeepsInv(Settled(b));
    HeadIsFromFirstChunk(Readied(b));
  }

  /** The head of the settled queue is a sample of the queue. */
  lemma SettledHead(b: Buffer)
    requires |b.Samples()| == |b.origins| && HasSample(b.track)
    ensures var s := Settled(b);
            && s.Samples() != [] && s.origins != []
            && b.Read() <= s.Read() < b.Write() && s.Write() == b.Write()
            && s.Samples()[0] == b.Samples()[s.Read() - b.Read()]
            && s.origins[0] == b.origins[s.Read() - b.Read()]
  {
  }

  ghost predicate ReadsAreFromCurrentChunk(s: Source, events: seq<Event>)
    requires Inv(s) && RunOk(s, events)
    decreases |events|
  {
    events == [] ||
    (&& (events[0].ReadData? ==> (ReadDefined(s); ReadIsFromCurrentChunk(s, events[0])))
     && (StepKeepsInv(s, events[0]); ReadsAreFromCurrentChunk(Step(s, events[0]), events[1..])))
  }

  lemma {:induction false} RunReadsFromCurrentChunk(s: Source, events: seq<Event>)
    requires Inv(s) && RunOk(s, events)
    ensures ReadsAreFromCurrentChunk(s, events)
    decreases |events|
  {
    if events != [] {
      if events[0].ReadData? {
        ReadComesFromCurrentChunk(s, events[0]);
      }
      StepKeepsInv(s, events[0]);
      RunReadsFromCurrentChunk(Step(s, events[0]), events[1..]);
    }
  }

  /** A new source satisfies the invariant. */
  lemma InitialInv()
    ensures Inv(INITIAL)
  {
    NothingInv();
  }

  /** What the invariant says to a reader of the code: an enabled source with no reset pending has a
      chunk; a backed-off media chunk is the last of the deque; remembered chunk starts are
      ordered; the read position does not pass the second chunk's start; and every start that a
      discard may use lies between the read and the write index. */
  ghost predicate Safe(s: Source) {
    var b, l := s.core.buffer, s.core.load;
    && (s.life.phase.Enabled? && !s.core.IsPendingReset() ==> b.chunks != [])
    && (l.backedOff ==> l.holder.chunk.Some?)
    && (l.backedOff && s.core.HoldsMedia() ==>
          b.chunks != [] && b.chunks[|b.chunks| - 1].id == l.holder.chunk.value.id)
    && (forall i, j :: 0 <= i < j < |b.chunks| ==> b.chunks[i].first <= b.chunks[j].first)
    && (|b.chunks| > 1 ==> b.Read() <= b.chunks[1].first)
    && (forall n :: 0 < n < |b.chunks| ==> b.Read() <= b.chunks[n].first <= b.Write())
  }

  lemma InvIsSafe(s: Source)
    requires Inv(s)
    ensures Safe(s)
  {
    forall n | 0 < n < |s.core.buffer.chunks|
      ensures s.core.buffer.Read() <= s.core.buffer.chunks[n].first <= s.core.buffer.Write()
    {
      TruncatedKeepsInv(s.core.buffer, n);
    }
  }

  /** Every state that a run reaches is safe, and every sample read in it came from the chunk then
      at the front. */
  lemma SourceStaysSafe(s: Source, events: seq<Event>)
    requires Inv(s) && RunOk(s, events)
    ensures Safe(Run(s, events))
    ensures ReadsAreFromCurrentChunk(s, events)
  {
    RunReadsFromCurrentChunk(s, events);
    InvIsSafe(Run(s, events));
  }

  /** The track count is 0 or 1; done callbacks run in the order they were asked for, at most one
      is outstanding, and none is once the source is no longer disabling, whether or not a load
      or a cancel was in flight. */
  lemma CallbacksRunOnce(s: Source, events: seq<Event>)
    requires Inv(s) && RunOk(s, events)
    ensures var l := Run(s, events).life;
            && (l.tracks == 0 || l.tracks == 1)
            && (!l.phase.Disabling? ==> l.ran == l.asked)
            && (l.ran == l.asked || (l.asked != [] && l.ran == l.asked[..|l.asked| - 1]))
  {
    var l := Run(s, events).life;
    if l.callback.Some? {
      assert (l.ran + [l.callback.value])[..|l.asked| - 1] == l.ran;
    } else {
      assert l.ran + [] == l.ran;
    }
  }

  /** What the sentinel does as a position: the load control is updated after a restart, at once or
      when the canceled load has ended, and looks at the last chunk of an empty deque exactly if
      the position was the sentinel. */
  lemma SentinelPositionIsDead(c: Core, positionUs: int, env: Env)
    ensures UpdateOk(Restarted(c, positionUs), env) <==> positionUs != NO_RESET
    ensures c.load.loader.Loading? ==>
              (UpdateOk(DonePoint(RestartFrom(c, positionUs, env), Canceled), env) <==> positionUs != NO_RESET)
  {
  }
}
