/**
 What updating the load control does to a source, said without the steps that do it: when the chunk
 source is asked, what of its answer is kept, what is reported, what is queued, and what a
 failed load leaves behind.
 */
module SourceUpdates {
  import opened Samples
  import opened BufferedSource
  import Buffers = ChunkBuffers
  import System = BufferingSystem

  /** There is something to load next: from where a reset goes, or after the last chunk unless that was
      the end. */
  predicate HasNext(c: Core) {
    if c.load.pendingReset != NO_RESET then c.load.pendingReset != -1
    else !c.load.finished && c.buffer.chunks != [] && c.buffer.chunks[|c.buffer.chunks| - 1].endUs != -1
  }

  /** The chunk source is asked: while nothing is being loaded, if nothing is held and there is something
      to load, or the last time is long ago; and after a failure, once the retry is due, unless
      the chunk that failed is the first one. */
  predicate Asks(c: Core, env: Env) {
    if c.load.backedOff then env.retryDue && !System.RetriesFirst(c)
    else c.load.loader.Resting? && (env.evaluationDue || (c.load.holder.chunk.None? && HasNext(c)))
  }

  /** Chunks are given up: not if a media chunk that failed is kept. */
  predicate GivesUp(c: Core, env: Env) {
    && Asks(c, env) && env.op.queueSize < |c.buffer.chunks|
    && !(c.load.backedOff && c.HoldsMedia() && env.op.next.Keep?)
  }

  /** The chunk held afterwards. */
  function Holds(c: Core, env: Env): Option<Loadable> {
    if !Asks(c, env) then c.load.holder.chunk
    else
      match env.op.next
      case Keep => c.load.holder.chunk
      case Nothing => None
      case NewMedia(startUs, endUs) => Some(Media(c.load.nextId, startUs, endUs))
      case NewInit => Some(Init(c.load.nextId))
  }

  /** The chunks that are kept. */
  function Keeps(c: Core, env: Env): seq<Buffers.MediaChunk> {
    if GivesUp(c, env) then c.buffer.chunks[..env.op.queueSize] else c.buffer.chunks
  }

  /** A load starts: of the chunk held, if it is granted; after a failure, if the retry is due. */
  predicate Starts(c: Core, env: Env) {
    && c.load.loader.Resting? && Holds(c, env).Some?
    && if c.load.backedOff then env.retryDue else env.granted
  }

  /** A media chunk is queued when its load starts for the first time. */
  predicate Queues(c: Core, env: Env) {
    && Starts(c, env) && Holds(c, env).value.Media?
    && !(c.load.backedOff && (System.RetriesFirst(c) || env.op.next.Keep?))
  }

  /** All that an update does to what is loaded. */
  ghost predicate LoadsAs(c: Core, env: Env, l': Load) {
    var l := c.load;
    && l'.holder.chunk == Holds(c, env)
    && l'.finished == (if Asks(c, env) then env.op.endOfStream && !GivesUp(c, env) else l.finished)
    && l'.nextId == l.nextId + (if Asks(c, env) && (env.op.next.NewMedia? || env.op.next.NewInit?) then 1 else 0)
    && l'.pendingReset == (if Queues(c, env) then NO_RESET else l.pendingReset)
    && l'.loader == (if Starts(c, env) then Loading(Holds(c, env).value.id, false) else l.loader)
    && l'.backedOff == (l.backedOff && !env.retryDue)
    && l'.errorCount ==
       (if l.backedOff && c.HoldsMedia() && Asks(c, env) && !env.op.next.Keep? then 0 else l.errorCount)
  }

  /** And to what is queued: chunks are given up from the end, with their samples, and a new one is added
      that starts where the samples end. */
  ghost predicate QueuesAs(c: Core, env: Env, b': Buffers.Buffer) {
    var b := c.buffer;
    && b'.chunks == Keeps(c, env) + (if Queues(c, env) then [NewChunk(Holds(c, env).value, b'.Write())] else [])
    && b'.Write() == (if GivesUp(c, env) then b.chunks[env.op.queueSize].first else b.Write())
    && b'.Read() == b.Read() && b'.Samples() <= b.Samples()
  }

  lemma UpdateDoes(c: Core, env: Env)
    requires UpdateOk(c, env) && (c.load.backedOff ==> c.load.loader.Resting?)
    ensures LoadsAs(c, env, UpdateLoadControl(c, env).load) && QueuesAs(c, env, UpdateLoadControl(c, env).buffer)
  {
    if !c.load.backedOff {
      EvaluatedIs(c, env);
    } else if env.retryDue && !System.RetriesFirst(c) {
      if c.HoldsMedia() {
        ResumeLastIs(c, env);
      } else {
        ResumeInitIs(c, env);
      }
    }
  }

  /** What cutting the deque leaves. */
  lemma DiscardIs(c: Core, n: nat)
    requires DiscardOk(c.buffer, n)
    ensures var c', cut := DiscardUpstream(c, n), n < |c.buffer.chunks|;
            && c'.load == c.load.(finished := c.load.finished && !cut)
            && c'.buffer.chunks == (if cut then c.buffer.chunks[..n] else c.buffer.chunks)
            && c'.buffer.Write() == (if cut then c.buffer.chunks[n].first else c.buffer.Write())
            && c'.buffer.Read() == c.buffer.Read() && c'.buffer.Samples() <= c.buffer.Samples()
  {
  }

  lemma EvaluatedIs(c: Core, env: Env)
    requires UpdateOk(c, env) && !c.load.backedOff
    ensures LoadsAs(c, env, UpdateLoadControl(c, env).load) && QueuesAs(c, env, UpdateLoadControl(c, env).buffer)
  {
    if NeedsEvaluation(c, env) {
      DiscardIs(c.(load := DoChunkOperation(c.load, env.op)), env.op.queueSize);
    }
  }

  lemma ResumeInitIs(c: Core, env: Env)
    requires UpdateOk(c, env) && c.load.backedOff && c.load.loader.Resting? && env.retryDue && !c.HoldsMedia()
    ensures LoadsAs(c, env, ResumeInit(c, env.op).load) && QueuesAs(c, env, ResumeInit(c, env.op).buffer)
  {
    DiscardIs(c.(load := DoChunkOperation(c.load.(backedOff := false), env.op)), env.op.queueSize);
  }

  lemma ResumeLastIs(c: Core, env: Env)
    requires UpdateOk(c, env) && c.load.backedOff && c.load.loader.Resting? && env.retryDue
    requires c.HoldsMedia() && !System.RetriesFirst(c)
    ensures LoadsAs(c, env, ResumeLast(c, env.op).load) && QueuesAs(c, env, ResumeLast(c, env.op).buffer)
  {
    DiscardIs(c.(load := DoChunkOperation(c.load.(backedOff := false), env.op)), env.op.queueSize);
  }

  function NewChunk(l: Loadable, first: nat): Buffers.MediaChunk
    requires l.Media?
  {
    Buffers.MediaChunk(l.id, l.startUs, l.endUs, first)
  }

  /** What is reported: busy while a chunk is being loaded or waits to be retried; and as the next position
      that of the reset, or the end of the last chunk that is kept, or none at the end; none
      either if the chunk source was asked and had nothing. */
  lemma UpdateReports(c: Core, env: Env)
    requires UpdateOk(c, env) && (c.load.backedOff ==> c.load.loader.Resting?)
    requires c.buffer.chunks != [] ==> env.op.queueSize > 0
    ensures ReportedBusy(c) <==> c.load.loader.Loading? || c.load.backedOff
    ensures !c.load.backedOff ==>
              ReportedPosition(c, env) ==
              (if Asks(c, env) && Holds(c, env).None? then -1
               else if c.load.pendingReset != NO_RESET then c.load.pendingReset
               else if GivesUp(c, env) then Keeps(c, env)[|Keeps(c, env)| - 1].endUs
               else if c.load.finished then -1
               else c.buffer.chunks[|c.buffer.chunks| - 1].endUs)
  {
    if NeedsEvaluation(c, env) {
      DiscardIs(c.(load := DoChunkOperation(c.load, env.op)), env.op.queueSize);
    }
  }

  /** A load that ended: nothing is held after one that completed; one that failed is still held, and counted;
      after one that was canceled everything is given up. */
  lemma DoneLeaves(c: Core, outcome: Outcome)
    ensures var c' := DonePoint(c, outcome);
            && c'.load.loader.Resting? && c'.load.nextId == c.load.nextId && c'.load.pendingReset == c.load.pendingReset
            && (c'.load.backedOff <==> outcome.Error?)
            && c'.load.errorCount == (if outcome.Error? then c.load.errorCount + 1 else 0)
            && c'.load.holder.chunk == (if outcome.Error? then c.load.holder.chunk else None)
            && (outcome.Canceled? ==> c'.buffer.chunks == [] && c'.buffer.Samples() == [] && !c'.load.finished)
            && (!outcome.Canceled? ==> c'.buffer == c.buffer && c'.load.finished == c.load.finished)
  {
  }
}
