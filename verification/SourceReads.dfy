/**
 What a reader of the chunk sample source gets, over every run from a new source: each sample
 read is one that was committed, in the order of the commits and none twice; it is marked
 for decoding only if it lies on the wrong side of the last seek; it comes after its format;
 and nothing committed before a restart is read after it.
 */
module SourceReads {
  import opened Samples
  import SampleQueue
  import Runs
  import opened InfoQueues
  import TrackOutputs
  import Buffers = ChunkBuffers
  import opened BufferedSource
  import opened SourceSafety

  ghost predicate StepsTo(s: Source, e: Event, u: Source) {
    Inv(s) && EventOk(s, e) && u == Step(s, e)
  }

  /** The states of a new source over a sequence of events. */
  ghost predicate IsRun(states: seq<Source>, events: seq<Event>) {
    && |states| == |events| + 1 && states[0] == INITIAL
    && forall i :: 0 <= i < |events| ==> StepsTo(states[i], events[i], states[i + 1])
  }

  ghost function Result(s: Source, e: Event): ReadResult
    requires Inv(s) && EventOk(s, e) && e.ReadData?
  {
    ReadDefined(s);
    ReadStep(s, e.positionUs, e.chunkFormat, e.formatFinal, e.forward).1
  }

  /** The event reads a sample. */
  ghost predicate Reads(s: Source, e: Event) {
    Inv(s) && EventOk(s, e) && e.ReadData? && Result(s, e).SampleRead?
  }

  // ----- What the events say --------------------------------------------------------

  /** Where the events so far have last been sent: by a seek or by being enabled. */
  function SeekPosition(events: seq<Event>, i: nat): int
    requires i <= |events|
  {
    if i == 0 then 0
    else
      match events[i - 1]
      case Enable(p, _) => p
      case SeekTo(p, _) => p
      case _ => SeekPosition(events, i - 1)
  }

  /** Where the player is: at the position it last gave. */
  function PlayerPosition(events: seq<Event>, i: nat): int
    requires i <= |events|
  {
    if i == 0 then 0
    else
      match events[i - 1]
      case Enable(p, _) => p
      case SeekTo(p, _) => p
      case ContinueBuffering(p, _) => p
      case ReadData(p, _, _, _) => p
      case _ => PlayerPosition(events, i - 1)
  }

  /** The sample handed out for a committed one: the same but for its mark, which it also gets if it is
      before the position sought when playing forward, or after it when playing backward. */
  ghost predicate Delivers(info: SampleInfo, seekUs: int, forward: bool, p: Peeked) {
    && p.timeUs == info.timeUs && p.durationUs == info.durationUs && p.size == info.size
    && (p.offset - info.offset) % 0x1_0000_0000 == 0 && (info.offset < 0x8000_0000 ==> p.offset == info.offset)
    && p.flags.sync == info.flags.sync && p.flags.encrypted == info.flags.encrypted
    && (p.flags.decodeOnly <==>
        || info.flags.decodeOnly
        || (forward && info.timeUs < seekUs)
        || (!forward && seekUs < info.timeUs))
    && (p.extras.Some? <==> info.flags.encrypted)
    && (p.extras.Some? ==> p.extras.value == Extras(info.keyId, info.iv, info.bytesClear, info.bytesEnc))
  }

  // ----- Positions ------------------------------------------------------------------

  /** The positions a source remembers are those that the events gave. */
  ghost predicate Follows(s: Source, events: seq<Event>, i: nat)
    requires i <= |events|
  {
    && s.play.lastSeekUs == SeekPosition(events, i)
    && s.play.downstreamUs == PlayerPosition(events, i)
    && (s.life.phase.Enabled? && s.core.IsPendingReset() ==> s.core.load.pendingReset == SeekPosition(events, i))
  }

  lemma StepFollows(s: Source, e: Event, u: Source, events: seq<Event>, i: nat)
    requires StepsTo(s, e, u) && i < |events| && events[i] == e && Follows(s, events, i)
    ensures Follows(u, events, i + 1)
  {
    match e
    case Enable(p, env) => UpdateKeepsReset(Restarted(s.core, p), env);
    case ContinueBuffering(_, env) =>
      UpdateDefined(s.core, env);
      UpdateKeepsReset(s.core, env);
    case ReadData(p, chunkFormat, formatFinal, forward) =>
      ReadDefined(s);
      ReadShape(s, p, chunkFormat, formatFinal, forward);
    case SeekTo(p, env) =>
      if p != NO_RESET {
        UpdateKeepsReset(Restarted(s.core, p), env);
      }
    case LoadDone(_, _) => DoneFollows(s, e, u);
    case _ =>
  }

  lemma DoneFollows(s: Source, e: Event, u: Source)
    requires StepsTo(s, e, u) && e.LoadDone?
    ensures u.play == s.play
    ensures u.life.phase.Enabled? && u.core.IsPendingReset() ==>
              s.life.phase.Enabled? && u.core.load.pendingReset == s.core.load.pendingReset
  {
    DoneDefined(s, e.outcome, e.env);
    if !EndsDisable(s, e.outcome) {
      UpdateKeepsReset(DonePoint(s.core, e.outcome), e.env);
    }
  }

  /** Updating the load control ends a pending reset, or leaves it as it is. */
  lemma UpdateKeepsReset(c: Core, env: Env)
    requires UpdateOk(c, env)
    ensures var c' := UpdateLoadControl(c, env);
            c'.load.pendingReset == c.load.pendingReset || !c'.IsPendingReset()
  {
  }

  /** In every state of every run. */
  lemma PositionsFollowEvents(states: seq<Source>, events: seq<Event>, i: nat)
    requires IsRun(states, events) && i < |states|
    ensures Follows(states[i], events, i)
  {
    forall k: nat | k < |events| && Follows(states[k], events, k)
      ensures Follows(states[k + 1], events, k + 1)
    {
      StepFollows(states[k], events[k], states[k + 1], events, k);
    }
    Runs.HoldsAlong(|events|, (k: nat) => k < |states| && Follows(states[k], events, k), i);
  }

  // ----- The life cycle -------------------------------------------------------------

  /** The phase that the events lead to. Disabling ends with the posted task, or when the load in flight has
      been canceled. */
  function PhaseAfter(events: seq<Event>, i: nat): Phase
    requires i <= |events|
  {
    if i == 0 then Idle
    else
      var before := PhaseAfter(events, i - 1);
      match events[i - 1]
      case Register => Initialized
      case Prepare(ready) => if ready then Prepared else before
      case Enable(_, _) => Enabled
      case Disable(_) => Disabling
      case RunPosted => Prepared
      case LoadDone(outcome, _) => if outcome.Canceled? && before != Enabled then Prepared else before
      case _ => before
  }

  /** The callbacks that the events ask for. */
  function CallbacksAsked(events: seq<Event>, i: nat): seq<nat>
    requires i <= |events|
  {
    if i == 0 then []
    else
      CallbacksAsked(events, i - 1) +
      if events[i - 1].Disable? && events[i - 1].done.Some? then [events[i - 1].done.value] else []
  }

  ghost predicate LivesAs(s: Source, events: seq<Event>, i: nat)
    requires i <= |events|
  {
    && s.life.phase == PhaseAfter(events, i) && s.life.asked == CallbacksAsked(events, i)
    && (s.life.phase.Disabling? ==> s.life.posted || (s.core.load.loader.Loading? && s.core.load.loader.canceled))
    && (!s.life.phase.Disabling? ==> s.life.ran == s.life.asked)
  }

  lemma StepLives(s: Source, e: Event, u: Source, events: seq<Event>, i: nat)
    requires StepsTo(s, e, u) && i < |events| && events[i] == e && LivesAs(s, events, i)
    ensures LivesAs(u, events, i + 1)
  {
    StepKeepsInv(s, e);
    if e.ReadData? {
      ReadDefined(s);
      ReadShape(s, e.positionUs, e.chunkFormat, e.formatFinal, e.forward);
    }
    SoundLives(u);
  }

  lemma SoundLives(u: Source)
    requires Inv(u)
    ensures u.life.phase.Disabling? ==> u.life.posted || (u.core.load.loader.Loading? && u.core.load.loader.canceled)
    ensures !u.life.phase.Disabling? ==> u.life.ran == u.life.asked
  {
    if !u.life.phase.Disabling? {
      assert u.life.ran + [] == u.life.ran;
    }
  }

  /** In every run the source is in the phase that the events lead to; disabling has a task posted or a load
      being canceled, so it ends; and once it has ended every callback asked for has been run. */
  lemma LifeFollowsEvents(states: seq<Source>, events: seq<Event>, i: nat)
    requires IsRun(states, events) && i < |states|
    ensures LivesAs(states[i], events, i)
  {
    forall k: nat | k < |events| && LivesAs(states[k], events, k)
      ensures LivesAs(states[k + 1], events, k + 1)
    {
      StepLives(states[k], events[k], states[k + 1], events, k);
    }
    Runs.HoldsAlong(|events|, (k: nat) => k < |states| && k <= |events| && LivesAs(states[k], events, k), i);
  }

  // ----- Samples come from commits --------------------------------------------------

  function Queued(s: Source): seq<SampleInfo> {
    s.core.buffer.Samples()
  }

  /** `part` is what is left of `whole` without its first `a` and those from the `b`-th on. */
  ghost predicate IsPart(whole: seq<SampleInfo>, part: seq<SampleInfo>, a: nat, b: nat) {
    a <= b <= |whole| && part == whole[a..b]
  }

  lemma DiscardCuts(c: Core, n: nat)
    requires DiscardOk(c.buffer, n)
    ensures var part := DiscardUpstream(c, n).buffer.Samples();
            IsPart(c.buffer.Samples(), part, 0, |part|)
  {
  }

  /** Updating the load control may cut the queue at its end. */
  lemma UpdateCuts(c: Core, env: Env)
    requires UpdateOk(c, env)
    ensures var part := UpdateLoadControl(c, env).buffer.Samples();
            IsPart(c.buffer.Samples(), part, 0, |part|)
  {
    DiscardCuts(c, env.op.queueSize);
  }

  lemma ReadLeaves(s: Source, e: Event, u: Source) returns (a: nat)
    requires StepsTo(s, e, u) && e.ReadData?
    ensures IsPart(Queued(s), Queued(u), a, |Queued(s)|)
    ensures Reads(s, e) ==> a > 0 && Delivers(Queued(s)[a - 1], s.play.lastSeekUs, e.forward, Result(s, e).sample)
  {
    if Reads(s, e) {
      ReadTakes(s, e, u);
      a := |Queued(s)| - |Queued(u)|;
      MarkedDelivers(Queued(s)[a - 1], s.play.lastSeekUs, e.forward);
    } else {
      a := ReadSettles(s, e, u);
    }
  }

  lemma ReadSettles(s: Source, e: Event, u: Source) returns (a: nat)
    requires StepsTo(s, e, u) && e.ReadData? && !Reads(s, e)
    ensures IsPart(Queued(s), Queued(u), a, |Queued(s)|)
  {
    NotReadShape(s, e, u);
    ReadiedIsRear(s.core.buffer);
    a := if u.core.buffer == s.core.buffer then 0 else |Queued(s)| - |Queued(u)|;
  }

  lemma NotReadShape(s: Source, e: Event, u: Source)
    requires StepsTo(s, e, u) && e.ReadData? && !Reads(s, e)
    ensures |s.core.buffer.Samples()| == |s.core.buffer.origins|
    ensures u.core.buffer == s.core.buffer || u.core.buffer == Readied(s.core.buffer)
  {
    ReadDefined(s);
    ReadShape(s, e.positionUs, e.chunkFormat, e.formatFinal, e.forward);
  }

  lemma ReadTakes(s: Source, e: Event, u: Source)
    requires StepsTo(s, e, u) && Reads(s, e)
    ensures var a := |Queued(s)| - |Queued(u)|;
            && a > 0 && IsPart(Queued(s), Queued(u), a, |Queued(s)|) && Queued(s)[a - 1].offset >= 0
            && Result(s, e).sample == Marked(PeekOf(Queued(s)[a - 1]), s.play.lastSeekUs, e.forward)
  {
    var b := Readied(s.core.buffer);
    ReadShapeTaken(s, e, u);
    ReadiedIsRear(s.core.buffer);
    TakenIsRear(b);
    assert b.Samples()[0] == Queued(s)[|Queued(s)| - |b.Samples()|];
  }

  lemma ReadShapeTaken(s: Source, e: Event, u: Source)
    requires StepsTo(s, e, u) && Reads(s, e)
    ensures var b := s.core.buffer;
            && |b.Samples()| == |b.origins| && |Readied(b).Samples()| == |Readied(b).origins|
            && Readied(b).Samples() != [] && u.core.buffer == Buffers.Taken(Readied(b))
            && Result(s, e).sample == Marked(PeekOf(Readied(b).Samples()[0]), s.play.lastSeekUs, e.forward)
  {
    ReadDefined(s);
    ReadiedIsSettled(s.core.buffer);
    ReadShape(s, e.positionUs, e.chunkFormat, e.formatFinal, e.forward);
  }

  lemma TakenIsRear(b: Buffers.Buffer)
    requires |b.Samples()| == |b.origins| && b.Samples() != []
    ensures Buffers.Taken(b).Samples() == b.Samples()[1..]
  {
  }

  lemma MarkedDelivers(info: SampleInfo, seekUs: int, forward: bool)
    requires info.offset >= 0
    ensures Delivers(info, seekUs, forward, Marked(PeekOf(info), seekUs, forward))
  {
  }

  /** A read drops samples at the front. */
  lemma ReadiedIsRear(b: Buffers.Buffer)
    requires |b.Samples()| == |b.origins|
    ensures var b' := Readied(b);
            && |b'.Samples()| == |b'.origins| && |b'.Samples()| <= |b.Samples()|
            && IsPart(b.Samples(), b'.Samples(), |b.Samples()| - |b'.Samples()|, |b.Samples()|)
            && b'.Read() - b.Read() == |b.Samples()| - |b'.Samples()|
  {
    ReadiedIsSettled(b);
  }

  lemma SeekLeaves(s: Source, e: Event, u: Source) returns (a: nat, b: nat)
    requires StepsTo(s, e, u) && e.SeekTo?
    ensures IsPart(Queued(s), Queued(u), a, b)
  {
    a, b := 0, |Queued(s)|;
    if !SeekIsNoop(s, e.positionUs) {
      if SeeksInside(s.core, e.positionUs) {
        SampleQueue.LastKeyframeInRange(Queued(s), e.positionUs);
        a := |Queued(s)| - |Queued(u)|;
      } else if s.core.load.loader.Resting? {
        UpdateCuts(Restarted(s.core, e.positionUs), e.env);
        b := 0;
      }
    }
  }

  lemma ContinueLeaves(s: Source, e: Event, u: Source) returns (a: nat, b: nat)
    requires StepsTo(s, e, u) && e.ContinueBuffering?
    ensures IsPart(Queued(s), Queued(u), a, b)
  {
    UpdateDefined(s.core, e.env);
    UpdateCuts(s.core, e.env);
    b := |UpdateLoadControl(s.core, e.env).buffer.Samples()|;
    a := b - |Queued(u)|;
  }

  lemma DoneLeaves(s: Source, e: Event, u: Source) returns (b: nat)
    requires StepsTo(s, e, u) && e.LoadDone?
    ensures IsPart(Queued(s), Queued(u), 0, b)
  {
    DoneDefined(s, e.outcome, e.env);
    if EndsDisable(s, e.outcome) {
      b := 0;
    } else {
      UpdateCuts(DonePoint(s.core, e.outcome), e.env);
      b := |Queued(u)|;
    }
  }

  /** What an event other than a commit leaves of the queue is a part of it, and a sample that is read is
      the one just before that part. */
  lemma StepLeaves(s: Source, e: Event, u: Source) returns (a: nat, b: nat)
    requires StepsTo(s, e, u) && !e.CommitSample?
    ensures IsPart(Queued(s), Queued(u), a, b)
    ensures Reads(s, e) ==> a > 0 && Delivers(Queued(s)[a - 1], s.play.lastSeekUs, e.forward, Result(s, e).sample)
  {
    a, b := 0, |Queued(s)|;
    match e
    case Enable(p, env) =>
      UpdateCuts(Restarted(s.core, p), env);
      b := 0;
    case ContinueBuffering(_, env) => a, b := ContinueLeaves(s, e, u);
    case ReadData(_, _, _, _) => a := ReadLeaves(s, e, u);
    case SeekTo(p, env) => a, b := SeekLeaves(s, e, u);
    case LoadDone(outcome, env) => b := DoneLeaves(s, e, u);
    case RunPosted => b := 0;
    case _ =>
  }

  // ----- A restart leaves nothing behind --------------------------------------------

  /** While a reset is pending nothing is queued, unless a load that is being canceled has to end first. */
  ghost predicate ResetsCleanly(s: Source) {
    var loader := s.core.load.loader;
    s.core.IsPendingReset() && !(loader.Loading? && loader.canceled) ==> s.core.buffer.chunks == []
  }

  /** The position is not where the source is going to, or else where the player is. */
  predicate Elsewhere(s: Source, positionUs: int) {
    positionUs != if s.core.load.pendingReset != NO_RESET then s.core.load.pendingReset else s.play.downstreamUs
  }

  /** A keyframe to start from is queued, and nothing later before it. */
  ghost predicate IsBuffered(s: Source, positionUs: int) {
    && s.core.load.pendingReset == NO_RESET && SampleQueue.InQueuedRange(Queued(s), positionUs)
    && exists k: nat :: SampleQueue.ReachableKeyframe(Queued(s), positionUs, k)
  }

  /** The event gives up everything queued, to load from another position. */
  ghost predicate Restarts(s: Source, e: Event) {
    e.Enable? || (e.SeekTo? && Elsewhere(s, e.positionUs) && !IsBuffered(s, e.positionUs))
  }

  lemma RestartsIff(s: Source, positionUs: int)
    ensures Elsewhere(s, positionUs) <==> !SeekIsNoop(s, positionUs)
    ensures IsBuffered(s, positionUs) <==> SeeksInside(s.core, positionUs)
  {
    SampleQueue.SkipTargetIsLastReachableKeyframe(Queued(s), positionUs);
  }

  lemma UpdateResetsCleanly(c: Core, env: Env)
    requires UpdateOk(c, env) && c.load.loader.Resting? && (c.IsPendingReset() ==> c.buffer.chunks == [])
    ensures var c' := UpdateLoadControl(c, env);
            && (c'.IsPendingReset() ==> c'.buffer.chunks == [])
            && (c.IsPendingReset() ==> c'.IsPendingReset() || c'.buffer.Samples() == c.buffer.Samples())
            && (c'.load.loader.Loading? ==> !c'.load.loader.canceled)
  {
  }

  lemma StepResetsCleanly(s: Source, e: Event, u: Source)
    requires StepsTo(s, e, u) && ResetsCleanly(s)
    ensures ResetsCleanly(u)
    ensures s.core.IsPendingReset() && !u.core.IsPendingReset() ==> Queued(u) == []
    ensures Restarts(s, e) ==> u.core.IsPendingReset() || Queued(u) == []
  {
    match e
    case Enable(p, env) => UpdateResetsCleanly(Restarted(s.core, p), env);
    case ContinueBuffering(_, env) => ContinueResetsCleanly(s, e, u);
    case ReadData(p, chunkFormat, formatFinal, forward) =>
      ReadDefined(s);
      ReadShape(s, p, chunkFormat, formatFinal, forward);
    case SeekTo(p, env) =>
      RestartsIff(s, p);
      if p != NO_RESET && s.core.load.loader.Resting? {
        UpdateResetsCleanly(Restarted(s.core, p), env);
      }
    case LoadDone(outcome, env) => DoneResetsCleanly(s, e, u);
    case _ =>
  }

  lemma ContinueResetsCleanly(s: Source, e: Event, u: Source)
    requires StepsTo(s, e, u) && ResetsCleanly(s) && e.ContinueBuffering?
    ensures ResetsCleanly(u)
    ensures s.core.IsPendingReset() && !u.core.IsPendingReset() ==> Queued(u) == []
  {
    UpdateDefined(s.core, e.env);
    if s.core.load.loader.Resting? {
      UpdateResetsCleanly(s.core, e.env);
    }
  }

  lemma DoneResetsCleanly(s: Source, e: Event, u: Source)
    requires StepsTo(s, e, u) && ResetsCleanly(s) && e.LoadDone?
    ensures ResetsCleanly(u)
    ensures s.core.IsPendingReset() && !u.core.IsPendingReset() ==> Queued(u) == []
  {
    DoneDefined(s, e.outcome, e.env);
    if !EndsDisable(s, e.outcome) {
      UpdateResetsCleanly(DonePoint(s.core, e.outcome), e.env);
    }
  }

  lemma RunResetsCleanly(states: seq<Source>, events: seq<Event>, i: nat)
    requires IsRun(states, events) && i < |states|
    ensures ResetsCleanly(states[i])
  {
    forall k: nat | k < |events| && ResetsCleanly(states[k])
      ensures ResetsCleanly(states[k + 1])
    {
      StepResetsCleanly(states[k], events[k], states[k + 1]);
    }
    Runs.HoldsAlong(|events|, (k: nat) => k < |states| && ResetsCleanly(states[k]), i);
  }

  // ----- The commit each sample comes from ------------------------------------------

  /** As much of a state as matters for where samples come from. */
  datatype View = View(queue: seq<SampleInfo>, pending: bool, seekUs: int)

  ghost function ViewOf(s: Source): View {
    View(Queued(s), s.core.IsPendingReset(), s.play.lastSeekUs)
  }

  ghost predicate Passes(x: View, e: Event, y: View, read: Option<Peeked>, a: nat, b: nat) {
    && IsPart(x.queue, y.queue, a, b)
    && (read.Some? ==> a > 0 && e.ReadData? && Delivers(x.queue[a - 1], x.seekUs, e.forward, read.value))
  }

  ghost predicate ViewStep(x: View, e: Event, y: View, read: Option<Peeked>, restarts: bool) {
    && (if e.CommitSample? then read.None? && y.queue == x.queue + [e.info]
        else exists a: nat, b: nat :: Passes(x, e, y, read, a, b))
    && (read.Some? ==> !x.pending)
    && (x.pending && !y.pending ==> y.queue == [])
    && (restarts ==> y.pending || y.queue == [])
  }

  ghost function ReadBy(s: Source, e: Event): Option<Peeked> {
    if Reads(s, e) then Some(Result(s, e).sample) else None
  }

  lemma StepIsViewStep(s: Source, e: Event, u: Source)
    requires StepsTo(s, e, u) && ResetsCleanly(s)
    ensures ViewStep(ViewOf(s), e, ViewOf(u), ReadBy(s, e), Restarts(s, e))
  {
    StepResetsCleanly(s, e, u);
    PendingReadsNothing(s, e);
    if !e.CommitSample? {
      var a, b := StepLeaves(s, e, u);
      assert Passes(ViewOf(s), e, ViewOf(u), ReadBy(s, e), a, b);
    }
  }

  lemma PendingReadsNothing(s: Source, e: Event)
    requires Inv(s)
    ensures s.core.IsPendingReset() || s.play.discontinuity ==> ReadBy(s, e).None?
  {
    if Reads(s, e) {
      ReadDefined(s);
      ReadShape(s, e.positionUs, e.chunkFormat, e.formatFinal, e.forward);
    }
  }

  /** A run seen from outside. */
  datatype Trace = Trace(views: seq<View>, events: seq<Event>, taken: seq<Option<Peeked>>, restarts: seq<bool>)

  ghost predicate IsTrace(t: Trace) {
    && |t.views| == |t.events| + 1 == |t.taken| + 1 == |t.restarts| + 1 && t.views[0].queue == []
    && forall i :: 0 <= i < |t.events| ==> ViewStep(t.views[i], t.events[i], t.views[i + 1], t.taken[i], t.restarts[i])
  }

  /** Queued samples are those of the commits `from`, in order. */
  ghost predicate QueuedFrom(t: Trace, i: nat, from: seq<nat>)
    requires IsTrace(t) && i <= |t.events|
  {
    && |from| == |t.views[i].queue|
    && (forall k :: 0 <= k < |from| ==> from[k] < i && t.events[from[k]] == CommitSample(t.views[i].queue[k]))
    && (forall k, l :: 0 <= k < l < |from| ==> from[k] < from[l])
  }

  /** The sample that event `j` read is the one that event `c` committed. */
  ghost predicate ReadFrom(t: Trace, j: nat, c: nat)
    requires IsTrace(t) && j < |t.events| && t.taken[j].Some?
  {
    && c < j && t.events[c].CommitSample? && t.events[j].ReadData?
    && Delivers(t.events[c].info, t.views[j].seekUs, t.events[j].forward, t.taken[j].value)
  }

  /** The samples read so far are those of the commits `origin`, in order, and come before the queued ones. */
  ghost predicate TakenFrom(t: Trace, i: nat, from: seq<nat>, origin: seq<nat>)
    requires IsTrace(t) && i <= |t.events|
  {
    && |origin| == i
    && (forall j :: 0 <= j < i && t.taken[j].Some? ==> ReadFrom(t, j, origin[j]))
    && (forall j, l :: 0 <= j < l < i && t.taken[j].Some? && t.taken[l].Some? ==> origin[j] < origin[l])
    && (forall j, k :: 0 <= j < i && t.taken[j].Some? && 0 <= k < |from| ==> origin[j] < from[k])
  }

  /** What was read or, unless a reset is pending, is queued after a restart was committed after it. */
  ghost predicate AfterRestarts(t: Trace, i: nat, from: seq<nat>, origin: seq<nat>)
    requires IsTrace(t) && i <= |t.events|
  {
    && |origin| == i
    && (forall j, l :: 0 <= j < l < i && t.restarts[j] && t.taken[l].Some? ==> j < origin[l])
    && (forall j, k :: 0 <= j < i && t.restarts[j] && !t.views[i].pending && 0 <= k < |from| ==> j < from[k])
  }

  ghost predicate Origins(t: Trace, i: nat, from: seq<nat>, origin: seq<nat>)
    requires IsTrace(t) && i <= |t.events|
  {
    QueuedFrom(t, i, from) && TakenFrom(t, i, from, origin) && AfterRestarts(t, i, from, origin)
  }

  lemma {:induction false} TraceHasOrigins(t: Trace, i: nat) returns (from: seq<nat>, origin: seq<nat>)
    requires IsTrace(t) && i <= |t.events|
    ensures Origins(t, i, from, origin)
  {
    if i == 0 {
      from, origin := [], [];
    } else {
      var from0, origin0 := TraceHasOrigins(t, i - 1);
      from, origin := OneMore(t, i - 1, from0, origin0);
    }
  }

  lemma OneMore(t: Trace, i: nat, from: seq<nat>, origin: seq<nat>) returns (from': seq<nat>, origin': seq<nat>)
    requires IsTrace(t) && i < |t.events| && Origins(t, i, from, origin)
    ensures Origins(t, i + 1, from', origin')
  {
    var x, e, y := t.views[i], t.events[i], t.views[i + 1];
    assert ViewStep(x, e, y, t.taken[i], t.restarts[i]);
    if e.CommitSample? {
      from', origin' := from + [i], origin + [0];
      CommitTraced(t, i, from, origin);
    } else {
      var a: nat, b: nat :| Passes(x, e, y, t.taken[i], a, b);
      from' := from[a..b];
      origin' := origin + [if t.taken[i].Some? then from[a - 1] else 0];
      PassTaken(t, i, from, origin, a, b);
      PassAfterRestarts(t, i, from, origin, a, b);
    }
  }

  lemma CommitTraced(t: Trace, i: nat, from: seq<nat>, origin: seq<nat>)
    requires IsTrace(t) && i < |t.events| && Origins(t, i, from, origin) && t.events[i].CommitSample?
    requires ViewStep(t.views[i], t.events[i], t.views[i + 1], t.taken[i], t.restarts[i])
    ensures Origins(t, i + 1, from + [i], origin + [0])
  {
    CommitQueued(t, i, from);
    CommitTaken(t, i, from, origin);
    assert AfterRestarts(t, i + 1, from + [i], origin + [0]);
  }

  lemma CommitQueued(t: Trace, i: nat, from: seq<nat>)
    requires IsTrace(t) && i < |t.events| && QueuedFrom(t, i, from) && t.events[i].CommitSample?
    requires t.views[i + 1].queue == t.views[i].queue + [t.events[i].info]
    ensures QueuedFrom(t, i + 1, from + [i])
  {
  }

  lemma CommitTaken(t: Trace, i: nat, from: seq<nat>, origin: seq<nat>)
    requires IsTrace(t) && i < |t.events| && TakenFrom(t, i, from, origin) && t.taken[i].None?
    ensures TakenFrom(t, i + 1, from + [i], origin + [0])
  {
  }

  lemma PassTaken(t: Trace, i: nat, from: seq<nat>, origin: seq<nat>, a: nat, b: nat)
    requires IsTrace(t) && i < |t.events| && QueuedFrom(t, i, from) && TakenFrom(t, i, from, origin)
    requires Passes(t.views[i], t.events[i], t.views[i + 1], t.taken[i], a, b)
    ensures QueuedFrom(t, i + 1, from[a..b])
    ensures TakenFrom(t, i + 1, from[a..b], origin + [if t.taken[i].Some? then from[a - 1] else 0])
  {
    PassQueued(t, i, from, a, b);
    if t.taken[i].Some? {
      assert ReadFrom(t, i, from[a - 1]);
      OneMoreTaken(t, i, from, origin, a, b, from[a - 1]);
    } else {
      OneMoreTaken(t, i, from, origin, a, b, 0);
    }
  }

  lemma PassQueued(t: Trace, i: nat, from: seq<nat>, a: nat, b: nat)
    requires IsTrace(t) && i < |t.events| && QueuedFrom(t, i, from)
    requires IsPart(t.views[i].queue, t.views[i + 1].queue, a, b)
    ensures QueuedFrom(t, i + 1, from[a..b])
  {
  }

  lemma OneMoreTaken(t: Trace, i: nat, from: seq<nat>, origin: seq<nat>, a: nat, b: nat, c: nat)
    requires IsTrace(t) && i < |t.events| && TakenFrom(t, i, from, origin) && a <= b <= |from|
    requires forall k, l :: 0 <= k < l < |from| ==> from[k] < from[l]
    requires t.taken[i].Some? ==> ReadFrom(t, i, c) && a > 0 && c == from[a - 1]
    ensures TakenFrom(t, i + 1, from[a..b], origin + [c])
  {
    var origin' := origin + [c];
    forall j | 0 <= j < i + 1 && t.taken[j].Some?
      ensures ReadFrom(t, j, origin'[j])
    {
      assert j < i ==> origin'[j] == origin[j];
    }
  }

  lemma PassAfterRestarts(t: Trace, i: nat, from: seq<nat>, origin: seq<nat>, a: nat, b: nat)
    requires IsTrace(t) && i < |t.events| && QueuedFrom(t, i, from) && AfterRestarts(t, i, from, origin)
    requires Passes(t.views[i], t.events[i], t.views[i + 1], t.taken[i], a, b)
    requires ViewStep(t.views[i], t.events[i], t.views[i + 1], t.taken[i], t.restarts[i])
    ensures AfterRestarts(t, i + 1, from[a..b], origin + [if t.taken[i].Some? then from[a - 1] else 0])
  {
  }

  // ----- The theorem ----------------------------------------------------------------

  ghost function TraceOf(states: seq<Source>, events: seq<Event>): Trace
    requires |states| == |events| + 1
  {
    Trace(seq(|states|, i requires 0 <= i < |states| => ViewOf(states[i])),
          events,
          seq(|events|, i requires 0 <= i < |events| => ReadBy(states[i], events[i])),
          seq(|events|, i requires 0 <= i < |events| => Restarts(states[i], events[i])))
  }

  lemma RunIsTrace(states: seq<Source>, events: seq<Event>)
    requires IsRun(states, events)
    ensures IsTrace(TraceOf(states, events))
  {
    var t := TraceOf(states, events);
    forall i | 0 <= i < |t.events|
      ensures ViewStep(t.views[i], t.events[i], t.views[i + 1], t.taken[i], t.restarts[i])
    {
      RunResetsCleanly(states, events, i);
      StepIsViewStep(states[i], events[i], states[i + 1]);
    }
  }

  /** Event `j` reads the sample that event `c` committed, marked by the last position the events gave. */
  ghost predicate ReadsCommit(states: seq<Source>, events: seq<Event>, j: nat, c: nat)
    requires j < |events| < |states|
  {
    && c < j && events[c].CommitSample? && Reads(states[j], events[j])
    && Delivers(events[c].info, SeekPosition(events, j), events[j].forward, Result(states[j], events[j]).sample)
  }

  /** In every run there is a commit for every sample that is read: the sample is the committed one, marked
      for decoding only exactly if it was committed so or is on the wrong side of the last seek;
      the commits are read in order, none twice; and after a restart, none from before. */
  lemma ReadsDeliverCommits(states: seq<Source>, events: seq<Event>) returns (origin: seq<nat>)
    requires IsRun(states, events)
    ensures |origin| == |events|
    ensures forall j :: 0 <= j < |events| && Reads(states[j], events[j]) ==> ReadsCommit(states, events, j, origin[j])
    ensures forall j, l :: 0 <= j < l < |events| && Reads(states[j], events[j]) && Reads(states[l], events[l]) ==>
                             origin[j] < origin[l]
    ensures forall j, l :: 0 <= j < l < |events| && Restarts(states[j], events[j]) && Reads(states[l], events[l]) ==>
                             j < origin[l]
  {
    var t := TraceOf(states, events);
    RunIsTrace(states, events);
    var from;
    from, origin := TraceHasOrigins(t, |events|);
    forall j | 0 <= j < |events| && Reads(states[j], events[j])
      ensures ReadsCommit(states, events, j, origin[j])
    {
      TakenIsRead(states, events, j);
      PositionsFollowEvents(states, events, j);
      FromCommit(states, events, t, j, origin[j]);
    }
    forall j, l | 0 <= j < l < |events| && Reads(states[j], events[j]) && Reads(states[l], events[l])
      ensures origin[j] < origin[l]
    {
      TakenIsRead(states, events, j);
      TakenIsRead(states, events, l);
    }
    forall j, l | 0 <= j < l < |events| && Restarts(states[j], events[j]) && Reads(states[l], events[l])
      ensures j < origin[l]
    {
      TakenIsRead(states, events, j);
      TakenIsRead(states, events, l);
    }
  }

  lemma TakenIsRead(states: seq<Source>, events: seq<Event>, j: nat)
    requires |states| == |events| + 1 && j < |events|
    ensures var t := TraceOf(states, events);
            && t.views[j].seekUs == states[j].play.lastSeekUs && t.taken[j] == ReadBy(states[j], events[j])
            && (t.taken[j].Some? <==> Reads(states[j], events[j]))
            && (t.restarts[j] <==> Restarts(states[j], events[j]))
  {
  }

  lemma FromCommit(states: seq<Source>, events: seq<Event>, t: Trace, j: nat, c: nat)
    requires |states| == |events| + 1 && j < |events| && t.events == events && IsTrace(t)
    requires Reads(states[j], events[j]) && t.taken[j] == ReadBy(states[j], events[j])
    requires t.views[j].seekUs == SeekPosition(events, j) && ReadFrom(t, j, c)
    ensures ReadsCommit(states, events, j, c)
  {
  }

  // ----- Seeks ----------------------------------------------------------------------

  /** What a seek does: nothing, if it goes where the source is going already; else a discontinuity is due,
      and the queue starts at the last keyframe that can be reached, if there is one; else loading
      starts afresh from the position, with nothing queued, at once or when the load in flight
      has been canceled. */
  lemma SeekDoes(s: Source, e: Event, u: Source)
    requires StepsTo(s, e, u) && e.SeekTo?
    ensures !Elsewhere(s, e.positionUs) ==> u.core == s.core && u.play.discontinuity == s.play.discontinuity
    ensures Elsewhere(s, e.positionUs) ==> u.play.discontinuity
    ensures Elsewhere(s, e.positionUs) && IsBuffered(s, e.positionUs) ==>
              && u.core.load == s.core.load
              && exists k: nat :: LandsOn(Queued(s), e.positionUs, k) && Queued(u) == Queued(s)[k..]
    ensures Restarts(s, e) ==>
              if s.core.load.loader.Loading? then IsCanceled(u, e.positionUs) else IsAfresh(u, e.positionUs)
  {
    RestartsIff(s, e.positionUs);
    if Elsewhere(s, e.positionUs) && IsBuffered(s, e.positionUs) {
      SampleQueue.SkipTargetIsLastReachableKeyframe(Queued(s), e.positionUs);
      var k := SampleQueue.SkipTarget(Queued(s), e.positionUs).value;
      assert LandsOn(Queued(s), e.positionUs, k) && Queued(u) == Queued(s)[k..];
    } else if Restarts(s, e) && s.core.load.loader.Resting? {
      StartsAfresh(s.core, e.positionUs, e.env);
    }
  }

  ghost predicate LandsOn(samples: seq<SampleInfo>, timeUs: int, k: nat) {
    && SampleQueue.ReachableKeyframe(samples, timeUs, k)
    && forall j: nat :: SampleQueue.ReachableKeyframe(samples, timeUs, j) ==> j <= k
  }

  predicate IsCanceled(u: Source, positionUs: int) {
    && u.core.load.loader.Loading? && u.core.load.loader.canceled && u.core.load.pendingReset == positionUs
    && !u.core.load.finished
  }

  /** Nothing is queued; the reset is pending unless the first chunk is being loaded already. */
  predicate IsAfresh(u: Source, positionUs: int) {
    && Queued(u) == [] && |u.core.buffer.chunks| <= 1 && !u.core.load.backedOff && u.core.load.errorCount == 0
    && (u.core.load.pendingReset == positionUs || (u.core.load.pendingReset == NO_RESET && |u.core.buffer.chunks| == 1))
  }

  lemma StartsAfresh(c: Core, positionUs: int, env: Env)
    requires positionUs != NO_RESET
    requires c.load.loader.Resting?
    ensures var c' := UpdateLoadControl(Restarted(c, positionUs), env);
            && c'.buffer.Samples() == [] && |c'.buffer.chunks| <= 1 && !c'.load.backedOff && c'.load.errorCount == 0
            && (c'.load.pendingReset == positionUs || (c'.load.pendingReset == NO_RESET && |c'.buffer.chunks| == 1))
  {
  }

  /** A seek elsewhere is followed by a discontinuity that has not been read, nor the source enabled anew. */
  ghost predicate DiscontinuityDue(states: seq<Source>, events: seq<Event>, i: nat)
    requires i <= |events| < |states|
  {
    i > 0 &&
    match events[i - 1]
    case Enable(_, _) => false
    case ReadDiscontinuity => false
    case SeekTo(p, _) => Elsewhere(states[i - 1], p) || DiscontinuityDue(states, events, i - 1)
    case _ => DiscontinuityDue(states, events, i - 1)
  }

  lemma StepDiscontinuity(s: Source, e: Event, u: Source)
    requires StepsTo(s, e, u)
    ensures u.play.discontinuity ==
            match e
            case Enable(_, _) => false
            case ReadDiscontinuity => false
            case SeekTo(p, _) => Elsewhere(s, p) || s.play.discontinuity
            case _ => s.play.discontinuity
  {
    if e.ReadData? {
      ReadDefined(s);
    }
  }

  /** In every run a discontinuity is pending exactly if it is due, and until it has been read nothing is. */
  lemma DiscontinuityComesFirst(states: seq<Source>, events: seq<Event>, i: nat)
    requires IsRun(states, events) && i < |states|
    ensures states[i].play.discontinuity <==> DiscontinuityDue(states, events, i)
    ensures i < |events| && DiscontinuityDue(states, events, i) && events[i].ReadData? ==>
              StepsTo(states[i], events[i], states[i + 1]) && Result(states[i], events[i]) == NothingRead
  {
    forall k: nat | k < |events| && DueIsPending(states, events, k)
      ensures DueIsPending(states, events, k + 1)
    {
      StepDiscontinuity(states[k], events[k], states[k + 1]);
    }
    Runs.HoldsAlong(|events|, (k: nat) => k <= |events| < |states| && DueIsPending(states, events, k), i);
    if i < |events| && events[i].ReadData? {
      BlockedReadsNothing(states[i], events[i], states[i + 1]);
    }
  }

  ghost predicate DueIsPending(states: seq<Source>, events: seq<Event>, i: nat)
    requires i <= |events| < |states|
  {
    states[i].play.discontinuity <==> DiscontinuityDue(states, events, i)
  }

  lemma BlockedReadsNothing(s: Source, e: Event, u: Source)
    requires StepsTo(s, e, u) && e.ReadData?
    ensures s.play.discontinuity ==> Result(s, e) == NothingRead
  {
    ReadDefined(s);
    ReadShape(s, e.positionUs, e.chunkFormat, e.formatFinal, e.forward);
  }

  // ----- Nothing is skipped ---------------------------------------------------------

  /** The event may give up samples that were not read. */
  ghost predicate Clears(s: Source, e: Event) {
    || e.Enable? || e.RunPosted? || (e.LoadDone? && e.outcome.Canceled?)
    || (e.SeekTo? && Elsewhere(s, e.positionUs))
  }

  predicate NeedsKey(s: Source) {
    s.core.buffer.track.needKey
  }

  /** The event takes the first sample of the queue if it reads one, and none from the front otherwise. */
  ghost predicate SkipsNothing(s: Source, e: Event, u: Source) {
    if e.CommitSample? then Queued(u) == Queued(s) + [e.info]
    else if Reads(s, e) then Queued(s) != [] && Queued(u) == Queued(s)[1..]
    else Queued(u) <= Queued(s)
  }

  /** Once a sample was read no keyframe is needed, and the next one is always the first of the queue. */
  lemma StepSkipsNothing(s: Source, e: Event, u: Source)
    requires StepsTo(s, e, u) && !Clears(s, e)
    ensures Reads(s, e) ==> !NeedsKey(u)
    ensures !NeedsKey(s) ==> !NeedsKey(u) && SkipsNothing(s, e, u)
  {
    match e
    case ContinueBuffering(_, env) =>
      UpdateDefined(s.core, env);
      UpdateKeepsKey(s.core, env);
      UpdateCuts(s.core, env);
    case ReadData(p, chunkFormat, formatFinal, forward) => ReadSkipsNothing(s, e, u);
    case SeekTo(p, _) => RestartsIff(s, p);
    case LoadDone(outcome, env) => DoneSkipsNothing(s, e, u);
    case _ =>
  }

  lemma DoneSkipsNothing(s: Source, e: Event, u: Source)
    requires StepsTo(s, e, u) && e.LoadDone? && !Clears(s, e)
    ensures u.core.buffer.track.needKey == s.core.buffer.track.needKey && Queued(u) <= Queued(s)
  {
    DoneDefined(s, e.outcome, e.env);
    UpdateKeepsKey(DonePoint(s.core, e.outcome), e.env);
    UpdateCuts(DonePoint(s.core, e.outcome), e.env);
  }

  lemma UpdateKeepsKey(c: Core, env: Env)
    requires UpdateOk(c, env)
    ensures UpdateLoadControl(c, env).buffer.track.needKey == c.buffer.track.needKey
  {
  }

  lemma ReadSkipsNothing(s: Source, e: Event, u: Source)
    requires StepsTo(s, e, u) && e.ReadData?
    ensures Reads(s, e) ==> !NeedsKey(u)
    ensures !NeedsKey(s) ==> !NeedsKey(u) && SkipsNothing(s, e, u)
  {
    ReadiedIsSettled(s.core.buffer);
    if Reads(s, e) {
      ReadShapeTaken(s, e, u);
      TakenIsRear(Readied(s.core.buffer));
    } else {
      NotReadShape(s, e, u);
    }
  }

  /** In every run, after a sample was read and until the queue is cleared, each read takes the first sample
      of the queue or none, and nothing else takes any from its front. */
  lemma ReadsSkipNothing(states: seq<Source>, events: seq<Event>, j: nat, i: nat)
    requires IsRun(states, events) && j < i < |states| && Reads(states[j], events[j])
    requires forall k :: j <= k < i ==> !Clears(states[k], events[k])
    ensures !NeedsKey(states[i])
    ensures i < |events| && !Clears(states[i], events[i]) ==> SkipsNothing(states[i], events[i], states[i + 1])
  {
    NoKeyAfter(states, events, j, i);
    if i < |events| && !Clears(states[i], events[i]) {
      StepSkipsNothing(states[i], events[i], states[i + 1]);
    }
  }

  lemma NoKeyAfter(states: seq<Source>, events: seq<Event>, j: nat, i: nat)
    requires IsRun(states, events) && j < i < |states| && Reads(states[j], events[j])
    requires forall k :: j <= k < i ==> !Clears(states[k], events[k])
    ensures !NeedsKey(states[i])
  {
    forall k: nat | k < i && NoKeyFrom(states, j, k)
      ensures NoKeyFrom(states, j, k + 1)
    {
      if j <= k {
        StepSkipsNothing(states[k], events[k], states[k + 1]);
      }
    }
    Runs.HoldsAlong(i, (k: nat) => k < |states| && NoKeyFrom(states, j, k), i);
  }

  predicate NoKeyFrom(states: seq<Source>, j: nat, k: nat)
    requires k < |states|
  {
    j < k ==> !NeedsKey(states[k])
  }

  // ----- Answers and formats --------------------------------------------------------

  /** There is a sample to deliver: any one, or a keyframe if one has to come first. */
  ghost predicate HasDeliverable(s: Source) {
    exists k :: 0 <= k < |Queued(s)| && (s.core.buffer.track.needKey ==> Queued(s)[k].IsSync())
  }

  /** The current chunk has a format that the reader was not given last. */
  ghost predicate HasNewFormat(s: Source, e: Event)
    requires e.ReadData?
  {
    (HasDeliverable(s) || e.formatFinal) && e.chunkFormat.Some? && e.chunkFormat != s.play.format
  }

  /** What a read answers. */
  lemma ReadAnswers(s: Source, e: Event, u: Source)
    requires StepsTo(s, e, u) && e.ReadData?
    ensures var blocked := s.play.discontinuity || s.core.load.pendingReset != NO_RESET;
            var r := Result(s, e);
            && (r.FormatRead? <==> !blocked && HasNewFormat(s, e))
            && (r.FormatRead? ==> e.chunkFormat == Some(r.chunkFormat))
            && (r.SampleRead? <==> !blocked && !HasNewFormat(s, e) && HasDeliverable(s))
            && (r.EndOfStream? <==>
                  !blocked && !HasNewFormat(s, e) && !HasDeliverable(s) && s.core.load.finished)
  {
    ReadDefined(s);
    DeliverableIff(s);
  }

  lemma DeliverableIff(s: Source)
    ensures HasDeliverable(s) <==> TrackOutputs.HasSample(s.core.buffer.track)
  {
    var n := TrackOutputs.LeadingDependent(Queued(s));
    if n < |Queued(s)| {
      assert Queued(s)[n].IsSync();
    }
  }

  /** The format the reader was given last, since the source was enabled. */
  ghost function FormatGiven(states: seq<Source>, events: seq<Event>, i: nat): Option<nat>
    requires i <= |events| < |states|
  {
    if i == 0 || events[i - 1].Enable? then None
    else if GivesFormat(states[i - 1], events[i - 1]) then events[i - 1].chunkFormat
    else FormatGiven(states, events, i - 1)
  }

  ghost predicate GivesFormat(s: Source, e: Event) {
    Inv(s) && EventOk(s, e) && e.ReadData? && Result(s, e).FormatRead?
  }

  lemma StepFormat(s: Source, e: Event, u: Source)
    requires StepsTo(s, e, u)
    ensures e.Enable? ==> u.play.format.None?
    ensures GivesFormat(s, e) ==> u.play.format == e.chunkFormat
    ensures u.play.format.Some? && !GivesFormat(s, e) ==> u.play.format == s.play.format
  {
    if e.ReadData? {
      ReadDefined(s);
    }
  }

  ghost predicate KnowsFormat(states: seq<Source>, events: seq<Event>, i: nat)
    requires i <= |events| < |states|
  {
    states[i].play.format.Some? ==> states[i].play.format == FormatGiven(states, events, i)
  }

  /** In every run, when a sample of a chunk with a format is read, that format is the one the reader was
      given last; and a format is only given when it is not. */
  lemma SamplesFollowTheirFormat(states: seq<Source>, events: seq<Event>, i: nat)
    requires IsRun(states, events) && i < |events|
    ensures Reads(states[i], events[i]) && events[i].chunkFormat.Some? ==>
              FormatGiven(states, events, i) == events[i].chunkFormat
    ensures GivesFormat(states[i], events[i]) ==> states[i].play.format != events[i].chunkFormat
    ensures KnowsFormat(states, events, i)
  {
    forall k: nat | k < |events| && KnowsFormat(states, events, k)
      ensures KnowsFormat(states, events, k + 1)
    {
      StepFormat(states[k], events[k], states[k + 1]);
    }
    Runs.HoldsAlong(|events|, (k: nat) => k <= |events| < |states| && KnowsFormat(states, events, k), i);
    if events[i].ReadData? {
      ReadAnswers(states[i], events[i], states[i + 1]);
    }
  }
}
