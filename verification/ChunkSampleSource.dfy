/**
 The chunk sample source as a class. Its methods update the chunks, the track output and the
 three groups of fields in place, in the order of the code, and each is proved to take the
 step of module `BufferedSource` with its name.
 */
module ChunkSampleSources {
  import opened Samples
  import opened TrackOutputs
  import opened ChunkStores
  import Spec = BufferedSource
  import opened BufferedSource

  class ChunkSampleSource {
    /** The media chunks and the track output. */
    const store: ChunkStore
    var life: Life
    var play: Play
    var load: Load

    ghost predicate Valid()
      reads this, store, store.repr
    {
      store.Valid() && this !in store.repr
    }

    ghost function CoreState(): Core
      reads this, store
    {
      Core(store.contents, load)
    }

    ghost function State(): Source
      reads this, store
    {
      Source(life, play, CoreState())
    }

    constructor ()
      ensures Valid() && State() == INITIAL
    {
      store := new ChunkStore();
      life := Life(Idle, 0, false, None, [], []);
      play := Play(0, 0, false, None);
      load := Load(NO_RESET, false, Holder(None, true, 0), false, 0, Resting, 0);
    }

    // ----- Loading ------------------------------------------------------------------

    method DoChunkOperation(op: Operation)
      modifies this`load
      ensures load == Spec.DoChunkOperation(old(load), op)
    {
      load := load.(holder := load.holder.(queueSize := op.queueSize));
      match op.next {
        case Keep =>
        case Nothing =>
          load := load.(holder := load.holder.(chunk := None, owned := true));
        case NewMedia(startUs, endUs) =>
          load := load.(holder := load.holder.(chunk := Some(Media(load.nextId, startUs, endUs)), owned := true));
          load := load.(nextId := load.nextId + 1);
        case NewInit =>
          load := load.(holder := load.holder.(chunk := Some(Init(load.nextId)), owned := true));
          load := load.(nextId := load.nextId + 1);
      }
      load := load.(finished := op.endOfStream);
    }

    method DiscardUpstreamMediaChunks(queueLength: nat) returns (discarded: bool)
      requires Valid() && DiscardOk(store.contents, queueLength)
      modifies this`load, store.repr
      ensures Valid() && store.repr == old(store.repr)
      ensures CoreState() == DiscardUpstream(old(CoreState()), queueLength)
      ensures discarded == (queueLength < |old(store.contents).chunks|)
    {
      if |store.mediaChunks| <= queueLength {
        return false;
      }
      load := load.(finished := false);
      store.Truncate(queueLength);
      discarded := true;
    }

    method MaybeStartLoading()
      requires Valid() && (CoreState().HoldsMedia() ==> load.holder.owned)
      modifies this`load, store.repr
      ensures Valid() && store.repr == old(store.repr)
      ensures CoreState() == Spec.MaybeStartLoading(old(CoreState()))
    {
      if load.holder.chunk.None? {
        return;
      }
      var current := load.holder.chunk.value;
      if current.Media? {
        load := load.(holder := load.holder.(owned := false));
        store.Push(current.id, current.startUs, current.endUs);
        if load.pendingReset != NO_RESET {
          load := load.(pendingReset := NO_RESET);
        }
      }
      load := load.(loader := Loading(current.id, false));
    }

    method ResumeFromBackOff(op: Operation)
      requires Valid() && DiscardOk(store.contents, op.queueSize)
      requires load.holder.chunk.Some? && (CoreState().HoldsMedia() ==> store.contents.chunks != [])
      modifies this`load, store.repr
      ensures Valid() && store.repr == old(store.repr)
      ensures CoreState() == Spec.ResumeFromBackOff(old(CoreState()), op)
    {
      var chunk := load.holder.chunk.value;
      if chunk.Init? {
        ResumeInit(op);
      } else if chunk.id == store.mediaChunks[0].id {
        load := load.(backedOff := false, loader := Loading(chunk.id, false));
      } else {
        ResumeLast(op);
      }
    }

    method ResumeInit(op: Operation)
      requires Valid() && DiscardOk(store.contents, op.queueSize)
      requires load.holder.chunk.Some? && load.holder.chunk.value.Init?
      modifies this`load, store.repr
      ensures Valid() && store.repr == old(store.repr)
      ensures CoreState() == Spec.ResumeInit(old(CoreState()), op)
    {
      var chunk := load.holder.chunk.value;
      load := load.(backedOff := false);
      DoChunkOperation(op);
      var _ := DiscardUpstreamMediaChunks(load.holder.queueSize);
      if op.next.Keep? {
        load := load.(loader := Loading(chunk.id, false));
      } else {
        MaybeStartLoading();
      }
    }

    method ResumeLast(op: Operation)
      requires Valid() && DiscardOk(store.contents, op.queueSize)
      requires load.holder.chunk.Some? && store.contents.chunks != []
      modifies this`load, store.repr
      ensures Valid() && store.repr == old(store.repr)
      ensures CoreState() == Spec.ResumeLast(old(CoreState()), op)
    {
      var chunk := load.holder.chunk.value;
      load := load.(backedOff := false);
      AskWithoutLast(op);
      if op.next.Keep? {
        load := load.(loader := Loading(chunk.id, false));
      } else {
        StartReplacement();
      }
    }

    /** The chunk source answered with another chunk, or none. */
    method StartReplacement()
      requires Valid() && DiscardOk(store.contents, load.holder.queueSize)
      requires CoreState().HoldsMedia() ==> load.holder.owned
      modifies this`load, store.repr
      ensures Valid() && store.repr == old(store.repr)
      ensures var c := DiscardUpstream(old(CoreState()), old(load).holder.queueSize);
              CoreState() == Spec.MaybeStartLoading(c.(load := c.load.(errorCount := 0)))
    {
      var _ := DiscardUpstreamMediaChunks(load.holder.queueSize);
      load := load.(errorCount := 0);
      MaybeStartLoading();
    }

    /** The last chunk is taken off while the chunk source is asked, and put back. */
    method AskWithoutLast(op: Operation)
      requires Valid() && store.contents.chunks != []
      modifies this`load, store.repr
      ensures Valid() && store.repr == old(store.repr) && store.contents == old(store.contents)
      ensures load == Spec.DoChunkOperation(old(load), op)
    {
      var removed := store.PopBack();
      DoChunkOperation(op);
      store.PushBack(removed);
    }

    method UpdateLoadControl(env: Env)
      requires Valid() && UpdateOk(CoreState(), env)
      modifies this`load, store.repr
      ensures Valid() && store.repr == old(store.repr)
      ensures CoreState() == Spec.UpdateLoadControl(old(CoreState()), env)
    {
      var isBackedOff := load.backedOff;
      EvaluateIfDue(env);
      if isBackedOff {
        if env.retryDue {
          ResumeFromBackOff(env.op);
        }
        return;
      }
      if load.loader.Resting? && env.granted {
        MaybeStartLoading();
      }
    }

    /** Asks the chunk source if nothing is being loaded and there is a reason to ask. */
    method EvaluateIfDue(env: Env)
      requires Valid() && UpdateOk(CoreState(), env)
      modifies this`load, store.repr
      ensures Valid() && store.repr == old(store.repr)
      ensures CoreState() == Evaluated(old(CoreState()), env)
    {
      var next := if load.pendingReset != NO_RESET then load.pendingReset
                  else if load.finished then -1 else store.mediaChunks[|store.mediaChunks| - 1].endUs;
      var loadingOrBackedOff := load.loader.Loading? || load.backedOff;
      if !loadingOrBackedOff && ((load.holder.chunk.None? && next != -1) || env.evaluationDue) {
        DoChunkOperation(env.op);
        var _ := DiscardUpstreamMediaChunks(load.holder.queueSize);
      }
    }

    method ClearCurrentLoadable()
      modifies this`load
      ensures load == ClearLoadable(old(load))
    {
      load := load.(holder := load.holder.(chunk := None, owned := true));
      load := load.(backedOff := false, errorCount := 0);
    }

    method RestartFrom(positionUs: int, env: Env)
      requires Valid() && (load.loader.Resting? ==> positionUs != NO_RESET)
      modifies this`load, store.repr
      ensures Valid() && store.repr == old(store.repr)
      ensures CoreState() == Spec.RestartFrom(old(CoreState()), positionUs, env)
    {
      load := load.(pendingReset := positionUs, finished := false);
      if load.loader.Loading? {
        load := load.(loader := load.loader.(canceled := true));
      } else {
        store.Clear();
        ClearCurrentLoadable();
        UpdateLoadControl(env);
      }
    }

    // ----- Calls of the player ------------------------------------------------------

    method Enable(positionUs: int, env: Env)
      requires Valid() && (load.loader.Resting? ==> positionUs != NO_RESET)
      modifies this, store.repr
      ensures Valid() && store.repr == old(store.repr)
      ensures State() == EnableStep(old(State()), positionUs, env)
    {
      life := life.(tracks := life.tracks + 1, phase := Enabled);
      play := play.(downstreamUs := positionUs, format := None);
      play := play.(lastSeekUs := positionUs, discontinuity := false);
      RestartFrom(positionUs, env);
    }

    method Disable(done: Option<nat>)
      requires Valid()
      modifies this
      ensures Valid() && State() == DisableStep(old(State()), done)
    {
      life := life.(phase := Disabling);
      if done.Some? {
        life := life.(callback := done, asked := life.asked + [done.value]);
      }
      if load.loader.Loading? {
        load := load.(loader := load.loader.(canceled := true));
      } else {
        life := life.(posted := true);
      }
    }

    method DisableAndClear()
      requires Valid()
      modifies this`life, this`load, store.repr
      ensures Valid() && store.repr == old(store.repr)
      ensures State() == Spec.DisableAndClear(old(State()))
    {
      life := life.(tracks := life.tracks - 1, phase := Prepared, posted := false);
      store.Clear();
      ClearCurrentLoadable();
      if life.callback.Some? {
        life := life.(ran := life.ran + [life.callback.value]);
        life := life.(callback := None);
      }
    }

    method ContinueBuffering(positionUs: int, env: Env) returns (ready: bool)
      requires Valid() && UpdateOk(CoreState(), env)
      modifies this, store.repr
      ensures Valid() && store.repr == old(store.repr)
      ensures State() == ContinueStep(old(State()), positionUs, env)
      ensures ready == (load.finished || HasSample(store.contents.track))
    {
      play := play.(downstreamUs := positionUs);
      UpdateLoadControl(env);
      if load.finished {
        return true;
      }
      ready := store.TestForSample();
    }

    method ReadData(positionUs: int, chunkFormat: Option<nat>, formatFinal: bool, forward: bool) returns (r: ReadResult)
      requires Valid() && ReadOk(State())
      modifies this`play, store.repr
      ensures Valid() && store.repr == old(store.repr)
      ensures (State(), r) == ReadStep(old(State()), positionUs, chunkFormat, formatFinal, forward)
    {
      play := play.(downstreamUs := positionUs);
      if play.discontinuity || load.pendingReset != NO_RESET {
        return NothingRead;
      }
      var have := store.ReadyToRead();
      if have || formatFinal {
        if chunkFormat.Some? && chunkFormat != play.format {
          play := play.(format := chunkFormat);
          return FormatRead(chunkFormat.value);
        } else if chunkFormat.None? {
          play := play.(format := None);
        }
      }
      if !have {
        return if load.finished then EndOfStream else NothingRead;
      }
      var sample, index := store.TakeSample();
      r := SampleRead(Marked(sample, play.lastSeekUs, forward), index);
    }

    method SeekToUs(positionUs: int, env: Env)
      requires Valid() && SeekDefined(State(), positionUs)
      modifies this`play, this`load, store.repr
      ensures Valid() && store.repr == old(store.repr)
      ensures State() == SeekStep(old(State()), positionUs, env)
    {
      var currentUs := if load.pendingReset != NO_RESET then load.pendingReset else play.downstreamUs;
      play := play.(downstreamUs := positionUs, lastSeekUs := positionUs);
      if currentUs == positionUs {
        assert SeekIsNoop(old(State()), positionUs);
        return;
      }
      assert !SeekIsNoop(old(State()), positionUs);
      MoveTo(positionUs, env);
      play := play.(discontinuity := true);
    }

    /** Seeks within the sample queue if nothing is pending and it is possible, and restarts
        otherwise. */
    method MoveTo(positionUs: int, env: Env)
      requires Valid() && (SeeksInside(CoreState(), positionUs) || load.loader.Loading? || positionUs != NO_RESET)
      modifies this`load, store.repr
      ensures Valid() && store.repr == old(store.repr)
      ensures CoreState() == Spec.MoveTo(old(CoreState()), positionUs, env)
    {
      var inside := false;
      if load.pendingReset == NO_RESET {
        inside := store.SkipInside(positionUs);
      }
      if !inside {
        RestartFrom(positionUs, env);
      }
    }

    // ----- The loader ---------------------------------------------------------------

    /** The loading thread commits one sample of the chunk being loaded. */
    method Commit(info: SampleInfo)
      requires Valid() && store.contents.chunks != [] && info.offset >= 0
      modifies store.repr
      ensures Valid() && fresh(store.repr - old(store.repr))
      ensures State() == CommitStep(old(State()), info)
    {
      store.Commit(info);
    }

    method LoadComplete(outcome: Outcome, env: Env)
      requires Valid() && (!EndsDisable(State(), outcome) ==> UpdateOk(DonePoint(CoreState(), outcome), env))
      modifies this`life, this`load, store.repr
      ensures Valid() && store.repr == old(store.repr)
      ensures State() == DoneStep(old(State()), outcome, env)
    {
      load := load.(loader := Resting);
      match outcome {
        case Complete =>
          ClearCurrentLoadable();
          UpdateLoadControl(env);
        case Error =>
          load := load.(backedOff := true, errorCount := load.errorCount + 1);
          UpdateLoadControl(env);
        case Canceled => LoadCanceled(env);
      }
    }

    method LoadCanceled(env: Env)
      requires Valid() && load.loader.Resting? && (life.phase.Enabled? ==> load.pendingReset != NO_RESET)
      modifies this`life, this`load, store.repr
      ensures Valid() && store.repr == old(store.repr)
      ensures old(life).phase.Enabled? ==>
                && State() == old(State()).(core := CoreState())
                && CoreState() == Spec.UpdateLoadControl(Restarted(old(CoreState()), old(load).pendingReset), env)
      ensures !old(life).phase.Enabled? ==>
                var core := old(CoreState()).(load := ClearLoadable(old(load)));
                State() == Spec.DisableAndClear(old(State()).(core := core))
    {
      ClearCurrentLoadable();
      if life.phase.Enabled? {
        RestartFrom(load.pendingReset, env);
      } else {
        DisableAndClear();
      }
    }
  }
}
