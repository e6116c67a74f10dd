/**
 The deque of media chunks and the track output that their samples go to, which a chunk sample
 source updates together. Each method takes the step of module `ChunkBuffers` with its name.
 */
module ChunkStores {
  import opened Samples
  import SampleQueue
  import opened InfoQueues
  import opened TrackOutputs
  import opened ChunkBuffers
  import opened BufferedSource

  /** Committed samples have real offsets, so -1 can say that a skip failed. */
  ghost predicate Placed(samples: seq<SampleInfo>) {
    forall i :: 0 <= i < |samples| ==> samples[i].offset >= 0
  }

  lemma SettledIsPlaced(b: Buffer)
    requires |b.origins| == |b.Samples()| && Placed(b.Samples())
    ensures var s := Settled(b);
            && s.track == Settle(b.track) && s.chunks == b.chunks && |s.origins| == |s.Samples()| && Placed(s.Samples())
            && Settle(s.track) == s.track && HasSample(s.track) == HasSample(b.track)
  {
    SettleIsIdempotent(b.track);
  }

  lemma SkippedIsPlaced(b: Buffer, timeUs: int)
    requires |b.origins| == |b.Samples()| && Placed(b.Samples())
    ensures var target := SampleQueue.SkipTarget(b.Samples(), timeUs);
            target.Some? ==> target.value < |b.Samples()| && b.Samples()[target.value].offset != -1
    ensures var s := Skipped(b, timeUs);
            s.chunks == b.chunks && |s.origins| == |s.Samples()| && Placed(s.Samples())
  {
    SampleQueue.LastKeyframeInRange(b.Samples(), timeUs);
  }

  class ChunkStore {
    ghost var repr: set<object>
    const sampleQueue: TrackOutput
    var mediaChunks: seq<MediaChunk>
    /** The chunks and samples, with the chunk each sample came from. */
    ghost var contents: Buffer

    ghost predicate Valid()
      reads this, repr
      ensures Valid() ==> this in repr
    {
      && this in repr && sampleQueue in repr && sampleQueue.repr <= repr && this !in sampleQueue.repr
      && sampleQueue.Valid()
      && contents.track == sampleQueue.Model() && contents.chunks == mediaChunks
      && |contents.origins| == |contents.Samples()| && Placed(contents.Samples())
    }

    constructor ()
      ensures Valid() && fresh(repr) && contents == NOTHING
    {
      sampleQueue := new TrackOutput();
      mediaChunks := [];
      contents := NOTHING;
      new;
      repr := {this} + sampleQueue.repr;
    }

    method Clear()
      requires Valid()
      modifies repr
      ensures Valid() && repr == old(repr) && contents == NOTHING
    {
      sampleQueue.Clear();
      mediaChunks := [];
      contents := NOTHING;
    }

    /** Removes chunks from the back until `queueLength` are left, and the samples of the removed
        ones. */
    method Truncate(queueLength: nat)
      requires Valid() && queueLength < |contents.chunks| && DiscardOk(contents, queueLength)
      modifies repr
      ensures Valid() && repr == old(repr) && contents == Truncated(old(contents), queueLength)
    {
      var first := PopBackTo(queueLength);
      ghost var kept := first - contents.Read();
      sampleQueue.DiscardUpstreamSamples(first);
      contents := Truncated(contents, queueLength);
      assert contents.Samples() == old(contents.Samples())[..kept];
    }

    /** Returns where the last chunk removed started. */
    method PopBackTo(queueLength: nat) returns (first: nat)
      requires queueLength < |mediaChunks|
      modifies this`mediaChunks
      ensures mediaChunks == old(mediaChunks)[..queueLength] && first == old(mediaChunks)[queueLength].first
    {
      first := 0;
      while |mediaChunks| > queueLength
        invariant queueLength <= |mediaChunks| <= |old(mediaChunks)|
        invariant mediaChunks == old(mediaChunks)[..|mediaChunks|]
        invariant |mediaChunks| < |old(mediaChunks)| ==> first == old(mediaChunks)[|mediaChunks|].first
      {
        first := mediaChunks[|mediaChunks| - 1].first;
        mediaChunks := mediaChunks[..|mediaChunks| - 1];
      }
    }

    method Push(id: nat, startUs: int, endUs: int)
      requires Valid()
      modifies repr
      ensures Valid() && repr == old(repr) && contents == Pushed(old(contents), id, startUs, endUs)
    {
      var first := sampleQueue.GetWriteIndex();
      mediaChunks := mediaChunks + [MediaChunk(id, startUs, endUs, first)];
      contents := Pushed(contents, id, startUs, endUs);
    }

    /** Takes the last chunk off, until it is put back. */
    method PopBack() returns (removed: MediaChunk)
      requires Valid() && mediaChunks != []
      modifies repr
      ensures Valid() && repr == old(repr)
      ensures contents == old(contents).(chunks := mediaChunks) && mediaChunks + [removed] == old(mediaChunks)
    {
      removed := mediaChunks[|mediaChunks| - 1];
      mediaChunks := mediaChunks[..|mediaChunks| - 1];
      contents := contents.(chunks := mediaChunks);
    }

    method PushBack(chunk: MediaChunk)
      requires Valid()
      modifies repr
      ensures Valid() && repr == old(repr)
      ensures mediaChunks == old(mediaChunks) + [chunk] && contents == old(contents).(chunks := mediaChunks)
    {
      mediaChunks := mediaChunks + [chunk];
      contents := contents.(chunks := mediaChunks);
    }

    /** Whether a sample can be read, after skipping samples that cannot be delivered. */
    method TestForSample() returns (have: bool)
      requires Valid()
      modifies repr
      ensures Valid() && repr == old(repr) && contents == Settled(old(contents))
      ensures have == HasSample(old(contents).track) == HasSample(contents.track)
      ensures Settle(contents.track) == contents.track
    {
      SettledIsPlaced(contents);
      var empty := sampleQueue.IsEmpty();
      contents := Settled(contents);
      have := !empty;
    }

    /** Drops chunks at the front that have been read past. */
    method PopPassedChunks()
      requires Valid()
      modifies repr
      ensures Valid() && repr == old(repr) && contents == PopPassed(old(contents))
    {
      var read := sampleQueue.GetReadIndex();
      assert read == contents.Read();
      PopFront(read);
      assert sampleQueue.Valid();
      contents := PopPassed(contents);
      assert contents.chunks == mediaChunks;
    }

    method PopFront(read: nat)
      modifies this`mediaChunks
      ensures mediaChunks == old(mediaChunks)[Passed(old(mediaChunks), read)..]
    {
      ghost var popped := 0;
      while |mediaChunks| > 1 && mediaChunks[1].first <= read
        invariant popped <= |old(mediaChunks)| && mediaChunks == old(mediaChunks)[popped..]
        invariant Passed(old(mediaChunks), read) == popped + Passed(mediaChunks, read)
        decreases |mediaChunks|
      {
        mediaChunks := mediaChunks[1..];
        popped := popped + 1;
      }
    }

    /** Settles the sample queue and, if it has a sample, drops passed chunks. */
    method ReadyToRead() returns (have: bool)
      requires Valid()
      modifies repr
      ensures Valid() && repr == old(repr) && have == HasSample(old(contents).track)
      ensures contents == Readied(old(contents)) && Settle(contents.track) == contents.track
    {
      have := TestForSample();
      if have {
        PopPassedChunks();
      }
    }

    method TakeSample() returns (sample: Peeked, index: nat)
      requires Valid() && contents.Samples() != [] && Settle(contents.track) == contents.track
      modifies repr
      ensures Valid() && repr == old(repr) && contents == Taken(old(contents))
      ensures sample == PeekOf(old(contents).Samples()[0]) && index == old(contents).Read()
    {
      index := sampleQueue.GetReadIndex();
      var got := sampleQueue.GetSample();
      contents := Taken(contents);
      sample := got.value;
    }

    /** Tries to seek within the sample queue, dropping the chunks it passes. */
    method SkipInside(positionUs: int) returns (inside: bool)
      requires Valid()
      modifies repr
      ensures Valid() && repr == old(repr)
      ensures inside == SampleQueue.SkipTarget(old(contents).Samples(), positionUs).Some?
      ensures contents == if inside then PopPassed(Skipped(old(contents), positionUs)) else old(contents)
    {
      inside := Skip(positionUs);
      if inside {
        SkipLandsOnKey(old(contents), positionUs);
        var _ := ReadyToRead();
      }
    }

    method Skip(positionUs: int) returns (skipped: bool)
      requires Valid()
      modifies repr
      ensures Valid() && repr == old(repr)
      ensures skipped == SampleQueue.SkipTarget(old(contents).Samples(), positionUs).Some?
      ensures contents == Skipped(old(contents), positionUs)
    {
      SkippedIsPlaced(contents, positionUs);
      skipped := sampleQueue.SkipToKeyframeBefore(positionUs);
      contents := Skipped(contents, positionUs);
    }

    /** The loading thread commits one sample of the last chunk. */
    method Commit(info: SampleInfo)
      requires Valid() && contents.chunks != [] && info.offset >= 0
      modifies repr
      ensures Valid() && fresh(repr - old(repr)) && contents == Committed(old(contents), info)
    {
      sampleQueue.WriteSampleMetadata(info.timeUs, info.durationUs, info.flags, info.offset + info.size, info.size, 0,
                                      Some(info.keyId), Some(info.iv), Some(info.bytesClear), Some(info.bytesEnc));
      contents := Committed(contents, info);
      repr := repr + sampleQueue.repr;
    }
  }
}
