/**
 What a chunk sample source keeps in memory: the deque of media chunks, the track output
 that their samples are committed to, and, for the proofs, the chunk each queued sample
 came from. Chunks remember the write index at which they started; the laws below say
 when those remembered indices stay meaningful.
 */
module ChunkBuffers {
  import opened Samples
  import SampleQueue
  import opened TrackOutputs

  /** A media chunk on the deque; `first` is the index of its first sample. */
  datatype MediaChunk = MediaChunk(id: nat, startUs: int, endUs: int, first: nat)

  datatype Buffer = Buffer(track: Track, origins: seq<nat>, chunks: seq<MediaChunk>) {
    function Read(): nat {
      track.q.readIndex
    }

    function Write(): nat {
      track.q.WriteIndex()
    }

    function Samples(): seq<SampleInfo> {
      track.q.samples
    }

    /** The index just after the last sample of chunk `k`. */
    function ChunkEnd(k: nat): nat
      requires k < |chunks|
    {
      if k + 1 < |chunks| then chunks[k + 1].first else Write()
    }

    predicate Covers(k: nat, index: nat) {
      k < |chunks| && chunks[k].first <= index < ChunkEnd(k)
    }
  }

  const NOTHING := Buffer(FRESH, [], [])

  // ----- The invariant --------------------------------------------------------------

  ghost predicate Ordered(b: Buffer) {
    && (forall i, j :: 0 <= i < j < |b.chunks| ==> b.chunks[i].first <= b.chunks[j].first)
    && (forall i :: 0 <= i < |b.chunks| ==> b.chunks[i].first <= b.Write())
    && (forall i, j :: 0 <= i < j < |b.chunks| ==> b.chunks[i].id != b.chunks[j].id)
  }

  /** The read position is in the first chunk, or at the start of the second. */
  ghost predicate Positioned(b: Buffer) {
    && (b.chunks == [] ==> b.Samples() == [])
    && (b.chunks != [] ==> b.chunks[0].first <= b.Read())
    && (|b.chunks| > 1 ==> b.Read() <= b.chunks[1].first)
  }

  /** If chunk `k` covers the queued sample at `index`, the sample came from it. */
  ghost predicate CameFrom(b: Buffer, k: nat, index: nat)
    requires |b.origins| == |b.Samples()|
  {
    b.Read() <= index < b.Write() && b.Covers(k, index) ==> b.origins[index - b.Read()] == b.chunks[k].id
  }

  ghost predicate Attributed(b: Buffer) {
    && |b.origins| == |b.Samples()|
    && forall k: nat, index: nat :: CameFrom(b, k, index)
  }

  /** If chunk `k` has samples and its first one is still queued, that one is a keyframe. */
  ghost predicate StartsWithKey(b: Buffer, k: nat) {
    k < |b.chunks| && b.Read() <= b.chunks[k].first < b.Write() && b.chunks[k].first < b.ChunkEnd(k) ==>
      b.Samples()[b.chunks[k].first - b.Read()].IsSync()
  }

  ghost predicate KeyStarted(b: Buffer) {
    forall k: nat :: StartsWithKey(b, k)
  }

  ghost predicate Inv(b: Buffer) {
    && Ordered(b) && Positioned(b) && Attributed(b) && KeyStarted(b)
    && forall i :: 0 <= i < |b.Samples()| ==> b.Samples()[i].offset >= 0
  }

  // ----- The operations -------------------------------------------------------------

  function Dropped(b: Buffer, n: nat): Buffer
    requires n <= |b.Samples()| == |b.origins|
  {
    b.(track := b.track.(q := SampleQueue.Drop(b.track.q, n)), origins := b.origins[n..])
  }

  function Settled(b: Buffer): (b': Buffer)
    requires |b.Samples()| == |b.origins|
    ensures b'.track == Settle(b.track)
  {
    if b.track.needKey then Dropped(b, LeadingDependent(b.Samples())) else b
  }

  /** How many chunks at the front have been read past, never all of them. */
  function Passed(chunks: seq<MediaChunk>, read: nat): (n: nat)
    ensures chunks != [] ==> n < |chunks|
    ensures n <= |chunks|
    ensures n + 1 < |chunks| ==> chunks[n + 1].first > read
    ensures forall i :: 0 < i <= n ==> chunks[i].first <= read
  {
    if |chunks| > 1 && chunks[1].first <= read then 1 + Passed(chunks[1..], read) else 0
  }

  function PopPassed(b: Buffer): Buffer {
    b.(chunks := b.chunks[Passed(b.chunks, b.Read())..])
  }

  /** Takes the head sample. */
  function Taken(b: Buffer): Buffer
    requires |b.Samples()| == |b.origins| && b.Samples() != []
  {
    var b1 := Dropped(b, 1);
    b1.(track := b1.track.(needKey := false))
  }

  function Skipped(b: Buffer, timeUs: int): (b': Buffer)
    requires |b.Samples()| == |b.origins|
    ensures b'.track == b.track.(q := SampleQueue.Skip(b.track.q, timeUs))
  {
    SampleQueue.LastKeyframeInRange(b.Samples(), timeUs);
    match SampleQueue.SkipTarget(b.Samples(), timeUs)
    case None => b
    case Some(n) => Dropped(b, n)
  }

  /** Keeps the first `n` chunks and the samples before chunk `n`. */
  function Truncated(b: Buffer, n: nat): Buffer
    requires n < |b.chunks| && |b.Samples()| == |b.origins|
    requires b.Read() <= b.chunks[n].first <= b.Write()
  {
    var index := b.chunks[n].first;
    Buffer(b.track.(q := SampleQueue.DiscardFrom(b.track.q, index)), b.origins[..index - b.Read()], b.chunks[..n])
  }

  /** Starts a new chunk at the write index. */
  function Pushed(b: Buffer, id: nat, startUs: int, endUs: int): Buffer {
    b.(chunks := b.chunks + [MediaChunk(id, startUs, endUs, b.Write())])
  }

  /** Commits a sample of the last chunk. */
  function Committed(b: Buffer, info: SampleInfo): Buffer
    requires b.chunks != []
  {
    Buffer(b.track.(q := SampleQueue.Commit(b.track.q, info)), b.origins + [b.chunks[|b.chunks| - 1].id], b.chunks)
  }

  // ----- Every operation keeps the invariant ----------------------------------------

  lemma NothingInv()
    ensures Inv(NOTHING)
  {
  }

  /** Some chunk covers every index from the first chunk's start to the write index. */
  lemma FindChunk(b: Buffer, index: nat) returns (k: nat)
    requires Ordered(b) && b.chunks != [] && b.chunks[0].first <= index < b.Write()
    ensures b.Covers(k, index)
  {
    k := |b.chunks| - 1;
    while index < b.chunks[k].first
      invariant 0 <= k < |b.chunks|
      invariant index < b.ChunkEnd(k)
      decreases k
    {
      k := k - 1;
    }
  }

  /** A remembered chunk start that is still queued is a keyframe. */
  lemma StartIsKey(b: Buffer, k: nat)
    requires Inv(b) && 0 < k < |b.chunks| && b.Read() <= b.chunks[k].first < b.Write()
    ensures b.Samples()[b.chunks[k].first - b.Read()].IsSync()
  {
    var j := FindChunk(b, b.chunks[k].first);
    assert b.chunks[j].first == b.chunks[k].first;
    assert StartsWithKey(b, j);
  }

  /** `b'` is `b` without some samples and chunks at the front. */
  ghost predicate IsRear(b: Buffer, b': Buffer, samples: nat, chunks: nat) {
    && samples <= |b.Samples()| == |b.origins|
    && chunks <= |b.chunks|
    && b'.track.q == SampleQueue.Drop(b.track.q, samples)
    && b'.origins == b.origins[samples..]
    && b'.chunks == b.chunks[chunks..]
  }

  lemma RearChunk(b: Buffer, b': Buffer, samples: nat, chunks: nat, k: nat)
    requires IsRear(b, b', samples, chunks) && k < |b'.chunks|
    ensures b'.chunks[k] == b.chunks[chunks + k]
    ensures b'.ChunkEnd(k) == b.ChunkEnd(chunks + k)
  {
  }

  lemma RearIsAttributed(b: Buffer, b': Buffer, samples: nat, chunks: nat)
    requires Attributed(b) && KeyStarted(b) && IsRear(b, b', samples, chunks)
    ensures Attributed(b') && KeyStarted(b')
  {
    forall k: nat, index: nat
      ensures CameFrom(b', k, index)
    {
      if k < |b'.chunks| {
        RearChunk(b, b', samples, chunks, k);
        assert CameFrom(b, chunks + k, index);
      }
    }
    forall k: nat
      ensures StartsWithKey(b', k)
    {
      if k < |b'.chunks| {
        RearChunk(b, b', samples, chunks, k);
        assert StartsWithKey(b, chunks + k);
      }
    }
  }

  /** Losing samples and chunks at the front keeps the invariant as long as the read position
      stays between the starts of the first two chunks that are left. */
  lemma RearKeepsInv(b: Buffer, b': Buffer, samples: nat, chunks: nat)
    requires Inv(b) && IsRear(b, b', samples, chunks)
    requires chunks > 0 ==> chunks < |b.chunks| && b.chunks[chunks].first <= b.Read() + samples
    requires chunks + 1 < |b.chunks| ==> b.Read() + samples <= b.chunks[chunks + 1].first
    ensures Inv(b')
  {
    RearIsAttributed(b, b', samples, chunks);
    RearIsOrdered(b, b', samples, chunks);
  }

  lemma RearIsOrdered(b: Buffer, b': Buffer, samples: nat, chunks: nat)
    requires Ordered(b) && Positioned(b) && IsRear(b, b', samples, chunks)
    requires chunks > 0 ==> chunks < |b.chunks| && b.chunks[chunks].first <= b.Read() + samples
    requires chunks + 1 < |b.chunks| ==> b.Read() + samples <= b.chunks[chunks + 1].first
    ensures Ordered(b') && Positioned(b')
  {
    assert b'.Write() == b.Write() && b'.Read() == b.Read() + samples;
    assert forall i :: 0 <= i < |b'.chunks| ==> b'.chunks[i] == b.chunks[chunks + i];
  }

  lemma SettledKeepsInv(b: Buffer)
    requires Inv(b)
    ensures Inv(Settled(b))
  {
    if b.track.needKey {
      var n := LeadingDependent(b.Samples());
      if |b.chunks| > 1 && b.Read() + n > b.chunks[1].first {
        StartIsKey(b, 1);
        assert false;
      }
      RearKeepsInv(b, Settled(b), n, 0);
    }
  }

  lemma PopPassedKeepsInv(b: Buffer)
    requires Inv(b)
    ensures Inv(PopPassed(b))
    ensures |PopPassed(b).chunks| > 1 ==> b.Read() < PopPassed(b).chunks[1].first
    ensures b.chunks != [] ==> PopPassed(b).chunks != []
  {
    RearKeepsInv(b, PopPassed(b), 0, Passed(b.chunks, b.Read()));
  }

  /** The head sample comes from the first chunk once passed chunks are gone. */
  lemma HeadIsFromFirstChunk(b: Buffer)
    requires Inv(b) && b.Samples() != []
    requires |b.chunks| > 1 ==> b.Read() < b.chunks[1].first
    ensures b.chunks != [] && b.Covers(0, b.Read()) && b.origins[0] == b.chunks[0].id
  {
    assert CameFrom(b, 0, b.Read());
  }

  lemma TakenKeepsInv(b: Buffer)
    requires Inv(b) && b.Samples() != []
    requires |b.chunks| > 1 ==> b.Read() < b.chunks[1].first
    ensures Inv(Taken(b))
  {
    RearKeepsInv(b, Taken(b), 1, 0);
  }

  /** A skip lands on a keyframe, so the sample there can be delivered at once. */
  lemma SkipLandsOnKey(b: Buffer, timeUs: int)
    requires |b.Samples()| == |b.origins| && SampleQueue.SkipTarget(b.Samples(), timeUs).Some?
    ensures HasSample(Skipped(b, timeUs).track)
    ensures Settled(Skipped(b, timeUs)) == Skipped(b, timeUs)
  {
    SampleQueue.LastKeyframeInRange(b.Samples(), timeUs);
    var n := SampleQueue.SkipTarget(b.Samples(), timeUs).value;
    var b1 := Skipped(b, timeUs);
    assert b1.Samples()[0] == b.Samples()[n];
    assert LeadingDependent(b1.Samples()) == 0;
  }

  /** Dropping the chunks that a skip passed restores the invariant. */
  lemma SkippedKeepsInv(b: Buffer, timeUs: int)
    requires Inv(b) && SampleQueue.SkipTarget(b.Samples(), timeUs).Some?
    ensures Inv(PopPassed(Skipped(b, timeUs)))
    ensures b.chunks != [] ==> PopPassed(Skipped(b, timeUs)).chunks != []
  {
    SampleQueue.LastKeyframeInRange(b.Samples(), timeUs);
    var n := SampleQueue.SkipTarget(b.Samples(), timeUs).value;
    var b1 := Skipped(b, timeUs);
    RearKeepsInv(b, PopPassed(b1), n, Passed(b1.chunks, b1.Read()));
  }

  /** Discarding from any chunk but the first stays within the queue, and keeps the invariant. */
  lemma TruncatedKeepsInv(b: Buffer, n: nat)
    requires Inv(b) && 0 < n < |b.chunks|
    ensures b.Read() <= b.chunks[n].first <= b.Write()
    ensures Inv(Truncated(b, n))
  {
    assert b.chunks[1].first <= b.chunks[n].first;
    var b' := Truncated(b, n);
    forall k: nat, index: nat
      ensures CameFrom(b', k, index)
    {
      assert CameFrom(b, k, index);
    }
    forall k: nat
      ensures StartsWithKey(b', k)
    {
      assert StartsWithKey(b, k);
    }
  }

  lemma PushedKeepsInv(b: Buffer, id: nat, startUs: int, endUs: int)
    requires Inv(b) && forall i :: 0 <= i < |b.chunks| ==> b.chunks[i].id != id
    ensures Inv(Pushed(b, id, startUs, endUs))
  {
    PushedIsAttributed(b, id, startUs, endUs);
    PushedIsOrdered(b, id, startUs, endUs);
  }

  lemma PushedIsOrdered(b: Buffer, id: nat, startUs: int, endUs: int)
    requires Ordered(b) && Positioned(b) && forall i :: 0 <= i < |b.chunks| ==> b.chunks[i].id != id
    ensures Ordered(Pushed(b, id, startUs, endUs)) && Positioned(Pushed(b, id, startUs, endUs))
  {
  }

  lemma PushedIsAttributed(b: Buffer, id: nat, startUs: int, endUs: int)
    requires Attributed(b) && KeyStarted(b)
    ensures Attributed(Pushed(b, id, startUs, endUs)) && KeyStarted(Pushed(b, id, startUs, endUs))
  {
    var b' := Pushed(b, id, startUs, endUs);
    forall k: nat, index: nat
      ensures CameFrom(b', k, index)
    {
      assert CameFrom(b, k, index);
    }
    forall k: nat
      ensures StartsWithKey(b', k)
    {
      assert StartsWithKey(b, k);
    }
  }

  lemma CommittedKeepsInv(b: Buffer, info: SampleInfo)
    requires Inv(b) && b.chunks != [] && info.offset >= 0
    requires b.Write() == b.chunks[|b.chunks| - 1].first ==> info.IsSync()
    ensures Inv(Committed(b, info))
  {
    var b' := Committed(b, info);
    forall k: nat, index: nat
      ensures CameFrom(b', k, index)
    {
      assert CameFrom(b, k, index);
    }
    forall k: nat
      ensures StartsWithKey(b', k)
    {
      assert StartsWithKey(b, k);
    }
  }
}
