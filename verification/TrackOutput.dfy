/**
 The track output: a sample queue that only ever starts delivering at a keyframe. The
 abstract operations come first, then the law of delivery over whole runs, then the class.
 */
module TrackOutputs {
  import opened Samples
  import SampleQueue
  import InfoQueues

  /** A queue and whether the next sample delivered has to be a keyframe. */
  datatype Track = Track(q: SampleQueue.Queue, needKey: bool)

  const FRESH := Track(SampleQueue.EMPTY, true)

  /** How many samples precede the first keyframe. */
  function LeadingDependent(samples: seq<SampleInfo>): (n: nat)
    ensures n <= |samples|
    ensures forall i :: 0 <= i < n ==> !samples[i].IsSync()
    ensures n < |samples| ==> samples[n].IsSync()
  {
    if samples == [] || samples[0].IsSync() then 0 else 1 + LeadingDependent(samples[1..])
  }

  /** How many leading samples are before `timeUs`. */
  function LeadingBefore(samples: seq<SampleInfo>, timeUs: int): (n: nat)
    ensures n <= |samples|
    ensures forall i :: 0 <= i < n ==> samples[i].timeUs < timeUs
    ensures n < |samples| ==> samples[n].timeUs >= timeUs
  {
    if samples == [] || samples[0].timeUs >= timeUs then 0 else 1 + LeadingBefore(samples[1..], timeUs)
  }

  /** Drops samples that cannot be delivered because a keyframe has to come first. */
  function Settle(t: Track): Track {
    if t.needKey then t.(q := SampleQueue.Drop(t.q, LeadingDependent(t.q.samples))) else t
  }

  predicate HasSample(t: Track) {
    Settle(t).q.samples != []
  }

  /** The track after delivering the head of the settled queue. */
  function Deliver(t: Track): Track
    requires HasSample(t)
  {
    Track(SampleQueue.Drop(Settle(t).q, 1), false)
  }

  lemma SettleIsIdempotent(t: Track)
    ensures Settle(Settle(t)) == Settle(t)
  {
    if t.needKey && HasSample(t) {
      assert Settle(t).q.samples[0] == t.q.samples[LeadingDependent(t.q.samples)];
    }
  }

  function DiscardBefore(t: Track, timeUs: int): Track {
    var n := LeadingBefore(t.q.samples, timeUs);
    Track(SampleQueue.Drop(t.q, n), t.needKey || n > 0)
  }

  // ----- Delivery over whole runs ---------------------------------------------------

  datatype Event =
    | Commit(info: SampleInfo)
    | Read
    | TestEmpty
    | DiscardUntil(timeUs: int)
    | SkipBefore(timeUs: int)
    | Clear

  /** A track with the log of all commits and the log positions delivered so far. */
  datatype Session = Session(track: Track, log: seq<SampleInfo>, delivered: seq<nat>) {
    /** The log position of the head of the queue. */
    function Head(): int {
      |log| - |track.q.samples|
    }
  }

  function Apply(s: Session, e: Event): Session {
    match e
    case Commit(info) =>
      s.(track := s.track.(q := SampleQueue.Commit(s.track.q, info)), log := s.log + [info])
    case Read =>
      var settled := s.(track := Settle(s.track));
      if !HasSample(s.track) then settled
      else settled.(track := Deliver(s.track),
                    delivered := s.delivered + [if settled.Head() < 0 then 0 else settled.Head()])
    case TestEmpty => s.(track := Settle(s.track))
    case DiscardUntil(t) => s.(track := DiscardBefore(s.track, t))
    case SkipBefore(t) => s.(track := s.track.(q := SampleQueue.Skip(s.track.q, t)))
    case Clear => s.(track := FRESH)
  }

  function Run(s: Session, events: seq<Event>): Session
    decreases |events|
  {
    if events == [] then s else Run(Apply(s, events[0]), events[1..])
  }

  /** The queue is the tail of the log. */
  ghost predicate IsTail(s: Session) {
    && 0 <= s.Head()
    && s.track.q.samples == s.log[s.Head()..]
  }

  /** Every delivery is a keyframe or directly follows the one before it, and deliveries
      advance through the log. */
  ghost predicate Decodable(log: seq<SampleInfo>, delivered: seq<nat>) {
    && (forall k :: 0 <= k < |delivered| ==> delivered[k] < |log|)
    && (forall k :: 0 <= k < |delivered| ==>
          log[delivered[k]].IsSync() || (0 < k && delivered[k] == delivered[k - 1] + 1))
    && (forall k :: 0 < k < |delivered| ==> delivered[k - 1] < delivered[k])
  }

  /** The next delivery will keep the stream decodable. */
  ghost predicate Primed(s: Session) {
    && (s.delivered != [] ==> s.delivered[|s.delivered| - 1] < s.Head())
    && (|| s.track.needKey
        || (s.delivered != [] && s.Head() == s.delivered[|s.delivered| - 1] + 1)
        || (s.track.q.samples != [] && s.track.q.samples[0].IsSync()))
  }

  ghost predicate Inv(s: Session) {
    IsTail(s) && Decodable(s.log, s.delivered) && Primed(s)
  }

  lemma TailAfterDrop(s: Session, n: nat)
    requires IsTail(s) && n <= |s.track.q.samples|
    ensures var s' := s.(track := s.track.(q := SampleQueue.Drop(s.track.q, n)));
            IsTail(s') && s'.Head() == s.Head() + n
  {
    var s' := s.(track := s.track.(q := SampleQueue.Drop(s.track.q, n)));
    assert s.log[s.Head()..][n..] == s.log[s'.Head()..];
  }

  lemma CommitKeepsInv(s: Session, info: SampleInfo)
    requires Inv(s)
    ensures Inv(Apply(s, Commit(info)))
  {
    assert (s.log + [info])[s.Head()..] == s.track.q.samples + [info];
  }

  lemma SettleKeepsInv(s: Session)
    requires Inv(s)
    ensures Inv(s.(track := Settle(s.track)))
    ensures HasSample(s.track) && s.track.needKey ==> Settle(s.track).q.samples[0].IsSync()
  {
    TailAfterDrop(s, LeadingDependent(s.track.q.samples));
  }

  lemma DeliverKeepsInv(s: Session)
    requires Inv(s) && s.track.q.samples != []
    requires s.track.needKey ==> s.track.q.samples[0].IsSync()
    ensures Inv(Session(Track(SampleQueue.Drop(s.track.q, 1), false), s.log, s.delivered + [s.Head()]))
  {
    TailAfterDrop(s, 1);
    assert s.track.q.samples[0] == s.log[s.Head()];
  }

  lemma SkipKeepsInv(s: Session, timeUs: int)
    requires Inv(s)
    ensures Inv(Apply(s, SkipBefore(timeUs)))
  {
    SampleQueue.LastKeyframeInRange(s.track.q.samples, timeUs);
    var target := SampleQueue.SkipTarget(s.track.q.samples, timeUs);
    if target.Some? {
      DropToKeyKeepsInv(s, target.value);
    }
  }

  lemma DropToKeyKeepsInv(s: Session, k: nat)
    requires Inv(s) && k < |s.track.q.samples| && s.track.q.samples[k].IsSync()
    ensures Inv(s.(track := s.track.(q := SampleQueue.Drop(s.track.q, k))))
  {
    TailAfterDrop(s, k);
  }

  lemma DiscardKeepsInv(s: Session, timeUs: int)
    requires Inv(s)
    ensures Inv(Apply(s, DiscardUntil(timeUs)))
  {
    TailAfterDrop(s, LeadingBefore(s.track.q.samples, timeUs));
  }

  lemma ReadKeepsInv(s: Session)
    requires Inv(s)
    ensures Inv(Apply(s, Read))
  {
    SettleKeepsInv(s);
    if HasSample(s.track) {
      DeliverKeepsInv(s.(track := Settle(s.track)));
    }
  }

  /** Reading goes on without a gap: while samples are queued after one was delivered, the next read
      delivers the sample committed right after it. */
  lemma ReadsGoOn(s: Session)
    requires Inv(s) && HasSample(s.track) && Apply(s, Read).track.q.samples != []
    ensures var u := Apply(s, Read);
            && HasSample(u.track) && u.delivered != []
            && Apply(u, Read).delivered == u.delivered + [u.delivered[|u.delivered| - 1] + 1]
  {
    ReadKeepsInv(s);
    SettleKeepsInv(s);
    TailAfterDrop(s.(track := Settle(s.track)), 1);
    ReadWithoutKey(Apply(s, Read));
  }

  lemma ReadWithoutKey(s: Session)
    requires Inv(s) && !s.track.needKey && s.track.q.samples != []
    ensures HasSample(s.track) && s.Head() >= 0 && Apply(s, Read).delivered == s.delivered + [s.Head()]
  {
  }

  lemma ApplyKeepsInv(s: Session, e: Event)
    requires Inv(s)
    ensures Inv(Apply(s, e))
  {
    match e
    case Commit(info) => CommitKeepsInv(s, info);
    case Read => ReadKeepsInv(s);
    case TestEmpty => SettleKeepsInv(s);
    case DiscardUntil(t) => DiscardKeepsInv(s, t);
    case SkipBefore(t) => SkipKeepsInv(s, t);
    case Clear =>
  }

  lemma {:induction false} RunKeepsInv(s: Session, events: seq<Event>)
    requires Inv(s)
    ensures Inv(Run(s, events))
    decreases |events|
  {
    if events != [] {
      ApplyKeepsInv(s, events[0]);
      RunKeepsInv(Apply(s, events[0]), events[1..]);
    }
  }

  /** In every run of commits, reads, emptiness tests, discards, skips and clears, each sample
      delivered is a keyframe or the successor, in commit order, of the one before it. */
  lemma DeliveryIsDecodable(events: seq<Event>)
    ensures var s := Run(Session(FRESH, [], []), events);
            Decodable(s.log, s.delivered)
  {
    RunKeepsInv(Session(FRESH, [], []), events);
  }

  function PeekHead(q: SampleQueue.Queue): Option<InfoQueues.Peeked> {
    if q.samples == [] then None else Some(InfoQueues.PeekOf(q.samples[0]))
  }

  // ----- The class ------------------------------------------------------------------

  class TrackOutput {
    ghost var repr: set<object>
    const queue: InfoQueues.InfoQueue
    var needKeyFrame: bool

    ghost predicate Valid()
      reads this, repr
      ensures Valid() ==> this in repr
    {
      && this in repr && queue in repr && queue.repr <= repr && this !in queue.repr
      && queue.Valid()
    }

    ghost function Model(): Track
      reads this, queue
    {
      Track(queue.Model(), needKeyFrame)
    }

    constructor ()
      ensures Valid() && fresh(repr)
      ensures Model() == FRESH
    {
      queue := new InfoQueues.InfoQueue();
      needKeyFrame := true;
      new;
      repr := {this} + queue.repr;
    }

    method Clear()
      requires Valid()
      modifies repr
      ensures Valid() && repr == old(repr)
      ensures Model() == FRESH
    {
      queue.Clear();
      needKeyFrame := true;
    }

    method GetReadIndex() returns (index: nat)
      requires Valid()
      ensures index == Model().q.readIndex
    {
      index := queue.GetReadIndex();
    }

    method GetWriteIndex() returns (index: nat)
      requires Valid()
      ensures index == Model().q.WriteIndex()
    {
      index := queue.GetWriteIndex();
    }

    method DiscardUpstreamSamples(index: int)
      requires Valid() && Model().q.readIndex <= index <= Model().q.WriteIndex()
      modifies repr
      ensures Valid() && repr == old(repr)
      ensures Model() == old(Model()).(q := SampleQueue.DiscardFrom(old(Model()).q, index))
    {
      var _ := queue.DiscardUpstreamSamples(index);
    }

    /** Drops the head of the queue and peeks at the sample after it. */
    method SkipSample() returns (next: Option<InfoQueues.Peeked>)
      requires Valid() && Model().q.samples != []
      modifies repr
      ensures Valid() && repr == old(repr)
      ensures Model() == old(Model()).(q := SampleQueue.Drop(old(Model()).q, 1))
      ensures next == PeekHead(Model().q)
    {
      var _ := queue.MoveToNextSample();
      next := queue.PeekSample();
    }

    /** Skips to the first sample that may be delivered. */
    method AdvanceToEligibleSample() returns (found: bool)
      requires Valid()
      modifies repr
      ensures Valid() && repr == old(repr)
      ensures Model() == Settle(old(Model()))
      ensures found == HasSample(old(Model()))
    {
      var next := queue.PeekSample();
      if needKeyFrame {
        next := SkipDependent(next);
      }
      found := next.Some?;
    }

    /** Skips samples until a keyframe is at the head. */
    method SkipDependent(head: Option<InfoQueues.Peeked>) returns (next: Option<InfoQueues.Peeked>)
      requires Valid() && head == PeekHead(queue.Model())
      modifies repr
      ensures Valid() && repr == old(repr) && needKeyFrame == old(needKeyFrame)
      ensures queue.Model() == SampleQueue.Drop(old(queue.Model()), LeadingDependent(old(queue.Model()).samples))
      ensures next == PeekHead(queue.Model())
    {
      ghost var start := queue.Model();
      ghost var dropped := 0;
      next := head;
      while next.Some? && !next.value.flags.sync
        invariant Valid() && repr == old(repr) && needKeyFrame == old(needKeyFrame)
        invariant dropped <= LeadingDependent(start.samples)
        invariant queue.Model() == SampleQueue.Drop(start, dropped)
        invariant next == PeekHead(queue.Model())
        decreases |start.samples| - dropped
      {
        assert start.samples[dropped] == queue.Model().samples[0];
        next := SkipSample();
        dropped := dropped + 1;
      }
      assert queue.Model().samples != [] ==> start.samples[dropped] == queue.Model().samples[0];
      assert dropped == LeadingDependent(start.samples);
    }

    method IsEmpty() returns (empty: bool)
      requires Valid()
      modifies repr
      ensures Valid() && repr == old(repr)
      ensures Model() == Settle(old(Model()))
      ensures empty == !HasSample(old(Model()))
    {
      var found := AdvanceToEligibleSample();
      empty := !found;
    }

    method GetSample() returns (sample: Option<InfoQueues.Peeked>)
      requires Valid()
      modifies repr
      ensures Valid() && repr == old(repr)
      ensures HasSample(old(Model())) ==>
                && Model() == Deliver(old(Model()))
                && sample == Some(InfoQueues.PeekOf(Settle(old(Model())).q.samples[0]))
      ensures !HasSample(old(Model())) ==> Model() == Settle(old(Model())) && sample == None
    {
      var found := AdvanceToEligibleSample();
      if !found {
        return None;
      }
      sample := ReadSample();
    }

    /** Takes the head of the queue. */
    method ReadSample() returns (sample: Option<InfoQueues.Peeked>)
      requires Valid() && Model().q.samples != []
      modifies repr
      ensures Valid() && repr == old(repr)
      ensures Model() == Track(SampleQueue.Drop(old(Model()).q, 1), false)
      ensures sample == PeekHead(old(Model()).q)
    {
      sample := queue.PeekSample();
      var _ := queue.MoveToNextSample();
      needKeyFrame := false;
    }

    /** Drops the head of the queue; a later read has to start at a keyframe. */
    method DiscardSample() returns (next: Option<InfoQueues.Peeked>)
      requires Valid() && Model().q.samples != []
      modifies repr
      ensures Valid() && repr == old(repr)
      ensures Model() == Track(SampleQueue.Drop(old(Model()).q, 1), true)
      ensures next == PeekHead(Model().q)
    {
      next := SkipSample();
      needKeyFrame := true;
    }

    method DiscardUntil(timeUs: int)
      requires Valid()
      modifies repr
      ensures Valid() && repr == old(repr)
      ensures Model() == DiscardBefore(old(Model()), timeUs)
    {
      ghost var start := Model();
      ghost var total := LeadingBefore(start.q.samples, timeUs);
      ghost var dropped := 0;
      var next := queue.PeekSample();
      while next.Some? && next.value.timeUs < timeUs
        invariant Valid() && repr == old(repr)
        invariant dropped <= total <= |start.q.samples|
        invariant Model() == Track(SampleQueue.Drop(start.q, dropped), start.needKey || dropped > 0)
        invariant next == PeekHead(Model().q)
        decreases total - dropped
      {
        assert start.q.samples[dropped] == Model().q.samples[0];
        next := DiscardSample();
        dropped := dropped + 1;
      }
      assert Model().q.samples != [] ==> start.q.samples[dropped] == Model().q.samples[0];
      assert dropped == total;
    }

    method SkipToKeyframeBefore(timeUs: int) returns (skipped: bool)
      requires Valid()
      modifies repr
      ensures Valid() && repr == old(repr)
      ensures Model() == old(Model()).(q := SampleQueue.Skip(old(Model()).q, timeUs))
      ensures var target := SampleQueue.SkipTarget(old(Model()).q.samples, timeUs);
              skipped == (target.Some? && old(Model()).q.samples[target.value].offset != -1)
    {
      SampleQueue.LastKeyframeInRange(queue.Model().samples, timeUs);
      var position := queue.SkipToKeyframeBefore(timeUs);
      skipped := position != -1;
    }

    /** Commits a sample that ends `offset` bytes before the last byte written. */
    method WriteSampleMetadata(timeUs: int, durationUs: int, flags: Flags, written: int, size: int, offset: int,
                               keyId: Option<string>, iv: Option<string>,
                               clear: Option<seq<int>>, enc: Option<seq<int>>)
      requires Valid()
      modifies repr
      ensures Valid() && fresh(repr - old(repr))
      ensures Model() == old(Model()).(q := SampleQueue.Commit(old(Model()).q,
                           SampleInfo(timeUs, durationUs, flags, written - size - offset, size,
                                      keyId.GetOr(""), iv.GetOr(""), clear.GetOr([]), enc.GetOr([]))))
    {
      queue.CommitSample(timeUs, durationUs, flags, written - size - offset, size, keyId, iv, clear, enc);
      repr := repr + queue.repr;
    }
  }
}
