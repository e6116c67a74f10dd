/**
 The abstract value of the sample queue: a plain sequence of samples and the absolute
 index of its first element. Class `InfoQueue` refines it; the laws of the queue are
 stated and proved here.
 */
module SampleQueue {
  import opened Samples

  datatype Queue = Queue(readIndex: nat, samples: seq<SampleInfo>) {
    function WriteIndex(): nat {
      readIndex + |samples|
    }
  }

  const EMPTY := Queue(0, [])

  function Commit(q: Queue, s: SampleInfo): Queue {
    q.(samples := q.samples + [s])
  }

  function Drop(q: Queue, count: nat): Queue
    requires count <= |q.samples|
  {
    Queue(q.readIndex + count, q.samples[count..])
  }

  /** Keeps the samples whose absolute index is below `index`. */
  function DiscardFrom(q: Queue, index: int): Queue
    requires q.readIndex <= index <= q.WriteIndex()
  {
    q.(samples := q.samples[..index - q.readIndex])
  }

  // ----- Keyframe search ------------------------------------------------------------

  /** The length of the longest prefix whose times are all at or below `timeUs`. */
  function PrefixAtOrBefore(samples: seq<SampleInfo>, timeUs: int): (n: nat)
    ensures n <= |samples|
    ensures forall i :: 0 <= i < n ==> samples[i].timeUs <= timeUs
    ensures n < |samples| ==> samples[n].timeUs > timeUs
  {
    if samples == [] || samples[0].timeUs > timeUs then 0
    else 1 + PrefixAtOrBefore(samples[1..], timeUs)
  }

  /** The last keyframe among the first `n` samples. */
  function LastKeyframe(samples: seq<SampleInfo>, n: nat): (k: Option<nat>)
    requires n <= |samples|
    ensures k.None? ==> forall i :: 0 <= i < n ==> !samples[i].IsSync()
    ensures k.Some? ==>
              && k.value < n
              && samples[k.value].IsSync()
              && forall i :: k.value < i < n ==> !samples[i].IsSync()
  {
    if n == 0 then None
    else if samples[n - 1].IsSync() then Some(n - 1)
    else LastKeyframe(samples, n - 1)
  }

  /** How many samples a seek to `timeUs` inside the queue drops, if it is possible. */
  function SkipTarget(samples: seq<SampleInfo>, timeUs: int): Option<nat> {
    if samples == [] || timeUs < samples[0].timeUs || timeUs > samples[|samples| - 1].timeUs then None
    else LastKeyframe(samples, PrefixAtOrBefore(samples, timeUs))
  }

  function Skip(q: Queue, timeUs: int): Queue {
    match SkipTarget(q.samples, timeUs)
    case None => q
    case Some(k) =>
      LastKeyframeInRange(q.samples, timeUs);
      Drop(q, k)
  }

  lemma LastKeyframeInRange(samples: seq<SampleInfo>, timeUs: int)
    ensures SkipTarget(samples, timeUs).Some? ==> SkipTarget(samples, timeUs).value < |samples|
  {
  }

  /** `k` is a keyframe, and every sample up to it is at or before `timeUs`. */
  ghost predicate ReachableKeyframe(samples: seq<SampleInfo>, timeUs: int, k: nat) {
    && k < |samples|
    && samples[k].IsSync()
    && forall i :: 0 <= i <= k ==> samples[i].timeUs <= timeUs
  }

  ghost predicate InQueuedRange(samples: seq<SampleInfo>, timeUs: int) {
    samples != [] && samples[0].timeUs <= timeUs <= samples[|samples| - 1].timeUs
  }

  ghost predicate SortedByTime(samples: seq<SampleInfo>) {
    forall i, j :: 0 <= i < j < |samples| ==> samples[i].timeUs <= samples[j].timeUs
  }

  /** A skip succeeds exactly when the time is queued and a keyframe precedes it without
      passing a later sample; it then lands on the last such keyframe, which is the last
      keyframe at or before the time overall when times are sorted. */
  lemma SkipTargetIsLastReachableKeyframe(samples: seq<SampleInfo>, timeUs: int)
    ensures SkipTarget(samples, timeUs).Some? <==>
            InQueuedRange(samples, timeUs) && exists k: nat :: ReachableKeyframe(samples, timeUs, k)
    ensures SkipTarget(samples, timeUs).Some? ==>
              var k := SkipTarget(samples, timeUs).value;
              && ReachableKeyframe(samples, timeUs, k)
              && (forall j: nat :: ReachableKeyframe(samples, timeUs, j) ==> j <= k)
              && (SortedByTime(samples) ==>
                    forall j :: k < j < |samples| && samples[j].IsSync() ==> samples[j].timeUs > timeUs)
  {
    var n := PrefixAtOrBefore(samples, timeUs);
    forall k: nat | ReachableKeyframe(samples, timeUs, k)
      ensures k < n
    {
      assert n < |samples| ==> samples[n].timeUs > timeUs;
    }
    if SkipTarget(samples, timeUs).Some? {
      assert ReachableKeyframe(samples, timeUs, SkipTarget(samples, timeUs).value);
    }
  }

  // ----- Byte positions -------------------------------------------------------------

  /** What discarding from `index` reports as the bytes still written. `stale` is the end of
      the sample in the slot before the write slot, which is only consulted when the
      queue is empty and something has been read before. */
  function DiscardPosition(q: Queue, index: int, stale: int): int
    requires q.readIndex <= index <= q.WriteIndex()
  {
    if index == q.WriteIndex() then
      if q.readIndex == 0 then 0
      else if q.samples == [] then stale
      else q.samples[|q.samples| - 1].End()
    else q.samples[index - q.readIndex].offset
  }

  /** What moving past the head reports as the first byte still needed. */
  function NextPosition(q: Queue): int
    requires q.samples != []
  {
    if |q.samples| > 1 then q.samples[1].offset else q.samples[0].End()
  }

  /** A queue together with the byte position at which the next sample must start. */
  datatype Layout = Layout(q: Queue, edge: int) {
    /** The first byte that a queued sample still needs. */
    function Low(): int {
      if q.samples == [] then edge else q.samples[0].offset
    }
  }

  datatype Op =
    | OpCommit(info: SampleInfo)
    | OpNext
    | OpDiscard(index: int)
    | OpSkip(timeUs: int)
    | OpClear

  ghost predicate Contiguous(samples: seq<SampleInfo>) {
    forall i :: 0 <= i < |samples| - 1 ==> samples[i].End() == samples[i + 1].offset
  }

  ghost predicate WellLaid(b: Layout) {
    && Contiguous(b.q.samples)
    && (b.q.samples != [] ==> b.q.samples[|b.q.samples| - 1].End() == b.edge)
    && (b.q.readIndex == 0 ==> b.Low() == 0)
  }

  /** Commits are back to back, moves find a sample, and a discard stays inside the queue. */
  predicate OpOk(b: Layout, op: Op) {
    match op
    case OpCommit(s) => s.offset == b.edge
    case OpNext => b.q.samples != []
    case OpDiscard(index) => b.q.readIndex <= index < b.q.WriteIndex()
    case OpSkip(_) => true
    case OpClear => true
  }

  /** The position the operation returns, if it returns one. */
  function Returned(b: Layout, op: Op): Option<int>
    requires OpOk(b, op)
  {
    match op
    case OpNext => Some(NextPosition(b.q))
    case OpDiscard(index) => Some(DiscardPosition(b.q, index, 0))
    case OpSkip(t) =>
      LastKeyframeInRange(b.q.samples, t);
      if SkipTarget(b.q.samples, t).Some? then Some(b.q.samples[SkipTarget(b.q.samples, t).value].offset)
      else None
    case _ => None
  }

  function Apply(b: Layout, op: Op): Layout
    requires OpOk(b, op)
  {
    match op
    case OpCommit(s) => Layout(Commit(b.q, s), s.End())
    case OpNext => b.(q := Drop(b.q, 1))
    case OpDiscard(index) => Layout(DiscardFrom(b.q, index), DiscardPosition(b.q, index, 0))
    case OpSkip(t) => b.(q := Skip(b.q, t))
    case OpClear => Layout(EMPTY, 0)
  }

  ghost predicate RunOk(b: Layout, ops: seq<Op>)
    decreases |ops|
  {
    ops == [] || (OpOk(b, ops[0]) && RunOk(Apply(b, ops[0]), ops[1..]))
  }

  /** The returned position is the lower byte boundary of what is still queued after a move
      or a skip, and the upper one after a discard. */
  ghost predicate ReturnExact(b: Layout, op: Op)
    requires OpOk(b, op)
  {
    var b' := Apply(b, op);
    var pos := Returned(b, op);
    match op
    case OpNext => pos == Some(b'.Low())
    case OpSkip(_) => pos.Some? ==> pos.value == b'.Low()
    case OpDiscard(_) =>
      pos == Some(if b'.q.samples == [] then b.Low() else b'.q.samples[|b'.q.samples| - 1].End())
    case _ => pos.None?
  }

  ghost predicate AllReturnsExact(b: Layout, ops: seq<Op>)
    requires RunOk(b, ops)
    decreases |ops|
  {
    ops == [] || (ReturnExact(b, ops[0]) && AllReturnsExact(Apply(b, ops[0]), ops[1..]))
  }

  lemma ApplyKeepsLayout(b: Layout, op: Op)
    requires WellLaid(b) && OpOk(b, op)
    ensures WellLaid(Apply(b, op))
    ensures ReturnExact(b, op)
  {
    match op
    case OpCommit(s) => assert Commit(b.q, s).samples == b.q.samples + [s];
    case OpSkip(t) => LastKeyframeInRange(b.q.samples, t);
    case OpDiscard(index) => DiscardKeepsLayout(b, index);
    case _ =>
  }

  lemma DiscardKeepsLayout(b: Layout, index: int)
    requires WellLaid(b) && OpOk(b, OpDiscard(index))
    ensures WellLaid(Apply(b, OpDiscard(index))) && ReturnExact(b, OpDiscard(index))
  {
  }

  lemma {:induction false} RunKeepsLayout(b: Layout, ops: seq<Op>)
    requires WellLaid(b) && RunOk(b, ops)
    ensures AllReturnsExact(b, ops)
    decreases |ops|
  {
    if ops != [] {
      ApplyKeepsLayout(b, ops[0]);
      RunKeepsLayout(Apply(b, ops[0]), ops[1..]);
    }
  }

  /** In every run with back-to-back commits, every byte position that a move, a successful
      skip or a discard of at least one sample returns is the boundary of what is left. */
  lemma ByteBoundariesAreExact(ops: seq<Op>)
    requires RunOk(Layout(EMPTY, 0), ops)
    ensures AllReturnsExact(Layout(EMPTY, 0), ops)
  {
    RunKeepsLayout(Layout(EMPTY, 0), ops);
  }

  /** Discarding nothing from a non-empty queue reports the right position exactly when a
      sample has been read before or the queued bytes end at zero. */
  lemma EmptyDiscardExactIff(b: Layout, stale: int)
    requires WellLaid(b) && b.q.samples != []
    ensures DiscardPosition(b.q, b.q.WriteIndex(), stale) == b.edge <==>
            b.q.readIndex != 0 || b.edge == 0
  {
  }

  /** One queued sample of ten bytes, nothing read: discarding nothing reports zero bytes. */
  lemma EmptyDiscardForgetsBytes()
    ensures var s := SampleInfo(0, 0, Flags(true, false, false), 0, 10, "", "", [], []);
            var b := Apply(Layout(EMPTY, 0), OpCommit(s));
            && WellLaid(b) && b.edge == 10
            && DiscardPosition(b.q, b.q.WriteIndex(), 0) == 0
  {
    var s := SampleInfo(0, 0, Flags(true, false, false), 0, 10, "", "", [], []);
    var b := Apply(Layout(EMPTY, 0), OpCommit(s));
    assert b.q.samples == [s];
  }
}
