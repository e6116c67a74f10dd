/**
 The sample-information ring buffer: nine parallel arrays, absolute and relative read
 indices, a relative write index, and growth by a fixed increment when the ring fills.
 Every operation is proved against the plain sequence of module `SampleQueue`.
 */
module InfoQueues {
  import opened Samples
  import SampleQueue

  const CAPACITY_INCREMENT: nat := 1000

  /** The slot `i` positions after the start of a ring of `capacity` slots. */
  function Wrap(i: nat, capacity: nat): (r: nat)
    requires i < 2 * capacity
    ensures r < capacity
  {
    if i < capacity then i else i - capacity
  }

  lemma ModIsWrap(i: nat, capacity: nat)
    requires 0 < capacity && i < 2 * capacity
    ensures i % capacity == Wrap(i, capacity)
  {
    if capacity <= i {
      assert i == 1 * capacity + (i - capacity);
    }
  }

  method Mod(i: nat, capacity: nat) returns (r: nat)
    requires 0 < capacity && i < 2 * capacity
    ensures r == Wrap(i, capacity)
  {
    ModIsWrap(i, capacity);
    r := i % capacity;
  }

  // ----- Rings as values ------------------------------------------------------------

  /** The ring `slots`, read from slot `start`, holds `contents`. */
  ghost predicate Ring(slots: seq<SampleInfo>, start: nat, contents: seq<SampleInfo>) {
    && start < |slots|
    && |contents| <= |slots|
    && forall i :: 0 <= i < |contents| ==> contents[i] == slots[Wrap(start + i, |slots|)]
  }

  lemma RingDrop(slots: seq<SampleInfo>, start: nat, contents: seq<SampleInfo>, count: nat)
    requires Ring(slots, start, contents) && count <= |contents| < |slots|
    ensures Ring(slots, Wrap(start + count, |slots|), contents[count..])
  {
    forall i | 0 <= i < |contents| - count
      ensures contents[count..][i] == slots[Wrap(Wrap(start + count, |slots|) + i, |slots|)]
    {
      assert contents[count..][i] == contents[count + i];
    }
  }

  lemma RingTake(slots: seq<SampleInfo>, start: nat, contents: seq<SampleInfo>, kept: nat)
    requires Ring(slots, start, contents) && kept <= |contents|
    ensures Ring(slots, start, contents[..kept])
  {
  }

  lemma RingWrite(slots: seq<SampleInfo>, start: nat, contents: seq<SampleInfo>, s: SampleInfo)
    requires Ring(slots, start, contents) && |contents| < |slots|
    ensures Ring(slots[Wrap(start + |contents|, |slots|) := s], start, contents + [s])
  {
  }

  /** The slot after `b` samples, counted from the slot after `a` of them. */
  lemma WrapFrom(start: nat, a: nat, b: nat, capacity: nat)
    requires start < capacity && a <= b < capacity
    ensures Wrap(Wrap(start + a, capacity) + (b - a), capacity) == Wrap(start + b, capacity)
  {
  }

  /** Fewer samples end in another slot. */
  lemma SlotsDiffer(start: nat, a: nat, b: nat, capacity: nat)
    requires start < capacity && a <= b < capacity
    ensures Wrap(start + a, capacity) == Wrap(start + b, capacity) <==> a == b
  {
  }

  /** An offset as the extras holder keeps it after narrowing to 32 bits. */
  function NarrowToInt32(x: int): (r: int)
    ensures -0x8000_0000 <= r < 0x8000_0000
    ensures (x - r) % 0x1_0000_0000 == 0
    ensures r == x <==> -0x8000_0000 <= x < 0x8000_0000
  {
    var m := x % 0x1_0000_0000;
    if m < 0x8000_0000 then m else m - 0x1_0000_0000
  }

  /** The encryption extras of a peeked sample. */
  datatype Extras = Extras(keyId: string, iv: string, bytesClear: seq<int>, bytesEnc: seq<int>)

  /** What a peek writes into the two holders. */
  datatype Peeked = Peeked(timeUs: int, size: int, flags: Flags, durationUs: int, offset: int, extras: Option<Extras>)

  function PeekOf(s: SampleInfo): Peeked {
    Peeked(s.timeUs, s.size, s.flags, s.durationUs, NarrowToInt32(s.offset),
           if s.IsEncrypted() then Some(Extras(s.keyId, s.iv, s.bytesClear, s.bytesEnc)) else None)
  }

  /** A sample two gigabytes into the stream is peeked at a negative offset, and one four gigabytes
      further on at the same one. */
  lemma PeekCanMisplace(s: SampleInfo, later: SampleInfo)
    requires s.offset == 0x8000_0000 && later.offset == s.offset + 0x1_0000_0000
    ensures PeekOf(s).offset == -0x8000_0000 == PeekOf(later).offset
  {
  }

  lemma RingUnroll(slots: seq<SampleInfo>, start: nat, contents: seq<SampleInfo>, longer: seq<SampleInfo>)
    requires Ring(slots, start, contents) && |slots| < |longer|
    requires forall i :: 0 <= i < |slots| ==> longer[i] == slots[Wrap(start + i, |slots|)]
    ensures Ring(longer, 0, contents)
  {
  }

  /** A search result as the code keeps it, with -1 for none. */
  function OrMinusOne(k: Option<nat>): int {
    if k.Some? then k.value else -1
  }

  method CopyRange<T>(dst: array<T>, dstPos: nat, src: array<T>, srcPos: nat, len: nat)
    requires dst != src
    requires dstPos + len <= dst.Length && srcPos + len <= src.Length
    modifies dst
    ensures forall j :: dstPos <= j < dstPos + len ==> dst[j] == src[srcPos + (j - dstPos)]
    ensures forall j :: 0 <= j < dst.Length && !(dstPos <= j < dstPos + len) ==> dst[j] == old(dst[j])
  {
    for k := 0 to len
      invariant forall j :: dstPos <= j < dstPos + k ==> dst[j] == src[srcPos + (j - dstPos)]
      invariant forall j :: 0 <= j < dst.Length && !(dstPos <= j < dstPos + k) ==> dst[j] == old(dst[j])
    {
      dst[dstPos + k] := src[srcPos + k];
    }
  }

  /** Copies a full ring that starts at slot `start` to the front of a longer array: first the
      part before the wrap, then the part after it. */
  method Unrolled<T(0)>(src: array<T>, start: nat, newCapacity: nat) returns (dst: array<T>)
    requires start < src.Length <= newCapacity
    ensures fresh(dst) && dst.Length == newCapacity
    ensures forall i :: 0 <= i < src.Length ==> dst[i] == src[Wrap(start + i, src.Length)]
  {
    dst := new T[newCapacity];
    var beforeWrap := src.Length - start;
    CopyRange(dst, 0, src, start, beforeWrap);
    CopyRange(dst, beforeWrap, src, 0, start);
  }

  /** Nine different objects. */
  ghost predicate Apart(o: object, d: object, s: object, t: object, f: object,
                        k: object, v: object, c: object, e: object) {
    && o != d && o != s && o != t && o != f && o != k && o != v && o != c && o != e
    && d != s && d != t && d != f && d != k && d != v && d != c && d != e
    && s != t && s != f && s != k && s != v && s != c && s != e
    && t != f && t != k && t != v && t != c && t != e
    && f != k && f != v && f != c && f != e
    && k != v && k != c && k != e
    && v != c && v != e
    && c != e
  }

  /** The nine parallel arrays of the ring. */
  class SlotArrays {
    /** Every slot as one record. */
    ghost var slots: seq<SampleInfo>

    const offsets: array<int>
    const durations: array<int>
    const sizes: array<int>
    const flags: array<Flags>
    const times: array<int>
    const keyIds: array<string>
    const ivs: array<string>
    const bytesClear: array<seq<int>>
    const bytesEnc: array<seq<int>>

    ghost const repr: set<object>

    ghost predicate Wired()
      reads this
    {
      && this in repr && offsets in repr && durations in repr && sizes in repr && flags in repr && times in repr
      && keyIds in repr && ivs in repr && bytesClear in repr && bytesEnc in repr
      && Apart(offsets, durations, sizes, times, flags, keyIds, ivs, bytesClear, bytesEnc)
      && |slots| == offsets.Length == durations.Length == sizes.Length == times.Length
      && |slots| == flags.Length == keyIds.Length == ivs.Length
      && |slots| == bytesClear.Length == bytesEnc.Length
    }

    /** Each slot record has its fields at the same place of the nine arrays. */
    ghost predicate Valid()
      reads this, repr
      ensures Valid() ==> this in repr
    {
      && Wired()
      && forall j :: 0 <= j < |slots| ==>
           slots[j] == SampleInfo(times[j], durations[j], flags[j], offsets[j], sizes[j],
                                  keyIds[j], ivs[j], bytesClear[j], bytesEnc[j])
    }

    /** Takes over nine arrays. */
    constructor (o: array<int>, d: array<int>, s: array<int>, t: array<int>, f: array<Flags>,
                 k: array<string>, v: array<string>, c: array<seq<int>>, e: array<seq<int>>)
      requires Apart(o, d, s, t, f, k, v, c, e)
      requires t.Length == d.Length == f.Length == o.Length == s.Length == k.Length == v.Length == c.Length == e.Length
      ensures Valid() && |slots| == t.Length
      ensures repr == {this, o, d, s, t, f, k, v, c, e}
      ensures offsets == o && durations == d && sizes == s && times == t && flags == f
      ensures keyIds == k && ivs == v && bytesClear == c && bytesEnc == e
    {
      offsets, durations, sizes, times, flags := o, d, s, t, f;
      keyIds, ivs, bytesClear, bytesEnc := k, v, c, e;
      slots := Rows(t, d, f, o, s, k, v, c, e);
      repr := {this, o, d, s, t, f, k, v, c, e};
    }

    /** Fills slot `w` of all nine arrays. */
    method Write(w: nat, info: SampleInfo)
      requires Valid() && w < |slots|
      modifies repr
      ensures Valid()
      ensures slots == old(slots)[w := info]
    {
      WriteNumbers(w, info);
      WriteExtras(w, info);
      slots := slots[w := info];
    }

    method WriteNumbers(w: nat, info: SampleInfo)
      requires Wired() && w < |slots|
      modifies times, durations, offsets, sizes, flags
      ensures forall j :: 0 <= j < |slots| ==> times[j] == if j == w then info.timeUs else old(times[j])
      ensures forall j :: 0 <= j < |slots| ==> durations[j] == if j == w then info.durationUs else old(durations[j])
      ensures forall j :: 0 <= j < |slots| ==> offsets[j] == if j == w then info.offset else old(offsets[j])
      ensures forall j :: 0 <= j < |slots| ==> sizes[j] == if j == w then info.size else old(sizes[j])
      ensures forall j :: 0 <= j < |slots| ==> flags[j] == if j == w then info.flags else old(flags[j])
    {
      times[w] := info.timeUs;
      durations[w] := info.durationUs;
      offsets[w] := info.offset;
      sizes[w] := info.size;
      flags[w] := info.flags;
    }

    method WriteExtras(w: nat, info: SampleInfo)
      requires Wired() && w < |slots|
      modifies keyIds, ivs, bytesClear, bytesEnc
      ensures forall j :: 0 <= j < |slots| ==> keyIds[j] == if j == w then info.keyId else old(keyIds[j])
      ensures forall j :: 0 <= j < |slots| ==> ivs[j] == if j == w then info.iv else old(ivs[j])
      ensures forall j :: 0 <= j < |slots| ==> bytesClear[j] == if j == w then info.bytesClear else old(bytesClear[j])
      ensures forall j :: 0 <= j < |slots| ==> bytesEnc[j] == if j == w then info.bytesEnc else old(bytesEnc[j])
    {
      keyIds[w] := info.keyId;
      ivs[w] := info.iv;
      bytesClear[w] := info.bytesClear;
      bytesEnc[w] := info.bytesEnc;
    }

    /** Longer copies of the five number arrays, beginning with the full ring read from `start`. */
    method UnrolledNumbers(start: nat, newCapacity: nat)
      returns (o: array<int>, d: array<int>, s: array<int>, t: array<int>, f: array<Flags>)
      requires Valid() && start < |slots| <= newCapacity
      ensures fresh(o) && fresh(d) && fresh(s) && fresh(t) && fresh(f)
      ensures o != d && o != s && o != t && d != s && d != t && s != t
      ensures (f as object) !in {o, d, s, t}
      ensures newCapacity == o.Length == d.Length == s.Length == t.Length == f.Length
      ensures forall i :: 0 <= i < |slots| ==>
                var r := slots[Wrap(start + i, |slots|)];
                o[i] == r.offset && d[i] == r.durationUs && s[i] == r.size && t[i] == r.timeUs && f[i] == r.flags
    {
      o := Unrolled(offsets, start, newCapacity);
      d := Unrolled(durations, start, newCapacity);
      t := Unrolled(times, start, newCapacity);
      f := Unrolled(flags, start, newCapacity);
      s := Unrolled(sizes, start, newCapacity);
    }

    /** Longer copies of the four encryption arrays, beginning with the full ring read from `start`. */
    method UnrolledExtras(start: nat, newCapacity: nat)
      returns (k: array<string>, v: array<string>, c: array<seq<int>>, e: array<seq<int>>)
      requires Valid() && start < |slots| <= newCapacity
      ensures fresh(k) && fresh(v) && fresh(c) && fresh(e)
      ensures k != v && c != e && (k as object) !in {c, e} && (v as object) !in {c, e}
      ensures newCapacity == k.Length == v.Length == c.Length == e.Length
      ensures forall i :: 0 <= i < |slots| ==>
                var r := slots[Wrap(start + i, |slots|)];
                k[i] == r.keyId && v[i] == r.iv && c[i] == r.bytesClear && e[i] == r.bytesEnc
    {
      k := Unrolled(keyIds, start, newCapacity);
      v := Unrolled(ivs, start, newCapacity);
      c := Unrolled(bytesClear, start, newCapacity);
      e := Unrolled(bytesEnc, start, newCapacity);
    }

    /** A longer store that begins with the full ring read from `start`. */
    method Extended(start: nat, newCapacity: nat) returns (store: SlotArrays)
      requires Valid() && start < |slots| <= newCapacity
      ensures store.Valid() && fresh(store.repr)
      ensures |store.slots| == newCapacity
      ensures forall i :: 0 <= i < |slots| ==> store.slots[i] == slots[Wrap(start + i, |slots|)]
    {
      var o, d, s, t, f := UnrolledNumbers(start, newCapacity);
      var k, v, c, e := UnrolledExtras(start, newCapacity);
      store := new SlotArrays(o, d, s, t, f, k, v, c, e);
    }
  }

  /** A store of `n` slots. */
  method NewStore(n: nat) returns (store: SlotArrays)
    ensures store.Valid() && fresh(store.repr) && |store.slots| == n
  {
    var o := new int[n];
    var d := new int[n];
    var s := new int[n];
    var t := new int[n];
    var f := new Flags[n];
    var k := new string[n];
    var v := new string[n];
    var c := new seq<int>[n];
    var e := new seq<int>[n];
    store := new SlotArrays(o, d, s, t, f, k, v, c, e);
  }

  /** Nine columns as rows. */
  ghost function Rows(t: array<int>, d: array<int>, f: array<Flags>, o: array<int>, s: array<int>,
                      k: array<string>, v: array<string>, c: array<seq<int>>, e: array<seq<int>>)
    : (rows: seq<SampleInfo>)
    requires t.Length == d.Length == f.Length == o.Length == s.Length == k.Length == v.Length == c.Length == e.Length
    reads t, d, f, o, s, k, v, c, e
    ensures |rows| == t.Length
    ensures forall j :: 0 <= j < |rows| ==>
              rows[j] == SampleInfo(t[j], d[j], f[j], o[j], s[j], k[j], v[j], c[j], e[j])
  {
    seq(t.Length, j requires 0 <= j < t.Length reads t, d, f, o, s, k, v, c, e =>
      SampleInfo(t[j], d[j], f[j], o[j], s[j], k[j], v[j], c[j], e[j]))
  }

  class InfoQueue {
    /** The queued samples. */
    ghost var contents: seq<SampleInfo>
    ghost var repr: set<object>

    var store: SlotArrays
    var capacity: nat
    var queueSize: nat
    var absoluteRead: nat
    var relativeRead: nat
    var relativeWrite: nat

    ghost predicate Valid()
      reads this, repr
      ensures Valid() ==> this in repr
    {
      && this in repr && store in repr && store.repr <= repr
      && this !in store.repr
      && store.Valid()
      && Ring(store.slots, relativeRead, contents)
      && |store.slots| == capacity
      && queueSize == |contents| < capacity
      && relativeWrite == Wrap(relativeRead + queueSize, capacity)
    }

    /** The queue this ring stands for. */
    ghost function Model(): SampleQueue.Queue
      reads this
    {
      SampleQueue.Queue(absoluteRead, contents)
    }

    constructor ()
      ensures Valid() && fresh(repr)
      ensures Model() == SampleQueue.EMPTY
    {
      var initial := NewStore(CAPACITY_INCREMENT);
      store := initial;
      capacity := CAPACITY_INCREMENT;
      queueSize, absoluteRead, relativeRead, relativeWrite := 0, 0, 0, 0;
      contents := [];
      new;
      repr := {this} + store.repr;
    }

    method Clear()
      requires Valid()
      modifies this
      ensures Valid() && repr == old(repr)
      ensures Model() == SampleQueue.EMPTY
    {
      absoluteRead, relativeRead, relativeWrite, queueSize := 0, 0, 0, 0;
      contents := [];
    }

    method GetReadIndex() returns (index: nat)
      requires Valid()
      ensures index == Model().readIndex
    {
      index := absoluteRead;
    }

    method GetWriteIndex() returns (index: nat)
      requires Valid()
      ensures index == Model().WriteIndex()
    {
      index := absoluteRead + queueSize;
    }

    /** The slot before the write slot. */
    function LastWriteSlot(): int
      reads this
    {
      (if relativeWrite == 0 then capacity else relativeWrite) - 1
    }

    method DiscardUpstreamSamples(index: int) returns (position: int)
      requires Valid()
      requires Model().readIndex <= index <= Model().WriteIndex()
      modifies this
      ensures Valid() && repr == old(repr)
      ensures Model() == SampleQueue.DiscardFrom(old(Model()), index)
      ensures position == SampleQueue.DiscardPosition(
                            old(Model()), index, old(store.offsets[LastWriteSlot()] + store.sizes[LastWriteSlot()]))
    {
      var count := absoluteRead + queueSize - index;
      if count == 0 {
        assert contents[..queueSize] == contents;
        if absoluteRead == 0 {
          return 0;
        }
        var last := LastWriteSlot();
        return store.offsets[last] + store.sizes[last];
      }
      Retract(count);
      position := store.offsets[relativeWrite];
    }

    /** Moves the write position back over the last `count` samples, at least one. */
    method Retract(count: nat)
      requires Valid() && 0 < count <= |contents|
      modifies this
      ensures Valid() && repr == old(repr)
      ensures Model() == old(Model()).(samples := old(contents)[..|old(contents)| - count])
      ensures store.slots[relativeWrite] == old(contents)[|old(contents)| - count]
    {
      RingTake(store.slots, relativeRead, contents, queueSize - count);
      queueSize := queueSize - count;
      relativeWrite := Mod(relativeWrite + capacity - count, capacity);
      contents := contents[..queueSize];
    }

    method PeekSample() returns (peeked: Option<Peeked>)
      requires Valid()
      ensures peeked == if Model().samples == [] then None else Some(PeekOf(Model().samples[0]))
    {
      if queueSize == 0 {
        return None;
      }
      var r := relativeRead;
      assert contents[0] == store.slots[Wrap(r + 0, capacity)];
      var extras := None;
      if store.flags[r].encrypted {
        extras := Some(Extras(store.keyIds[r], store.ivs[r], store.bytesClear[r], store.bytesEnc[r]));
      }
      return Some(Peeked(store.times[r], store.sizes[r], store.flags[r], store.durations[r],
                         NarrowToInt32(store.offsets[r]), extras));
    }

    method MoveToNextSample() returns (position: int)
      requires Valid() && Model().samples != []
      modifies this
      ensures Valid() && repr == old(repr)
      ensures Model() == SampleQueue.Drop(old(Model()), 1)
      ensures position == SampleQueue.NextPosition(old(Model()))
    {
      var lastRead := relativeRead;
      DropHead();
      if queueSize > 0 {
        assert contents[0] == store.slots[Wrap(relativeRead + 0, capacity)];
        position := store.offsets[relativeRead];
      } else {
        position := store.sizes[lastRead] + store.offsets[lastRead];
      }
    }

    method DropHead()
      requires Valid() && contents != []
      modifies this
      ensures Valid() && repr == old(repr) && store == old(store)
      ensures Model() == SampleQueue.Drop(old(Model()), 1)
      ensures store.slots[old(relativeRead)] == old(contents)[0]
    {
      assert contents[0] == store.slots[Wrap(relativeRead + 0, capacity)];
      var next := relativeRead + 1;
      if next == capacity {
        next := 0;
      }
      MoveHead(next, 1);
    }

    /** Makes the slot that is `count` samples further the head. */
    method MoveHead(next: nat, count: nat)
      requires Valid() && count <= |contents| && next == Wrap(relativeRead + count, capacity)
      modifies this
      ensures Valid() && repr == old(repr) && store == old(store) && relativeRead == next
      ensures Model() == SampleQueue.Drop(old(Model()), count)
    {
      RingDrop(store.slots, relativeRead, contents, count);
      WrapFrom(relativeRead, count, queueSize, capacity);
      queueSize := queueSize - count;
      relativeRead := next;
      absoluteRead := absoluteRead + count;
      contents := contents[count..];
    }

    /** Scans for the last keyframe of the prefix at or before `timeUs`. */
    method FindKeyframe(timeUs: int) returns (found: int)
      requires Valid()
      requires contents != [] && contents[0].timeUs <= timeUs <= contents[|contents| - 1].timeUs
      ensures found == OrMinusOne(SampleQueue.SkipTarget(contents, timeUs))
    {
      found := Search(timeUs, SampleQueue.PrefixAtOrBefore(contents, timeUs));
    }

    /** The search loop, which stops at the end of the `prefix` that is not past the time. */
    method Search(timeUs: int, ghost prefix: nat) returns (found: int)
      requires Valid() && prefix <= |contents|
      requires forall i :: 0 <= i < prefix ==> contents[i].timeUs <= timeUs
      requires prefix < |contents| ==> contents[prefix].timeUs > timeUs
      ensures found == OrMinusOne(SampleQueue.LastKeyframe(contents, prefix))
    {
      var count := 0;
      found := -1;
      var search := relativeRead;
      while search != relativeWrite
        invariant 0 <= count <= prefix && search == Wrap(relativeRead + count, capacity)
        invariant found == OrMinusOne(SampleQueue.LastKeyframe(contents, count))
        decreases queueSize - count
      {
        assert count < queueSize by {
          SlotsDiffer(relativeRead, count, queueSize, capacity);
        }
        var tooFar, best := Examine(search, count, timeUs, found);
        if tooFar {
          break;
        }
        found := best;
        search := NextSlot(search, count);
        count := count + 1;
      }
      assert count == prefix by {
        SlotsDiffer(relativeRead, count, queueSize, capacity);
      }
    }

    /** The slot after the one `count` samples after the head. */
    method NextSlot(slot: nat, count: nat) returns (next: nat)
      requires Valid() && count < queueSize && slot == Wrap(relativeRead + count, capacity)
      ensures next == Wrap(relativeRead + (count + 1), capacity)
    {
      next := Mod(slot + 1, capacity);
    }

    /** Looks at one slot of the search: whether it is past the time, and the last keyframe so far. */
    method Examine(slot: nat, count: nat, timeUs: int, found: int) returns (tooFar: bool, best: int)
      requires Valid() && count < |contents| && slot == Wrap(relativeRead + count, capacity)
      requires found == OrMinusOne(SampleQueue.LastKeyframe(contents, count))
      ensures tooFar == (contents[count].timeUs > timeUs)
      ensures !tooFar ==> best == OrMinusOne(SampleQueue.LastKeyframe(contents, count + 1))
    {
      assert contents[count] == store.slots[slot];
      tooFar, best := false, found;
      if store.times[slot] > timeUs {
        tooFar := true;
      } else if store.flags[slot].sync {
        best := count;
      }
    }

    method SkipToKeyframeBefore(timeUs: int) returns (position: int)
      requires Valid()
      modifies this
      ensures Valid() && repr == old(repr)
      ensures Model() == SampleQueue.Skip(old(Model()), timeUs)
      ensures var target := SampleQueue.SkipTarget(old(Model()).samples, timeUs);
              && (target.None? ==> position == -1)
              && (target.Some? ==> Model().samples != [] && position == Model().samples[0].offset)
    {
      SampleQueue.LastKeyframeInRange(contents, timeUs);
      var within := InRange(timeUs);
      if !within {
        return -1;
      }
      var count := FindKeyframe(timeUs);
      if count == -1 {
        return -1;
      }
      Advance(count);
      position := store.offsets[relativeRead];
    }

    /** Whether `timeUs` lies between the times of the first and the last queued sample. */
    method InRange(timeUs: int) returns (within: bool)
      requires Valid()
      ensures within <==>
              contents != [] && contents[0].timeUs <= timeUs <= contents[|contents| - 1].timeUs
    {
      var last := LastWriteSlot();
      if queueSize == 0 || timeUs < store.times[relativeRead] {
        assert queueSize > 0 ==> contents[0] == store.slots[Wrap(relativeRead + 0, capacity)];
        return false;
      }
      assert contents[0] == store.slots[Wrap(relativeRead + 0, capacity)];
      assert contents[queueSize - 1] == store.slots[last];
      within := timeUs <= store.times[last];
    }

    /** Moves the read position over `count` samples, leaving at least one. */
    method Advance(count: nat)
      requires Valid() && count < |contents|
      modifies this
      ensures Valid() && repr == old(repr)
      ensures Model() == SampleQueue.Drop(old(Model()), count)
      ensures contents[0] == store.slots[relativeRead]
    {
      var next := Mod(relativeRead + count, capacity);
      MoveHead(next, count);
      assert contents[0] == store.slots[Wrap(relativeRead + 0, capacity)];
    }

    /** Appends one sample; missing encryption fields are stored as empty values. */
    method CommitSample(timeUs: int, durationUs: int, sampleFlags: Flags, offset: int, size: int,
                        keyId: Option<string>, iv: Option<string>,
                        clear: Option<seq<int>>, enc: Option<seq<int>>)
      requires Valid()
      modifies repr
      ensures Valid() && fresh(repr - old(repr))
      ensures Model() == SampleQueue.Commit(old(Model()),
                           SampleInfo(timeUs, durationUs, sampleFlags, offset, size,
                                      keyId.GetOr(""), iv.GetOr(""), clear.GetOr([]), enc.GetOr([])))
    {
      var info := SampleInfo(timeUs, durationUs, sampleFlags, offset, size,
                             keyId.GetOr(""), iv.GetOr(""), clear.GetOr([]), enc.GetOr([]));
      Put(info);
      if queueSize == capacity {
        Grow();
      } else {
        relativeWrite := relativeWrite + 1;
        if relativeWrite == capacity {
          relativeWrite := 0;
        }
      }
    }

    /** The state between filling the write slot and moving the write position. */
    ghost predicate Filled()
      reads this, repr
    {
      && this in repr && store in repr && store.repr <= repr && this !in store.repr && store.Valid()
      && Ring(store.slots, relativeRead, contents)
      && 0 < queueSize == |contents| <= |store.slots| == capacity
      && relativeWrite == Wrap(relativeRead + (queueSize - 1), capacity)
    }

    method Put(info: SampleInfo)
      requires Valid()
      modifies repr
      ensures Filled() && repr == old(repr) && store == old(store)
      ensures Model() == SampleQueue.Commit(old(Model()), info)
    {
      RingWrite(store.slots, relativeRead, contents, info);
      store.Write(relativeWrite, info);
      contents := contents + [info];
      queueSize := queueSize + 1;
    }

    /** Gives a full ring more slots and lines its samples up from slot zero. */
    method Grow()
      requires Filled() && queueSize == capacity
      modifies this
      ensures Valid() && fresh(repr - old(repr))
      ensures Model() == old(Model())
    {
      var newCapacity := capacity + CAPACITY_INCREMENT;
      var bigger := store.Extended(relativeRead, newCapacity);
      RingUnroll(store.slots, relativeRead, contents, bigger.slots);
      Adopt(bigger, newCapacity);
    }

    /** Takes over a longer store that holds the samples from slot zero. */
    method Adopt(bigger: SlotArrays, newCapacity: nat)
      requires this in repr && queueSize == capacity == |contents| < newCapacity
      requires bigger.Valid() && this !in bigger.repr && |bigger.slots| == newCapacity
      requires Ring(bigger.slots, 0, contents)
      modifies this
      ensures Valid() && repr == old(repr) + bigger.repr && Model() == old(Model())
    {
      store := bigger;
      relativeRead := 0;
      relativeWrite := capacity;
      queueSize := capacity;
      capacity := newCapacity;
      repr := repr + bigger.repr;
    }
  }
}
