/**
 The frame reader as it is written, with its loops over tracks and read attempts, proved
 against the functions that specify it.
 */
module FrameReaders {
  import opened Samples
  import opened FrameReading

  class FrameReader {
    var tracks: seq<Track>
    var currentTrack: Option<nat>
    var sampleHolderConsumed: nat
    var buffering: bool
    var readerPositionUs: int

    ghost function Model(): Reader
      reads this
    {
      Reader(tracks, currentTrack, sampleHolderConsumed, buffering)
    }

    constructor (tracks: seq<Track>)
      ensures Model() == Reader(tracks, None, 0, true)
    {
      this.tracks := tracks;
      currentTrack := None;
      sampleHolderConsumed := 0;
      buffering := true;
      readerPositionUs := 0;
    }

    /** Reads until the track holds a frame, has ended, or the attempts are used up. */
    method ReadSample(t: Track, trick: bool) returns (r: Track)
      requires !Skipped(t) && t.held.None?
      ensures r == FillTrack(t, trick)
    {
      r := t;
      ghost var all := Fill(t.kind, trick, t.input, MAX_READ_ATTEMPTS);
      var i := 0;
      while i < MAX_READ_ATTEMPTS && r.input != []
        invariant 0 <= i <= MAX_READ_ATTEMPTS && !r.eos && r.held.None?
        invariant r == t.(input := r.input, checkPssh := r.checkPssh)
        invariant var f := Fill(t.kind, trick, r.input, MAX_READ_ATTEMPTS - i);
                  f.(newFormat := r.checkPssh || f.newFormat) == all.(newFormat := t.checkPssh || all.newFormat)
        decreases |r.input|
      {
        var read := r.input[0];
        r := r.(input := r.input[1..]);
        if read.FormatRead? {
          r := r.(checkPssh := true);
          i := i + 1;
          continue;
        }
        if read.EndOfStream? {
          r := r.(eos := true);
          return;
        }
        if read.NothingRead? {
          return;
        }
        if read.FailedRead? || read.frame.data == [] {
          i := i + 1;
          continue;
        }
        if read.frame.decodeOnly && (t.kind != Video || trick) {
          if !read.frame.sync {
            return;
          }
          continue;
        }
        r := r.(held := Some(read.frame));
        return;
      }
    }

    /** Tries to have a frame ready on every track; false if all tracks have ended. */
    method FillTrackSampleHolders(trick: bool) returns (more: bool)
      modifies this`tracks
      ensures tracks == FillAll(old(tracks), trick)
      ensures more == !AllSkipped(old(tracks))
    {
      var allEos := true;
      for k := 0 to |tracks|
        invariant |tracks| == |old(tracks)|
        invariant forall j :: 0 <= j < k ==> tracks[j] == FillTrack(old(tracks)[j], trick)
        invariant forall j :: k <= j < |tracks| ==> tracks[j] == old(tracks)[j]
        invariant allEos <==> forall j :: 0 <= j < k ==> Skipped(old(tracks)[j])
      {
        if tracks[k].eos || !tracks[k].active {
          continue;
        }
        allEos := false;
        if tracks[k].held.Some? {
          continue;
        }
        var t := ReadSample(tracks[k], trick);
        tracks := tracks[k := t];
      }
      more := !allEos;
    }

    /** The track whose frame is due; the reader's position follows the media time track. */
    method GetNextSampleTrack(c: Clock) returns (selected: Option<nat>)
      modifies this`readerPositionUs
      ensures selected == NextTrack(tracks, c)
      ensures readerPositionUs == if selected.Some? && selected == MediaTimeTrack(tracks, |tracks|)
                                  then tracks[selected.value].held.value.timeUs else old(readerPositionUs)
    {
      selected := None;
      var mediaTimeTrack: Option<nat> := None;
      for k := 0 to |tracks|
        invariant selected.Some? ==> selected.value < k && Eligible(tracks[selected.value], c)
        invariant NextTrack(tracks, c) == Scan(tracks, c, k, selected)
        invariant mediaTimeTrack == MediaTimeTrack(tracks, k)
      {
        var t := tracks[k];
        if t.eos || t.held.None? {
          continue;
        }
        if t.kind == Audio {
          mediaTimeTrack := Some(k);
        } else if t.kind == Video && mediaTimeTrack.None? {
          mediaTimeTrack := Some(k);
        }
        if t.kind == Captions && !c.ready {
          continue;
        }
        var timeUs := t.held.value.timeUs;
        var bestByTime := selected.Some? && Earlier(timeUs, tracks[selected.value].held.value.timeUs, c);
        var diff := timeUs - c.positionUs;
        var notTooFarAhead := if c.forward then diff <= c.aheadUs else diff >= c.aheadUs;
        if (selected.None? || bestByTime) && (!c.ready || notTooFarAhead) {
          selected := Some(k);
        }
      }
      if selected.Some? && selected == mediaTimeTrack {
        readerPositionUs := tracks[selected.value].held.value.timeUs;
      }
    }

    method CopyFrame(c: Clock, len: nat, licence: bool) returns (r: Result)
      requires Valid(Model())
      modifies this
      ensures (Model(), r) == FrameReading.CopyFrame(old(Model()), c, len, licence)
      ensures Valid(Model())
    {
      CopyKeepsValid(Model(), c, len, licence);
      if !buffering {
        return NotReady;
      }
      var first := false;
      if currentTrack.None? {
        var more := FillTrackSampleHolders(c.trick);
        if !more {
          assert tracks == old(tracks);
          buffering := false;
          return Ended;
        }
        currentTrack := GetNextSampleTrack(c);
        if currentTrack.None? {
          return NotReady;
        }
        var k := currentTrack.value;
        if NeedsLicence(tracks[k]) && !licence {
          return NoLicence;
        }
        tracks := tracks[k := Checked(tracks[k])];
        first := true;
      }
      r := DrainFrame(len, first);
    }

    /** Copies what fits of the current frame, and lets go of it once all of it is copied. */
    method DrainFrame(len: nat, first: bool) returns (r: Result)
      requires currentTrack.Some? && Copying(tracks, currentTrack.value, sampleHolderConsumed)
      modifies this`tracks, this`currentTrack, this`sampleHolderConsumed
      ensures (Model(), r) == Drain(old(Model()), len, first)
    {
      var k := currentTrack.value;
      var frame := tracks[k].held.value;
      var remaining := |frame.data| - sampleHolderConsumed;
      var count := if len < remaining then len else remaining;
      var bytes := frame.data[sampleHolderConsumed..sampleHolderConsumed + count];
      sampleHolderConsumed := sampleHolderConsumed + count;
      var last := count == remaining;
      if last {
        sampleHolderConsumed := 0;
        tracks := tracks[k := tracks[k].(held := None)];
        currentTrack := None;
      }
      r := Fragment(k, frame.timeUs, first, last, bytes, |frame.data|);
    }
  }
}
