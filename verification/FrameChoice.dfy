/**
 Which frame a call hands out and which frames are dropped, said on times, kinds and flags.
 Module `FrameReading` shows that what is accepted is delivered; here it is said what is
 accepted, when, and in which order across tracks.
 */
module FrameChoices {
  import opened Samples
  import opened FrameReading

  // ----- Filling --------------------------------------------------------------------

  /** A read that gives no frame and is tried again, so many times: a format, a failure, an empty sample. */
  predicate IsRetried(read: Read) {
    read.FormatRead? || read.FailedRead? || (read.SampleRead? && read.frame.data == [])
  }

  /** A frame only meant for decoding is not handed out, unless it is video at normal rate. */
  predicate IsUnwanted(kind: Kind, trick: bool, read: Read) {
    && read.SampleRead? && read.frame.data != [] && read.frame.decodeOnly
    && (kind == Audio || kind == Captions || trick)
  }

  /** The reads that are tried again among the first `n`. */
  function Retries(input: seq<Read>, n: nat): nat
    requires n <= |input|
  {
    if n == 0 then 0 else (if IsRetried(input[0]) then 1 else 0) + Retries(input[1..], n - 1)
  }

  /** The read does not end the filling: it is tried again, or drops an unwanted keyframe. */
  predicate Passes(kind: Kind, trick: bool, read: Read) {
    IsRetried(read) || (IsUnwanted(kind, trick, read) && read.frame.sync)
  }

  /** Filling takes reads up to the first one that does not pass, or until it has retried so many times or
      nothing is left. It holds the frame of that read if it is wanted, is at the end if that read
      says so, and has a new format if a read gave one. */
  lemma {:induction false} FillTakes(kind: Kind, trick: bool, input: seq<Read>, attempts: nat) returns (n: nat)
    ensures var r := Fill(kind, trick, input, attempts);
            && n <= |input| && r.input == input[n..]
            && (forall i :: 0 <= i < n - 1 ==> Passes(kind, trick, input[i]))
            && Retries(input, n) <= attempts
            && (Retries(input, n) == attempts || n == |input| || (n > 0 && !Passes(kind, trick, input[n - 1])))
            && (r.eos <==> n > 0 && input[n - 1].EndOfStream?)
            && (r.newFormat <==> exists i :: 0 <= i < n && input[i].FormatRead?)
            && (forall f :: r.held == Some(f) <==>
                              && n > 0 && input[n - 1] == SampleRead(f) && f.data != []
                              && !IsUnwanted(kind, trick, input[n - 1]))
    decreases |input|
  {
    if attempts == 0 || input == [] {
      return 0;
    }
    var next := GoesOn(kind, trick, input[0], attempts);
    if next.None? {
      n := 1;
      assert Retries(input[1..], 0) == 0;
      assert !Passes(kind, trick, input[0]);
    } else {
      var m := FillTakes(kind, trick, input[1..], next.value);
      n := m + 1;
      assert forall i :: 0 < i < n ==> input[i] == input[1..][i - 1];
      assert input[n..] == input[1..][m..];
    }
  }

  /** Filling a track that is active, not at its end and without a frame tries five times. */
  lemma FillsTracks(tracks: seq<Track>, trick: bool, k: nat)
    requires k < |tracks|
    ensures var t, u := tracks[k], FillAll(tracks, trick)[k];
            if t.eos || !t.active || t.held.Some? then u == t
            else
              var r := Fill(t.kind, trick, t.input, 5);
              && u.kind == t.kind && u.active && u.held == r.held && u.eos == r.eos && u.input == r.input
              && u.checkPssh == (t.checkPssh || r.newFormat)
  {
  }

  // ----- The frame that is due ------------------------------------------------------

  /** The track has a frame that may go out now: captions only once the media time is known, and then no
      frame that is too far ahead of it in the direction of play. */
  predicate MayGo(t: Track, c: Clock) {
    && !t.eos && t.held.Some?
    && (c.ready || t.kind != Captions)
    && (c.ready && c.forward ==> t.held.value.timeUs <= c.positionUs + c.aheadUs)
    && (c.ready && !c.forward ==> t.held.value.timeUs >= c.positionUs + c.aheadUs)
  }

  /** No other track may go first: playing forward none with an earlier frame, backward none with a later
      one, and among equals the first track. */
  ghost predicate GoesFirst(tracks: seq<Track>, c: Clock, k: nat) {
    && k < |tracks| && MayGo(tracks[k], c)
    && forall i :: 0 <= i < |tracks| && MayGo(tracks[i], c) ==>
                     var mine, other := tracks[k].held.value.timeUs, tracks[i].held.value.timeUs;
                     && (c.forward ==> mine <= other) && (!c.forward ==> mine >= other)
                     && (mine == other ==> k <= i)
  }

  lemma DueGoesFirst(tracks: seq<Track>, c: Clock)
    ensures var r := NextTrack(tracks, c);
            if r.Some? then GoesFirst(tracks, c, r.value) else forall i :: 0 <= i < |tracks| ==> !MayGo(tracks[i], c)
  {
    NextTrackIsDue(tracks, c);
    assert forall i :: 0 <= i < |tracks| ==> (Eligible(tracks[i], c) <==> MayGo(tracks[i], c));
  }

  /** A new frame: what a call that is not in the middle of one does. It ends if every track is at its end or
      inactive; else it fills the tracks, and begins the frame that goes first, if any may go. The
      licence is asked for exactly if the frame is encrypted and the track's format is new. */
  lemma BeginsFrameThatGoesFirst(s: Reader, c: Clock, len: nat, licence: bool)
    requires Valid(s) && s.buffering && s.current.None?
    ensures var (u, r) := CopyFrame(s, c, len, licence);
            var tracks := FillAll(s.tracks, c.trick);
            && (r.Ended? <==> forall i :: 0 <= i < |s.tracks| ==> s.tracks[i].eos || !s.tracks[i].active)
            && (r.Ended? <==> !u.buffering)
            && (r.NotReady? <==> !r.Ended? && forall i :: 0 <= i < |tracks| ==> !MayGo(tracks[i], c))
            && (r.Fragment? ==>
                  r.first && GoesFirst(tracks, c, r.track) && r.timeUs == tracks[r.track].held.value.timeUs)
            && (r.NoLicence? ==>
                  && u.current.Some? && GoesFirst(tracks, c, u.current.value) && !licence
                  && tracks[u.current.value].held.value.encrypted && tracks[u.current.value].checkPssh)
            && (r.Fragment? && tracks[r.track].held.value.encrypted && tracks[r.track].checkPssh ==>
                  licence && !u.tracks[r.track].checkPssh)
  {
    DueGoesFirst(FillAll(s.tracks, c.trick), c);
  }

  // ----- The media time -------------------------------------------------------------

  predicate HasFrame(t: Track, kind: Kind) {
    t.kind == kind && !t.eos && t.held.Some?
  }

  /** The media time follows the last audio track with a frame; if there is none, the first video track with
      one; captions never. */
  lemma {:induction false} MediaTimeTrackIs(tracks: seq<Track>, n: nat)
    requires n <= |tracks|
    ensures var r := MediaTimeTrack(tracks, n);
            if exists i :: 0 <= i < n && HasFrame(tracks[i], Audio) then
              && r.Some? && r.value < n && HasFrame(tracks[r.value], Audio)
              && forall i :: r.value < i < n ==> !HasFrame(tracks[i], Audio)
            else if exists i :: 0 <= i < n && HasFrame(tracks[i], Video) then
              && r.Some? && r.value < n && HasFrame(tracks[r.value], Video)
              && forall i :: 0 <= i < r.value ==> !HasFrame(tracks[i], Video)
            else r.None?
  {
    if n > 0 {
      MediaTimeTrackIs(tracks, n - 1);
    }
  }
}
