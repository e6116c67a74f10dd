/**
 Handing frames to the player. Every track keeps the next frame ready; the frame that is due
 is copied out in pieces of whatever size the player has room for. For any sequence of calls
 the pieces reassemble to the accepted frames: none lost, none twice, each track in order.
 */
module FrameReading {
  import opened Samples

  type Byte = x: int | 0 <= x < 256

  datatype Frame = Frame(timeUs: int, data: seq<Byte>, sync: bool, decodeOnly: bool, encrypted: bool)

  /** What one attempt to read from a track gives. */
  datatype Read =
    | FormatRead
    | EndOfStream
    | NothingRead
    | FailedRead
    | SampleRead(frame: Frame)

  datatype Kind = Video | Audio | Captions

  /** A track: the frame it holds ready, and everything reading from it will still give. */
  datatype Track = Track(kind: Kind, active: bool, eos: bool, held: Option<Frame>, input: seq<Read>, checkPssh: bool)

  const MAX_READ_ATTEMPTS := 5

  // ----- Keeping a frame ready ------------------------------------------------------

  /** Frames that are only there to be decoded are thrown away, except for video at normal rate. */
  predicate ThrownAway(kind: Kind, trick: bool, f: Frame) {
    f.decodeOnly && (kind != Video || trick)
  }

  datatype Filled = Filled(input: seq<Read>, held: Option<Frame>, eos: bool, newFormat: bool)

  /** The attempts left after a read that does not end the filling. */
  function GoesOn(kind: Kind, trick: bool, read: Read, attempts: nat): Option<nat>
    requires attempts > 0
  {
    match read
    case FormatRead | FailedRead => Some(attempts - 1)
    case EndOfStream | NothingRead => None
    case SampleRead(f) =>
      if f.data == [] then Some(attempts - 1) else if ThrownAway(kind, trick, f) && f.sync then Some(attempts) else None
  }

  /** Reading until there is a frame, at most so many times; throwing a frame away does not count. */
  function Fill(kind: Kind, trick: bool, input: seq<Read>, attempts: nat): Filled
    decreases |input|
  {
    if attempts == 0 || input == [] then Filled(input, None, false, false)
    else
      match GoesOn(kind, trick, input[0], attempts)
      case Some(left) =>
        var r := Fill(kind, trick, input[1..], left);
        if input[0].FormatRead? then r.(newFormat := true) else r
      case None => Filled(input[1..], Taken(kind, trick, input[0]), input[0].EndOfStream?, false)
  }

  /** The frame that ends the filling; a frame to be thrown away that others depend on ends it
      without one. */
  function Taken(kind: Kind, trick: bool, read: Read): Option<Frame> {
    if read.SampleRead? && !ThrownAway(kind, trick, read.frame) then Some(read.frame) else None
  }

  predicate Skipped(t: Track) {
    t.eos || !t.active
  }

  function FillTrack(t: Track, trick: bool): Track {
    if Skipped(t) || t.held.Some? then t
    else
      var r := Fill(t.kind, trick, t.input, MAX_READ_ATTEMPTS);
      t.(input := r.input, held := r.held, eos := r.eos, checkPssh := t.checkPssh || r.newFormat)
  }

  function FillAll(tracks: seq<Track>, trick: bool): (r: seq<Track>)
    ensures |r| == |tracks|
    ensures forall i :: 0 <= i < |tracks| ==> r[i] == FillTrack(tracks[i], trick)
  {
    seq(|tracks|, i requires 0 <= i < |tracks| => FillTrack(tracks[i], trick))
  }

  predicate AllSkipped(tracks: seq<Track>) {
    forall i :: 0 <= i < |tracks| ==> Skipped(tracks[i])
  }

  // ----- The frame that is due ------------------------------------------------------

  /** What the player's clock says at a call: the direction, the rate kind, the media time if known,
      and how far ahead of it frames may be handed out. */
  datatype Clock = Clock(forward: bool, trick: bool, ready: bool, positionUs: int, aheadUs: int)

  predicate Eligible(t: Track, c: Clock) {
    && !t.eos && t.held.Some?
    && (t.kind == Captions ==> c.ready)
    && (c.ready ==>
          var diff := t.held.value.timeUs - c.positionUs;
          if c.forward then diff <= c.aheadUs else diff >= c.aheadUs)
  }

  predicate Earlier(a: int, b: int, c: Clock) {
    if c.forward then a < b else a > b
  }

  /** The track whose frame is due: the first of those with the best time. */
  ghost predicate IsDue(tracks: seq<Track>, c: Clock, k: nat) {
    && k < |tracks| && Eligible(tracks[k], c)
    && (forall i :: 0 <= i < |tracks| && Eligible(tracks[i], c) ==>
          !Earlier(tracks[i].held.value.timeUs, tracks[k].held.value.timeUs, c))
    && (forall i :: 0 <= i < k && Eligible(tracks[i], c) ==>
          Earlier(tracks[k].held.value.timeUs, tracks[i].held.value.timeUs, c))
  }

  /** Scanning the tracks from the `i`-th on, with the best one so far. */
  function Scan(tracks: seq<Track>, c: Clock, i: nat, best: Option<nat>): (r: Option<nat>)
    requires i <= |tracks| && (best.Some? ==> best.value < i && Eligible(tracks[best.value], c))
    ensures r.Some? ==> r.value < |tracks| && Eligible(tracks[r.value], c)
    decreases |tracks| - i
  {
    if i == |tracks| then best
    else if Eligible(tracks[i], c) &&
            (best.None? || Earlier(tracks[i].held.value.timeUs, tracks[best.value].held.value.timeUs, c))
    then Scan(tracks, c, i + 1, Some(i))
    else Scan(tracks, c, i + 1, best)
  }

  /** The track that the media time follows, from the first `n`: the last audio track with a frame,
      else the first video track with one. */
  function MediaTimeTrack(tracks: seq<Track>, n: nat): Option<nat>
    requires n <= |tracks|
  {
    if n == 0 then None
    else
      var before := MediaTimeTrack(tracks, n - 1);
      var t := tracks[n - 1];
      if t.eos || t.held.None? then before
      else if t.kind == Audio || (t.kind == Video && before.None?) then Some(n - 1)
      else before
  }

  function NextTrack(tracks: seq<Track>, c: Clock): Option<nat> {
    Scan(tracks, c, 0, None)
  }

  lemma {:induction false} ScanFindsDue(tracks: seq<Track>, c: Clock, i: nat, best: Option<nat>)
    requires i <= |tracks| && (best.Some? ==> best.value < i && Eligible(tracks[best.value], c))
    requires if best.Some? then IsDue(tracks[..i], c, best.value)
             else forall j :: 0 <= j < i ==> !Eligible(tracks[j], c)
    ensures var r := Scan(tracks, c, i, best);
            if r.Some? then IsDue(tracks, c, r.value) else forall j :: 0 <= j < |tracks| ==> !Eligible(tracks[j], c)
    decreases |tracks| - i
  {
    if i == |tracks| {
      assert tracks[..i] == tracks;
    } else {
      assert forall j :: 0 <= j < i ==> tracks[..i + 1][j] == tracks[..i][j];
      assert tracks[..i + 1][i] == tracks[i];
      if Eligible(tracks[i], c) &&
         (best.None? || Earlier(tracks[i].held.value.timeUs, tracks[best.value].held.value.timeUs, c)) {
        ScanFindsDue(tracks, c, i + 1, Some(i));
      } else {
        ScanFindsDue(tracks, c, i + 1, best);
      }
    }
  }

  /** A track is chosen exactly when one is eligible, and then it is the one that is due. */
  lemma NextTrackIsDue(tracks: seq<Track>, c: Clock)
    ensures var r := NextTrack(tracks, c);
            if r.Some? then IsDue(tracks, c, r.value) else forall j :: 0 <= j < |tracks| ==> !Eligible(tracks[j], c)
  {
    ScanFindsDue(tracks, c, 0, None);
  }

  // ----- Copying a frame out --------------------------------------------------------

  datatype Reader = Reader(tracks: seq<Track>, current: Option<nat>, consumed: nat, buffering: bool)

  datatype Result =
    | NotReady
    | Ended
    | NoLicence
    | Fragment(track: nat, timeUs: int, first: bool, last: bool, bytes: seq<Byte>, frameLen: nat)

  /** A frame being copied is a held one; between frames nothing has been consumed. */
  predicate Valid(s: Reader) {
    if s.current.Some? then Copying(s.tracks, s.current.value, s.consumed) else s.consumed == 0
  }

  predicate Copying(tracks: seq<Track>, k: nat, consumed: nat) {
    k < |tracks| && tracks[k].held.Some? && consumed <= |tracks[k].held.value.data|
  }

  /** Whether the track's licence has to be checked before its frame goes out. */
  predicate NeedsLicence(t: Track) {
    t.held.Some? && t.held.value.encrypted && t.checkPssh
  }

  /** The next piece of the frame being copied. */
  function Drain(s: Reader, len: nat, first: bool): (Reader, Result)
    requires s.current.Some? && Copying(s.tracks, s.current.value, s.consumed)
  {
    var k := s.current.value;
    var frame := s.tracks[k].held.value;
    var left := |frame.data| - s.consumed;
    var n := if len < left then len else left;
    var bytes := frame.data[s.consumed..s.consumed + n];
    if n == left then
      (s.(tracks := s.tracks[k := s.tracks[k].(held := None)], current := None, consumed := 0),
       Fragment(k, frame.timeUs, first, true, bytes, |frame.data|))
    else (s.(consumed := s.consumed + n), Fragment(k, frame.timeUs, first, false, bytes, |frame.data|))
  }

  /** The licence of the track to begin with is there if it is needed; then it need not be checked
      again. */
  function Checked(t: Track): Track {
    if NeedsLicence(t) then t.(checkPssh := false) else t
  }

  /** The first piece of the frame of track `k`, unless its licence is refused. */
  function Begin(s: Reader, k: nat, len: nat, licence: bool): (Reader, Result)
    requires k < |s.tracks| && s.tracks[k].held.Some? && s.consumed == 0
  {
    var s1 := s.(current := Some(k));
    if NeedsLicence(s.tracks[k]) && !licence then (s1, NoLicence)
    else Drain(s1.(tracks := s.tracks[k := Checked(s.tracks[k])]), len, true)
  }

  /** One call of the player, with room for `len` bytes; `licence` is the answer if a licence has to
      be checked. */
  function CopyFrame(s: Reader, c: Clock, len: nat, licence: bool): (Reader, Result)
    requires Valid(s)
  {
    if !s.buffering then (s, NotReady)
    else if s.current.Some? then Drain(s, len, false)
    else if AllSkipped(s.tracks) then (s.(buffering := false), Ended)
    else
      var s1 := s.(tracks := FillAll(s.tracks, c.trick));
      match NextTrack(s1.tracks, c)
      case None => (s1, NotReady)
      case Some(k) => Begin(s1, k, len, licence)
  }

  // ----- The player's side ----------------------------------------------------------

  /** A frame as the player sees it. */
  datatype Delivery = Delivery(track: nat, timeUs: int, bytes: seq<Byte>)

  /** What the player has put together: whole frames, the frame it is in the middle of, and whether
      every fragment so far came where it could. */
  datatype Assembly = Assembly(frames: seq<Delivery>, partial: Option<Delivery>, ok: bool)

  function Receive(a: Assembly, r: Result): Assembly {
    match r
    case NotReady | Ended | NoLicence => a
    case Fragment(k, timeUs, first, last, bytes, _) =>
      if first != a.partial.None? then a.(ok := false)
      else
        var d := if first then Delivery(k, timeUs, bytes) else a.partial.value.(bytes := a.partial.value.bytes + bytes);
        if last then a.(frames := a.frames + [d], partial := None) else a.(partial := Some(d))
  }

  /** The frames delivered from one track. */
  function From(frames: seq<Delivery>, k: nat): seq<Delivery> {
    if frames == [] then []
    else From(frames[..|frames| - 1], k) + if frames[|frames| - 1].track == k then [frames[|frames| - 1]] else []
  }

  /** What is accepted of one read: a frame that holds data and is not thrown away. */
  function AcceptedOne(kind: Kind, trick: bool, read: Read, k: nat): seq<Delivery> {
    if read.SampleRead? && read.frame.data != [] && !ThrownAway(kind, trick, read.frame)
    then [Delivery(k, read.frame.timeUs, read.frame.data)] else []
  }

  function Accepted(kind: Kind, trick: bool, seen: seq<Read>, k: nat): seq<Delivery> {
    if seen == [] then [] else AcceptedOne(kind, trick, seen[0], k) + Accepted(kind, trick, seen[1..], k)
  }

  lemma AcceptedCons(kind: Kind, trick: bool, read: Read, seen: seq<Read>, k: nat)
    ensures Accepted(kind, trick, [read] + seen, k) ==
            AcceptedOne(kind, trick, read, k) + Accepted(kind, trick, seen, k)
  {
    assert ([read] + seen)[1..] == seen;
  }

  lemma ConcatIsAssociative(a: seq<Delivery>, b: seq<Delivery>, c: seq<Delivery>)
    ensures a + (b + c) == (a + b) + c
  {
  }

  lemma {:induction false} AcceptedConcat(kind: Kind, trick: bool, a: seq<Read>, b: seq<Read>, k: nat)
    ensures Accepted(kind, trick, a + b, k) == Accepted(kind, trick, a, k) + Accepted(kind, trick, b, k)
  {
    if a == [] {
      assert a + b == b;
    } else {
      AcceptedConcat(kind, trick, a[1..], b, k);
      assert a + b == [a[0]] + (a[1..] + b);
      AcceptedCons(kind, trick, a[0], a[1..] + b, k);
      ConcatIsAssociative(AcceptedOne(kind, trick, a[0], k), Accepted(kind, trick, a[1..], k),
                          Accepted(kind, trick, b, k));
    }
  }

  function Whole(held: Option<Frame>, k: nat): seq<Delivery> {
    match held
    case None => []
    case Some(f) => [Delivery(k, f.timeUs, f.data)]
  }

  /** Filling takes `n` reads, of which it accepts the frame it then holds and nothing else. */
  lemma {:induction false} FillAccepts(kind: Kind, trick: bool, input: seq<Read>, attempts: nat, k: nat)
    returns (n: nat)
    ensures var r := Fill(kind, trick, input, attempts);
            && n <= |input| && r.input == input[n..]
            && Accepted(kind, trick, input[..n], k) == Whole(r.held, k)
            && (r.held.Some? ==> r.held.value.data != [] && !r.eos)
    decreases |input|
  {
    if attempts == 0 || input == [] {
      return 0;
    }
    ReadAccepts(kind, trick, input[0], attempts, k);
    var next := GoesOn(kind, trick, input[0], attempts);
    if next.None? {
      AcceptedPrefix(kind, trick, input, 0, k);
      return 1;
    }
    n := FillAccepts(kind, trick, input[1..], next.value, k);
    AcceptedPrefix(kind, trick, input, n, k);
    FillGoesOn(kind, trick, input, attempts);
    n := n + 1;
  }

  lemma FillGoesOn(kind: Kind, trick: bool, input: seq<Read>, attempts: nat)
    requires attempts > 0 && input != [] && GoesOn(kind, trick, input[0], attempts).Some?
    ensures var r := Fill(kind, trick, input, attempts);
            var rest := Fill(kind, trick, input[1..], GoesOn(kind, trick, input[0], attempts).value);
            r.input == rest.input && r.held == rest.held && r.eos == rest.eos
  {
  }

  /** A read that does not end the filling is not accepted; one that does is, if it gives a frame. */
  lemma ReadAccepts(kind: Kind, trick: bool, read: Read, attempts: nat, k: nat)
    requires attempts > 0
    ensures GoesOn(kind, trick, read, attempts).Some? ==> AcceptedOne(kind, trick, read, k) == []
    ensures GoesOn(kind, trick, read, attempts).None? ==>
              var taken := Taken(kind, trick, read);
              && AcceptedOne(kind, trick, read, k) == Whole(taken, k)
              && (taken.Some? ==> taken.value.data != [] && !read.EndOfStream?)
  {
  }

  lemma AcceptedPrefix(kind: Kind, trick: bool, input: seq<Read>, n: nat, k: nat)
    requires n < |input|
    ensures input[1..][n..] == input[n + 1..]
    ensures AcceptedOne(kind, trick, input[0], k) == [] ==>
              Accepted(kind, trick, input[..n + 1], k) == Accepted(kind, trick, input[1..][..n], k)
    ensures n == 0 ==> Accepted(kind, trick, input[..1], k) == AcceptedOne(kind, trick, input[0], k)
  {
    assert input[..n + 1] == [input[0]] + input[1..][..n];
    AcceptedCons(kind, trick, input[0], input[1..][..n], k);
  }

  // ----- Conservation ---------------------------------------------------------------

  /** All a track has read, accepted as it was, is what was delivered and what is held. */
  ghost predicate TrackKept(t0: Track, t: Track, trick: bool, delivered: seq<Delivery>, k: nat) {
    && t.kind == t0.kind
    && IsLeft(t0.input, t.input)
    && Accepted(t0.kind, trick, t0.input[..|t0.input| - |t.input|], k) == delivered + Whole(t.held, k)
    && (t.held.Some? ==> t.held.value.data != [] && !t.eos)
  }

  ghost predicate Kept(start: seq<Track>, s: Reader, trick: bool, frames: seq<Delivery>) {
    && |s.tracks| == |start|
    && forall k :: 0 <= k < |start| ==> TrackKept(start[k], s.tracks[k], trick, From(frames, k), k)
  }

  /** The player is in the middle of a frame exactly when one is being copied, with what has been
      consumed of it. */
  ghost predicate InStep(s: Reader, a: Assembly) {
    && a.ok && Valid(s)
    && match s.current
       case None => a.partial.None?
       case Some(k) =>
         var f := s.tracks[k].held.value;
         s.consumed < |f.data| && a.partial == Some(Delivery(k, f.timeUs, f.data[..s.consumed]))
  }

  ghost predicate Inv(start: seq<Track>, s: Reader, trick: bool, a: Assembly) {
    Kept(start, s, trick, a.frames) && InStep(s, a)
  }

  /** `b` is what is left of `a`. */
  ghost predicate IsLeft(a: seq<Read>, b: seq<Read>) {
    |b| <= |a| && b == a[|a| - |b|..]
  }

  lemma LeftOfLeft(a: seq<Read>, b: seq<Read>, c: seq<Read>)
    requires IsLeft(a, b) && IsLeft(b, c)
    ensures IsLeft(a, c)
    ensures a[..|a| - |c|] == a[..|a| - |b|] + b[..|b| - |c|]
  {
  }

  /** What is accepted of the reads gone from `a` to `c`, by way of `b`. */
  lemma AcceptedAfter(kind: Kind, trick: bool, a: seq<Read>, b: seq<Read>, c: seq<Read>, k: nat)
    requires IsLeft(a, b) && IsLeft(b, c)
    ensures Accepted(kind, trick, a[..|a| - |c|], k) ==
            Accepted(kind, trick, a[..|a| - |b|], k) + Accepted(kind, trick, b[..|b| - |c|], k)
  {
    LeftOfLeft(a, b, c);
    AcceptedConcat(kind, trick, a[..|a| - |b|], b[..|b| - |c|], k);
  }

  lemma FillTrackKeeps(t0: Track, t: Track, trick: bool, delivered: seq<Delivery>, k: nat)
    requires TrackKept(t0, t, trick, delivered, k)
    ensures TrackKept(t0, FillTrack(t, trick), trick, delivered, k)
  {
    if !Skipped(t) && t.held.None? {
      var n := FillAccepts(t.kind, trick, t.input, MAX_READ_ATTEMPTS, k);
      assert n == |t.input| - |FillTrack(t, trick).input|;
      ReadingKeepsTrack(t0, t, FillTrack(t, trick), trick, delivered, k);
    }
  }

  lemma ReadingKeepsTrack(t0: Track, t: Track, u: Track, trick: bool, delivered: seq<Delivery>, k: nat)
    requires TrackKept(t0, t, trick, delivered, k) && t.held.None? && u.kind == t.kind && IsLeft(t.input, u.input)
    requires Accepted(t.kind, trick, t.input[..|t.input| - |u.input|], k) == Whole(u.held, k)
    requires u.held.Some? ==> u.held.value.data != [] && !u.eos
    ensures TrackKept(t0, u, trick, delivered, k)
  {
    LeftOfLeft(t0.input, t.input, u.input);
    AcceptedAfter(t.kind, trick, t0.input, t.input, u.input, k);
    AppendNothing(delivered);
  }

  lemma FillKeeps(start: seq<Track>, s: Reader, trick: bool, frames: seq<Delivery>)
    requires Kept(start, s, trick, frames)
    ensures Kept(start, s.(tracks := FillAll(s.tracks, trick)), trick, frames)
  {
    forall k | 0 <= k < |start|
      ensures TrackKept(start[k], FillAll(s.tracks, trick)[k], trick, From(frames, k), k)
    {
      FillTrackKeeps(start[k], s.tracks[k], trick, From(frames, k), k);
    }
  }

  lemma FromAppend(frames: seq<Delivery>, d: Delivery, k: nat)
    ensures From(frames + [d], k) == From(frames, k) + if d.track == k then [d] else []
  {
    assert (frames + [d])[..|frames|] == frames;
  }

  /** Handing out the next piece, the first one or a later one, keeps player and reader in step. */
  lemma DrainKeepsInv(start: seq<Track>, s: Reader, trick: bool, a: Assembly, len: nat, first: bool)
    requires Kept(start, s, trick, a.frames) && a.ok
    requires s.current.Some? && Copying(s.tracks, s.current.value, s.consumed)
    requires if first then s.consumed == 0 && a.partial.None? else InStep(s, a)
    ensures var (u, r) := Drain(s, len, first); Inv(start, u, trick, Receive(a, r))
  {
    var k := s.current.value;
    var frame := s.tracks[k].held.value;
    var (u, r) := Drain(s, len, first);
    assert TrackKept(start[k], s.tracks[k], trick, From(a.frames, k), k);
    assert r.bytes == frame.data[s.consumed..s.consumed + |r.bytes|];
    assert frame.data[..s.consumed] + r.bytes == frame.data[..s.consumed + |r.bytes|];
    if r.last {
      assert frame.data[..s.consumed + |r.bytes|] == frame.data;
      DeliveryKeeps(start, s, trick, a.frames, k);
    }
  }

  lemma DeliveryKeeps(start: seq<Track>, s: Reader, trick: bool, frames: seq<Delivery>, k: nat)
    requires Kept(start, s, trick, frames) && k < |s.tracks| && s.tracks[k].held.Some?
    ensures var f := s.tracks[k].held.value;
            var u := s.(tracks := s.tracks[k := s.tracks[k].(held := None)], current := None, consumed := 0);
            Kept(start, u, trick, frames + [Delivery(k, f.timeUs, f.data)])
  {
    var f := s.tracks[k].held.value;
    var d := Delivery(k, f.timeUs, f.data);
    forall j | 0 <= j < |start|
      ensures TrackKept(start[j], if j == k then s.tracks[k].(held := None) else s.tracks[j], trick,
                        From(frames + [d], j), j)
    {
      FromAppend(frames, d, j);
      DeliveryKeepsTrack(start[j], s.tracks[j], trick, From(frames, j), j, d);
    }
  }

  lemma AppendNothing(a: seq<Delivery>)
    ensures a + [] == a
  {
  }

  lemma DeliveryKeepsTrack(t0: Track, t: Track, trick: bool, delivered: seq<Delivery>, j: nat, d: Delivery)
    requires TrackKept(t0, t, trick, delivered, j)
    requires d.track == j ==> Whole(t.held, j) == [d]
    ensures d.track == j ==> TrackKept(t0, t.(held := None), trick, delivered + [d], j)
    ensures d.track != j ==> TrackKept(t0, t, trick, delivered + [], j)
  {
    AppendNothing(delivered + [d]);
    AppendNothing(delivered);
  }

  lemma CheckedKeepsTrack(t0: Track, t: Track, trick: bool, delivered: seq<Delivery>, j: nat)
    requires TrackKept(t0, t, trick, delivered, j)
    ensures TrackKept(t0, Checked(t), trick, delivered, j)
  {
  }

  lemma BeginKeepsInv(start: seq<Track>, s: Reader, trick: bool, a: Assembly, k: nat, len: nat)
    requires Kept(start, s, trick, a.frames) && a.ok && a.partial.None? && s.consumed == 0
    requires k < |s.tracks| && s.tracks[k].held.Some?
    ensures var (u, r) := Begin(s, k, len, true); Inv(start, u, trick, Receive(a, r))
  {
    var s1 := s.(current := Some(k), tracks := s.tracks[k := Checked(s.tracks[k])]);
    forall j | 0 <= j < |start|
      ensures TrackKept(start[j], s1.tracks[j], trick, From(a.frames, j), j)
    {
      CheckedKeepsTrack(start[j], s.tracks[j], trick, From(a.frames, j), j);
    }
    DrainKeepsInv(start, s1, trick, a, len, true);
  }

  /** One call with a licence keeps the invariant. */
  lemma CopyKeepsInv(start: seq<Track>, s: Reader, a: Assembly, c: Clock, len: nat)
    requires Inv(start, s, c.trick, a)
    ensures var (u, r) := CopyFrame(s, c, len, true); Inv(start, u, c.trick, Receive(a, r))
  {
    if s.buffering {
      if s.current.Some? {
        DrainKeepsInv(start, s, c.trick, a, len, false);
      } else if !AllSkipped(s.tracks) {
        FillKeeps(start, s, c.trick, a.frames);
        var s1 := s.(tracks := FillAll(s.tracks, c.trick));
        var next := NextTrack(s1.tracks, c);
        if next.Some? {
          BeginKeepsInv(start, s1, c.trick, a, next.value, len);
        }
      }
    }
  }

  // ----- Runs -----------------------------------------------------------------------

  /** A call: the clock, the room, and whether a licence that has to be checked is there. */
  datatype Call = Call(clock: Clock, len: nat, licence: bool)

  /** The call is about to begin a frame whose licence has to be checked and is not there. */
  predicate Refuses(s: Reader, call: Call) {
    && s.buffering && s.current.None? && !AllSkipped(s.tracks) && !call.licence
    && var tracks := FillAll(s.tracks, call.clock.trick);
       var due := NextTrack(tracks, call.clock);
       due.Some? && NeedsLicence(tracks[due.value])
  }

  /** No call comes after one that refused a frame. */
  predicate StopsWhenRefused(s: Reader, calls: seq<Call>)
    requires Valid(s)
    decreases |calls|
  {
    |calls| <= 1 ||
    (&& !Refuses(s, calls[0])
     && (CopyKeepsValid(s, calls[0].clock, calls[0].len, calls[0].licence);
         StopsWhenRefused(CopyFrame(s, calls[0].clock, calls[0].len, calls[0].licence).0, calls[1..])))
  }

  /** The reader and the player after a sequence of calls. */
  function Play(s: Reader, a: Assembly, calls: seq<Call>): (Reader, Assembly)
    requires Valid(s)
    decreases |calls|
  {
    if calls == [] then (s, a)
    else
      var (u, r) := CopyFrame(s, calls[0].clock, calls[0].len, calls[0].licence);
      CopyKeepsValid(s, calls[0].clock, calls[0].len, calls[0].licence);
      Play(u, Receive(a, r), calls[1..])
  }

  lemma CopyKeepsValid(s: Reader, c: Clock, len: nat, licence: bool)
    requires Valid(s)
    ensures Valid(CopyFrame(s, c, len, licence).0)
  {
  }

  /** Only a refused frame makes the answer about the licence matter. */
  lemma RefusesIff(s: Reader, call: Call)
    requires Valid(s)
    ensures Refuses(s, call) <==> CopyFrame(s, call.clock, call.len, call.licence).1.NoLicence?
    ensures !Refuses(s, call) ==>
              CopyFrame(s, call.clock, call.len, call.licence) == CopyFrame(s, call.clock, call.len, true)
  {
  }

  /** The reader holds on to a refused frame, of which the player knows nothing. */
  ghost predicate Stuck(s: Reader, a: Assembly) {
    Valid(s) && s.buffering && s.current.Some? && a.partial.None?
  }

  ghost predicate Sound(start: seq<Track>, s: Reader, trick: bool, a: Assembly) {
    a.ok && Kept(start, s, trick, a.frames) && (InStep(s, a) || Stuck(s, a))
  }

  lemma RefusedGetsStuck(start: seq<Track>, s: Reader, a: Assembly, call: Call)
    requires Inv(start, s, call.clock.trick, a) && Refuses(s, call)
    ensures var (u, r) := CopyFrame(s, call.clock, call.len, call.licence);
            Receive(a, r) == a && Stuck(u, a) && Sound(start, u, call.clock.trick, a)
  {
    FillKeeps(start, s, call.clock.trick, a.frames);
  }

  /** Any call keeps player and reader in step if and only if it does not refuse a frame; then too every
      track's frames are accounted for, but the reader is stuck with the refused one. */
  lemma CallKeepsInvIff(start: seq<Track>, s: Reader, a: Assembly, call: Call)
    requires Inv(start, s, call.clock.trick, a)
    ensures var (u, r) := CopyFrame(s, call.clock, call.len, call.licence);
            var b := Receive(a, r);
            && (Inv(start, u, call.clock.trick, b) <==> !Refuses(s, call))
            && (Refuses(s, call) ==> b == a && Stuck(u, a) && Sound(start, u, call.clock.trick, a))
  {
    RefusesIff(s, call);
    if Refuses(s, call) {
      RefusedGetsStuck(start, s, a, call);
    } else {
      CopyKeepsInv(start, s, a, call.clock, call.len);
    }
  }

  /** A fragment of a frame that never began. */
  lemma StuckBreaks(s: Reader, a: Assembly, call: Call)
    requires Stuck(s, a)
    ensures !Receive(a, CopyFrame(s, call.clock, call.len, call.licence).1).ok
  {
  }

  lemma {:induction false} BrokenStaysBroken(s: Reader, a: Assembly, calls: seq<Call>)
    requires Valid(s) && !a.ok
    ensures !Play(s, a, calls).1.ok
    decreases |calls|
  {
    if calls != [] {
      var (u, r) := CopyFrame(s, calls[0].clock, calls[0].len, calls[0].licence);
      CopyKeepsValid(s, calls[0].clock, calls[0].len, calls[0].licence);
      BrokenStaysBroken(u, Receive(a, r), calls[1..]);
    }
  }

  /** For any sequence of calls with any room and any licences, between rate changes: flags come in
      pairs around every frame, with the bytes of exactly one accepted frame between them, if and
      only if no call comes after one that refused a frame. As long as that holds, the frames
      delivered from a track, with the one held, are the frames accepted so far, in order. */
  lemma {:induction false} PlayIsSoundIff(start: seq<Track>, s: Reader, trick: bool, a: Assembly, calls: seq<Call>)
    requires Inv(start, s, trick, a)
    requires forall i :: 0 <= i < |calls| ==> calls[i].clock.trick == trick
    ensures var (u, b) := Play(s, a, calls);
            && (b.ok <==> StopsWhenRefused(s, calls))
            && (b.ok ==> Sound(start, u, trick, b) && a.frames <= b.frames)
    decreases |calls|
  {
    if calls != [] {
      var call := calls[0];
      var (u, r) := CopyFrame(s, call.clock, call.len, call.licence);
      var b := Receive(a, r);
      CopyKeepsValid(s, call.clock, call.len, call.licence);
      assert Play(s, a, calls) == Play(u, b, calls[1..]);
      CallKeepsInvIff(start, s, a, call);
      if Refuses(s, call) {
        if |calls| > 1 {
          NextBreaks(u, a, calls[1..]);
        }
      } else {
        ReceiveExtends(a, r);
        PlayIsSoundIff(start, u, trick, b, calls[1..]);
      }
    }
  }

  lemma ReceiveExtends(a: Assembly, r: Result)
    ensures a.frames <= Receive(a, r).frames
  {
  }

  lemma NextBreaks(s: Reader, a: Assembly, calls: seq<Call>)
    requires Stuck(s, a) && calls != []
    ensures !Play(s, a, calls).1.ok
  {
    var (u, r) := CopyFrame(s, calls[0].clock, calls[0].len, calls[0].licence);
    StuckBreaks(s, a, calls[0]);
    CopyKeepsValid(s, calls[0].clock, calls[0].len, calls[0].licence);
    BrokenStaysBroken(u, Receive(a, r), calls[1..]);
  }

  /** When every licence that is checked is there, player and reader stay in step. */
  lemma {:induction false} PlayDeliversAccepted(start: seq<Track>, s: Reader, trick: bool, a: Assembly,
                                                calls: seq<Call>)
    requires Inv(start, s, trick, a)
    requires forall i :: 0 <= i < |calls| ==> calls[i].clock.trick == trick && calls[i].licence
    ensures var (u, b) := Play(s, a, calls);
            Inv(start, u, trick, b) && a.frames <= b.frames
    decreases |calls|
  {
    if calls != [] {
      var call := calls[0];
      var (u, r) := CopyFrame(s, call.clock, call.len, call.licence);
      var b := Receive(a, r);
      CopyKeepsInv(start, s, a, call.clock, call.len);
      CopyKeepsValid(s, call.clock, call.len, call.licence);
      ReceiveExtends(a, r);
      assert Play(s, a, calls) == Play(u, b, calls[1..]);
      PlayDeliversAccepted(start, u, trick, b, calls[1..]);
    }
  }

  lemma StartIsInv(start: seq<Track>, trick: bool)
    requires forall k :: 0 <= k < |start| ==> start[k].held.None?
    ensures Inv(start, Reader(start, None, 0, true), trick, Assembly([], None, true))
  {
    forall k | 0 <= k < |start|
      ensures TrackKept(start[k], start[k], trick, From([], k), k)
    {
      assert start[k].input[0..] == start[k].input;
    }
  }

  /** When playback ends, every frame accepted from an active track has been delivered. */
  lemma EndDeliversEverything(start: seq<Track>, s: Reader, a: Assembly, c: Clock, len: nat, k: nat)
    requires Inv(start, s, c.trick, a) && CopyFrame(s, c, len, true).1.Ended?
    requires k < |start| && s.tracks[k].active
    ensures Accepted(start[k].kind, c.trick, start[k].input[..|start[k].input| - |s.tracks[k].input|], k) ==
            From(a.frames, k)
  {
    assert TrackKept(start[k], s.tracks[k], c.trick, From(a.frames, k), k) && Skipped(s.tracks[k]);
  }

  /** A call without room consumes nothing. In the middle of a frame it changes nothing at all; where
      a frame is due it begins that frame, so that the first flag goes out without a byte. */
  lemma NoRoomConsumesNothing(start: seq<Track>, s: Reader, a: Assembly, c: Clock)
    requires Inv(start, s, c.trick, a) && CopyFrame(s, c, 0, true).1.Fragment?
    ensures var (u, r) := CopyFrame(s, c, 0, true);
            && r.bytes == [] && !r.last && (r.first <==> s.current.None?)
            && u.consumed == s.consumed && u.current == Some(r.track) && Receive(a, r).frames == a.frames
            && (s.current.Some? ==> u == s)
            && (s.current.None? ==>
                  && r.track < |u.tracks| == |s.tracks|
                  && u.tracks[r.track].held == FillTrack(s.tracks[r.track], c.trick).held)
  {
    if s.current.None? {
      FillKeeps(start, s, c.trick, a.frames);
      var tracks := FillAll(s.tracks, c.trick);
      var k := NextTrack(tracks, c).value;
      assert TrackKept(start[k], tracks[k], c.trick, From(a.frames, k), k);
    }
  }

  /** A refused licence does not drop the frame: the next call hands it out, with no first flag. */
  lemma RefusedFrameIsHandedOut(s: Reader, c: Clock, len: nat, d: Clock, room: nat)
    requires Valid(s) && CopyFrame(s, c, len, false).1.NoLicence?
    ensures var u := CopyFrame(s, c, len, false).0;
            Valid(u) && u.buffering && u.current.Some? && u.tracks[u.current.value].held.Some? &&
            var r := CopyFrame(u, d, room, true).1;
            && r.Fragment? && !r.first && r.track == u.current.value
            && r.bytes <= u.tracks[u.current.value].held.value.data
            && (room >= r.frameLen ==> r.bytes == u.tracks[u.current.value].held.value.data && r.last)
  {
  }
}
