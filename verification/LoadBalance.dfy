/**
 What the load control is for: no loader gets far ahead of another. Loaders hold true
 positions that the control only learns about when they report, so what it compares may
 be stale; a loader joins within `step` of the others, and moves only on a grant, by at most `step`.
 */
module LoadBalance {
  import opened LoadScheduling

  /** The control, the true load position of each loader, and the loaders that hold a grant they
      have not used yet. */
  datatype Fleet = Fleet(control: Control, position: map<LoaderId, nat>, granted: set<LoaderId>)

  datatype Event =
    | Join(loader: LoaderId, contribution: nat, start: nat, playbackUs: int, loading: bool, inUse: nat)
    | Poll(loader: LoaderId, playbackUs: int, loading: bool, inUse: nat)
    | Advance(loader: LoaderId, distance: nat)
    | Leave(loader: LoaderId)

  /** A loader joins within one step of the others, and not behind one that holds a grant. */
  predicate EventOk(f: Fleet, e: Event, step: nat) {
    match e
    case Join(l, _, start, _, _, _) =>
      && l !in f.position && l !in f.control.loaders && f.granted <= f.position.Keys
      && (forall k :: k in f.position ==> f.position[k] <= start + step && start <= f.position[k] + step)
      && (forall k :: k in f.granted ==> f.position[k] <= start)
    case Poll(l, _, _, _) => l in f.position && l in f.control.loaders
    case Advance(l, distance) => l in f.position && l in f.granted && distance <= step
    case Leave(l) => l in f.position && l in f.control.loaders
  }

  /** A loader has registered, and not reported yet. */
  function Joined(f: Fleet, l: LoaderId, contribution: nat, start: nat): Fleet {
    f.(control := Register(f.control, l, contribution), position := f.position[l := start])
  }

  /** A loader reports, and may be granted its next load. */
  ghost function Reporting(f: Fleet, l: LoaderId, r: Report): Fleet
    requires l in f.control.loaders
  {
    var c := Update(f.control, l, r);
    f.(control := c, granted := if Granted(c, r) then f.granted + {l} else f.granted)
  }

  ghost function Apply(f: Fleet, e: Event, step: nat): Fleet
    requires EventOk(f, e, step)
  {
    match e
    case Join(l, contribution, start, playbackUs, loading, inUse) =>
      Reporting(Joined(f, l, contribution, start), l, Report(playbackUs, start, loading, inUse))
    case Poll(l, playbackUs, loading, inUse) => Reporting(f, l, Report(playbackUs, f.position[l], loading, inUse))
    case Advance(l, distance) =>
      f.(position := f.position[l := f.position[l] + distance], granted := f.granted - {l})
    case Leave(l) =>
      Fleet(Unregister(f.control, l), f.position - {l}, f.granted - {l})
  }

  ghost predicate RunOk(f: Fleet, events: seq<Event>, step: nat)
    decreases |events|
  {
    events == [] || (EventOk(f, events[0], step) && RunOk(Apply(f, events[0], step), events[1..], step))
  }

  ghost function Run(f: Fleet, events: seq<Event>, step: nat): Fleet
    requires RunOk(f, events, step)
    decreases |events|
  {
    if events == [] then f else Run(Apply(f, events[0], step), events[1..], step)
  }

  /** All true positions are within `step` of each other. */
  ghost predicate Together(f: Fleet, step: nat) {
    forall k, l :: k in f.position && l in f.position ==> f.position[k] <= f.position[l] + step
  }

  /** Every loader has reported a position, none that it has not reached. */
  ghost predicate Reported(f: Fleet) {
    && f.control.loaders.Keys == f.position.Keys
    && forall l :: l in f.position ==> 0 <= f.control.loaders[l].next <= f.position[l]
  }

  /** A loader with an unused grant is not ahead of anyone. */
  ghost predicate GrantedLast(f: Fleet) {
    && f.granted <= f.position.Keys
    && forall l, k :: l in f.granted && k in f.position ==> f.position[l] <= f.position[k]
  }

  ghost predicate Inv(f: Fleet, step: nat) {
    Together(f, step) && Reported(f) && GrantedLast(f) && Settled(f.control)
  }

  /** Every loader but `l` has reported a position, none that it has not reached; `l` has not reported,
      or likewise. */
  ghost predicate OthersReported(f: Fleet, l: LoaderId) {
    && f.control.loaders.Keys == f.position.Keys && l in f.position
    && (forall k :: k in f.position && k != l ==> 0 <= f.control.loaders[k].next <= f.position[k])
    && NO_POSITION <= f.control.loaders[l].next
  }

  /** A granted loader is at the least reported position, so at the least true one. */
  lemma GrantedIsLast(f: Fleet, l: LoaderId, r: Report, k: LoaderId)
    requires OthersReported(f, l) && Settled(f.control) && k in f.position && r.next == f.position[l]
    requires Granted(Update(f.control, l, r), r)
    ensures f.position[l] <= f.position[k]
  {
    GrantIffLeast(f.control, l, r);
    UpdateLoaders(f.control, l, r);
    assert HasPosition(Update(f.control, l, r).loaders, k);
  }

  lemma ReportKeepsGrants(f: Fleet, l: LoaderId, r: Report)
    requires OthersReported(f, l) && Settled(f.control) && r.next == f.position[l] && GrantedLast(f)
    requires Granted(Update(f.control, l, r), r)
    ensures GrantedLast(f.(granted := f.granted + {l}))
  {
    forall k | k in f.position
      ensures f.position[l] <= f.position[k]
    {
      GrantedIsLast(f, l, r, k);
    }
  }

  lemma ReportKeepsReported(f: Fleet, l: LoaderId, r: Report)
    requires OthersReported(f, l) && Settled(f.control) && r.next == f.position[l]
    ensures Settled(Update(f.control, l, r)) && Reported(f.(control := Update(f.control, l, r)))
  {
    GrantIffLeast(f.control, l, r);
    UpdateLoaders(f.control, l, r);
  }

  lemma ReportKeepsInv(f: Fleet, l: LoaderId, r: Report, step: nat)
    requires Together(f, step) && OthersReported(f, l) && GrantedLast(f) && Settled(f.control)
    requires r.next == f.position[l]
    ensures Inv(Reporting(f, l, r), step)
  {
    ReportKeepsReported(f, l, r);
    if Granted(Update(f.control, l, r), r) {
      ReportKeepsGrants(f, l, r);
    }
  }

  lemma JoinKeepsInv(f: Fleet, e: Event, step: nat)
    requires Inv(f, step) && EventOk(f, e, step) && e.Join?
    ensures Inv(Apply(f, e, step), step)
  {
    var joined := Joined(f, e.loader, e.contribution, e.start);
    RegisterIsNeutral(f.control, e.loader, e.contribution);
    JoinedIsReported(f, e.loader, e.contribution, e.start);
    JoinedIsTogether(f, e, step);
    ReportKeepsInv(joined, e.loader, Report(e.playbackUs, e.start, e.loading, e.inUse), step);
  }

  lemma JoinedIsReported(f: Fleet, l: LoaderId, contribution: nat, start: nat)
    requires Reported(f) && l !in f.position
    ensures OthersReported(Joined(f, l, contribution, start), l)
  {
    var joined := Joined(f, l, contribution, start);
    assert joined.control.loaders.Keys == f.control.loaders.Keys + {l};
    assert joined.position.Keys == f.position.Keys + {l};
  }

  lemma JoinedIsTogether(f: Fleet, e: Event, step: nat)
    requires Together(f, step) && GrantedLast(f) && EventOk(f, e, step) && e.Join?
    ensures Together(Joined(f, e.loader, e.contribution, e.start), step)
    ensures GrantedLast(Joined(f, e.loader, e.contribution, e.start))
  {
  }

  lemma LeaveKeepsInv(f: Fleet, e: Event, step: nat)
    requires Inv(f, step) && EventOk(f, e, step) && e.Leave?
    ensures Inv(Apply(f, e, step), step)
  {
    var l := e.loader;
    LeftControl(f.control, l);
    var u := Apply(f, e, step);
    LeftFleet(f, l, step);
    assert u.position == f.position - {l} && u.granted == f.granted - {l};
  }

  lemma LeftControl(c: Control, l: LoaderId)
    requires l in c.loaders
    ensures Settled(Unregister(c, l)) && Unregister(c, l).loaders == c.loaders - {l}
  {
    RecomputeSettles(c.(loaders := c.loaders - {l}, target := c.target - c.loaders[l].contribution));
  }

  lemma LeftFleet(f: Fleet, l: LoaderId, step: nat)
    requires Together(f, step) && GrantedLast(f)
    ensures Together(f.(position := f.position - {l}), step)
    ensures GrantedLast(f.(position := f.position - {l}, granted := f.granted - {l}))
  {
  }

  lemma AdvanceKeepsInv(f: Fleet, e: Event, step: nat)
    requires Inv(f, step) && EventOk(f, e, step) && e.Advance?
    ensures Inv(Apply(f, e, step), step)
  {
  }

  lemma ApplyKeepsInv(f: Fleet, e: Event, step: nat)
    requires Inv(f, step) && EventOk(f, e, step)
    ensures Inv(Apply(f, e, step), step)
  {
    match e
    case Join(_, _, _, _, _, _) => JoinKeepsInv(f, e, step);
    case Poll(l, playbackUs, loading, inUse) =>
      ReportKeepsInv(f, l, Report(playbackUs, f.position[l], loading, inUse), step);
    case Advance(_, _) => AdvanceKeepsInv(f, e, step);
    case Leave(_) => LeaveKeepsInv(f, e, step);
  }

  /** In every run from a state in which every loader has reported and positions are within one
      step of each other, true positions stay within one step, however stale the reports. */
  lemma {:induction false} LoadersStayTogether(f: Fleet, events: seq<Event>, step: nat)
    requires Inv(f, step) && RunOk(f, events, step)
    ensures Inv(Run(f, events, step), step)
    ensures Together(Run(f, events, step), step)
    decreases |events|
  {
    if events != [] {
      ApplyKeepsInv(f, events[0], step);
      LoadersStayTogether(Apply(f, events[0], step), events[1..], step);
    }
  }
}
