/**
 The load control: decides which of several loaders may start its next load, from their
 reported positions, the watermarks and the allocated buffer size.
 */
module LoadScheduling {
  type LoaderId = nat

  // Watermark levels, ordered so that the most urgent one is the highest.
  const ABOVE_HIGH: nat := 0
  const BETWEEN: nat := 1
  const BELOW_LOW: nat := 2

  const NO_POSITION: int := -1

  datatype Config = Config(lowUs: int, highUs: int, lowLoad: real, highLoad: real)

  datatype LoaderState = LoaderState(contribution: nat, level: nat, loading: bool, next: int)

  /** The state of the control; `notes` lists the loading-changed notifications sent. */
  datatype Control = Control(
    cfg: Config,
    loaders: map<LoaderId, LoaderState>,
    target: int,
    maxStart: int,
    bufferLevel: nat,
    filling: bool,
    notified: bool,
    notes: seq<bool>)

  function Initial(cfg: Config): Control {
    Control(cfg, map[], 0, 0, 0, false, false, [])
  }

  function LoaderLevel(cfg: Config, playbackUs: int, next: int): (level: nat)
    ensures level <= BELOW_LOW
  {
    if next == NO_POSITION then ABOVE_HIGH
    else if next - playbackUs > cfg.highUs then ABOVE_HIGH
    else if next - playbackUs < cfg.lowUs then BELOW_LOW
    else BETWEEN
  }

  /** The buffer load is a floating-point quotient: with a zero target it is not a number when
      nothing is allocated, and infinite otherwise. */
  function BufferLevel(cfg: Config, inUse: nat, target: int): (level: nat)
    ensures level <= BELOW_LOW
  {
    if target == 0 then if inUse == 0 then BETWEEN else ABOVE_HIGH
    else
      var load := inUse as real / target as real;
      if load > cfg.highLoad then ABOVE_HIGH else if load < cfg.lowLoad then BELOW_LOW else BETWEEN
  }

  /** More media ahead, or more bytes in use, is never more urgent; without a position there is no
      urgency at all. */
  lemma LevelsFallAsBuffersFill(cfg: Config, playbackUs: int, next: int, more: int, inUse: nat, inUse': nat,
                                target: int)
    requires cfg.lowUs <= cfg.highUs && cfg.lowLoad <= cfg.highLoad && target >= 0
    requires NO_POSITION != next <= more && inUse <= inUse'
    ensures LoaderLevel(cfg, playbackUs, more) <= LoaderLevel(cfg, playbackUs, next)
    ensures LoaderLevel(cfg, playbackUs, NO_POSITION) == ABOVE_HIGH
    ensures BufferLevel(cfg, inUse', target) <= BufferLevel(cfg, inUse, target)
  {
    if target > 0 {
      assert inUse as real / target as real <= inUse' as real / target as real;
    }
  }

  predicate AnyLoading(loaders: map<LoaderId, LoaderState>) {
    exists l :: l in loaders && loaders[l].loading
  }

  predicate HasPosition(loaders: map<LoaderId, LoaderState>, l: LoaderId) {
    l in loaders && loaders[l].next != NO_POSITION
  }

  predicate AnyPosition(loaders: map<LoaderId, LoaderState>) {
    exists l :: l in loaders && HasPosition(loaders, l)
  }

  predicate AnyAtLevel(loaders: map<LoaderId, LoaderState>, level: nat) {
    exists l :: l in loaders && loaders[l].level == level
  }

  function HighestLevel(bufferLevel: nat, loaders: map<LoaderId, LoaderState>): nat {
    if bufferLevel == BELOW_LOW || AnyAtLevel(loaders, BELOW_LOW) then BELOW_LOW
    else if bufferLevel == BETWEEN || AnyAtLevel(loaders, BETWEEN) then BETWEEN
    else ABOVE_HIGH
  }

  /** `p` is the least position among the loaders that have one. */
  ghost predicate IsLeast(loaders: map<LoaderId, LoaderState>, p: int) {
    && (exists l :: HasPosition(loaders, l) && loaders[l].next == p)
    && forall l :: HasPosition(loaders, l) ==> p <= loaders[l].next
  }

  lemma {:induction false} LeastExists(loaders: map<LoaderId, LoaderState>)
    requires AnyPosition(loaders)
    ensures exists p :: IsLeast(loaders, p)
    decreases loaders.Keys
  {
    var l :| l in loaders && HasPosition(loaders, l);
    var rest := loaders - {l};
    assert rest.Keys == loaders.Keys - {l};
    if AnyPosition(rest) {
      LeastExists(rest);
      var p :| IsLeast(rest, p);
      var q := if p < loaders[l].next then p else loaders[l].next;
      forall k | HasPosition(loaders, k)
        ensures q <= loaders[k].next
      {
        assert k == l || HasPosition(rest, k);
      }
      var m :| m in rest && HasPosition(rest, m) && rest[m].next == p;
      assert HasPosition(loaders, m);
      assert IsLeast(loaders, q);
    } else {
      forall k | HasPosition(loaders, k)
        ensures k == l
      {
        assert k != l ==> HasPosition(rest, k);
      }
      assert IsLeast(loaders, loaders[l].next);
    }
  }

  ghost function LeastPosition(loaders: map<LoaderId, LoaderState>): (p: int)
    ensures AnyPosition(loaders) ==> IsLeast(loaders, p)
    ensures !AnyPosition(loaders) ==> p == NO_POSITION
  {
    if !AnyPosition(loaders) then NO_POSITION
    else
      LeastExists(loaders);
      var p :| IsLeast(loaders, p);
      p
  }

  predicate Filling(c: Control) {
    var highest := HighestLevel(c.bufferLevel, c.loaders);
    && c.loaders != map[]
    && (AnyLoading(c.loaders) || AnyPosition(c.loaders))
    && (highest == BELOW_LOW || (highest == BETWEEN && c.filling))
  }

  /** What the shared control state becomes when it is computed afresh. */
  ghost function Recompute(c: Control): Control {
    var filling := Filling(c);
    var c1 := c.(filling := filling, maxStart := if filling then LeastPosition(c.loaders) else NO_POSITION);
    if filling && !c.notified then c1.(notified := true, notes := c.notes + [true])
    else if !filling && c.notified && !AnyLoading(c.loaders) then c1.(notified := false, notes := c.notes + [false])
    else c1
  }

  // ----- The operations -------------------------------------------------------------

  function Register(c: Control, l: LoaderId, contribution: nat): Control {
    c.(loaders := c.loaders[l := LoaderState(contribution, ABOVE_HIGH, false, NO_POSITION)],
       target := c.target + contribution)
  }

  ghost function Unregister(c: Control, l: LoaderId): Control
    requires l in c.loaders
  {
    Recompute(c.(loaders := c.loaders - {l}, target := c.target - c.loaders[l].contribution))
  }

  /** What a loader reports: playback position, next load position, whether it is busy, and
      the bytes allocated at that moment. */
  datatype Report = Report(playbackUs: int, next: int, loading: bool, inUse: nat)

  /** The control after storing a report, before the shared state is brought up to date. */
  function Note(c: Control, l: LoaderId, r: Report): Control
    requires l in c.loaders
  {
    c.(loaders := c.loaders[l := LoaderState(c.loaders[l].contribution,
                                             LoaderLevel(c.cfg, r.playbackUs, r.next), r.loading, r.next)],
       bufferLevel := BufferLevel(c.cfg, r.inUse, c.target))
  }

  /** Recomputes only when the report changed something. */
  ghost function Update(c: Control, l: LoaderId, r: Report): Control
    requires l in c.loaders
  {
    var c1 := Note(c, l, r);
    if c1.loaders[l] != c.loaders[l] || c1.bufferLevel != c.bufferLevel then Recompute(c1) else c1
  }

  ghost function UpdateAlways(c: Control, l: LoaderId, r: Report): Control
    requires l in c.loaders
  {
    Recompute(Note(c, l, r))
  }

  /** Whether the control, already updated with `r`, lets the loader start. */
  predicate Granted(c: Control, r: Report) {
    r.inUse < c.target && r.next != NO_POSITION && r.next <= c.maxStart
  }

  // ----- Change detection is sound --------------------------------------------------

  /** Computing afresh would change nothing that can be observed. */
  ghost predicate Settled(c: Control) {
    var r := Recompute(c);
    && r.filling == c.filling && r.notified == c.notified && r.notes == c.notes
    && (AnyPosition(c.loaders) ==> r.maxStart == c.maxStart)
  }

  lemma RecomputeSettles(c: Control)
    ensures Recompute(Recompute(c)) == Recompute(c)
    ensures Settled(Recompute(c))
  {
  }

  lemma InitialSettled(cfg: Config)
    ensures Settled(Initial(cfg))
  {
  }

  /** Registering a new loader leaves a settled control settled. */
  lemma RegisterIsNeutral(c: Control, l: LoaderId, contribution: nat)
    requires Settled(c) && l !in c.loaders
    ensures Settled(Register(c, l, contribution))
  {
    var m, m' := c.loaders, Register(c, l, contribution).loaders;
    assert forall k :: k in m' <==> k in m || k == l;
    assert forall k :: HasPosition(m', k) <==> HasPosition(m, k);
    assert AnyLoading(m') == AnyLoading(m) && AnyPosition(m') == AnyPosition(m);
    assert AnyAtLevel(m', BELOW_LOW) == AnyAtLevel(m, BELOW_LOW);
    assert AnyAtLevel(m', BETWEEN) == AnyAtLevel(m, BETWEEN);
    if AnyPosition(m) {
      LeastUnique(m, m');
    }
  }

  lemma LeastUnique(m: map<LoaderId, LoaderState>, m': map<LoaderId, LoaderState>)
    requires forall k :: HasPosition(m, k) <==> HasPosition(m', k)
    requires forall k :: HasPosition(m, k) && HasPosition(m', k) ==> m[k].next == m'[k].next
    ensures LeastPosition(m) == LeastPosition(m')
  {
    assert AnyPosition(m) == AnyPosition(m');
  }

  datatype Call =
    | CallRegister(loader: LoaderId, contribution: nat)
    | CallUnregister(loader: LoaderId)
    | CallUpdate(loader: LoaderId, report: Report)

  predicate CallOk(c: Control, call: Call) {
    match call
    case CallRegister(l, _) => l !in c.loaders
    case _ => call.loader in c.loaders
  }

  /** A control after one call, with or without change detection. */
  ghost function Perform(c: Control, call: Call, always: bool): Control
    requires CallOk(c, call)
  {
    match call
    case CallRegister(l, contribution) => Register(c, l, contribution)
    case CallUnregister(l) => Unregister(c, l)
    case CallUpdate(l, r) => if always then UpdateAlways(c, l, r) else Update(c, l, r)
  }

  ghost predicate CallsOk(c: Control, calls: seq<Call>, always: bool)
    decreases |calls|
  {
    calls == [] || (CallOk(c, calls[0]) && CallsOk(Perform(c, calls[0], always), calls[1..], always))
  }

  ghost function PerformAll(c: Control, calls: seq<Call>, always: bool): Control
    requires CallsOk(c, calls, always)
    decreases |calls|
  {
    if calls == [] then c else PerformAll(Perform(c, calls[0], always), calls[1..], always)
  }

  /** The answers to the updates of a run, in order. */
  ghost function Answers(c: Control, calls: seq<Call>, always: bool): seq<bool>
    requires CallsOk(c, calls, always)
    decreases |calls|
  {
    if calls == [] then []
    else
      var c1 := Perform(c, calls[0], always);
      (if calls[0].CallUpdate? then [Granted(c1, calls[0].report)] else []) + Answers(c1, calls[1..], always)
  }

  /** Equal, except for the start limit while no loader has a position. */
  ghost predicate Alike(a: Control, b: Control) {
    && a == b.(maxStart := a.maxStart)
    && (AnyPosition(a.loaders) ==> a.maxStart == b.maxStart)
    && Settled(a) && Settled(b)
  }

  lemma PerformKeepsAlike(a: Control, b: Control, call: Call)
    requires Alike(a, b) && CallOk(a, call)
    ensures CallOk(b, call)
    ensures Alike(Perform(a, call, false), Perform(b, call, true))
    ensures call.CallUpdate? ==>
              (Granted(Perform(a, call, false), call.report) <==> Granted(Perform(b, call, true), call.report))
  {
    match call
    case CallRegister(l, contribution) => RegisterKeepsAlike(a, b, l, contribution);
    case CallUnregister(l) => UnregisterKeepsAlike(a, b, l);
    case CallUpdate(l, r) =>
      UpdateKeepsAlike(a, b, l, r);
  }

  lemma RegisterKeepsAlike(a: Control, b: Control, l: LoaderId, contribution: nat)
    requires Alike(a, b) && l !in a.loaders
    ensures Alike(Register(a, l, contribution), Register(b, l, contribution))
  {
    RegisterIsNeutral(a, l, contribution);
    RegisterIsNeutral(b, l, contribution);
    var m' := Register(a, l, contribution).loaders;
    assert forall k :: HasPosition(m', k) <==> HasPosition(a.loaders, k);
  }

  lemma UnregisterKeepsAlike(a: Control, b: Control, l: LoaderId)
    requires Alike(a, b) && l in a.loaders
    ensures Alike(Unregister(a, l), Unregister(b, l))
  {
    RecomputeSettles(a.(loaders := a.loaders - {l}, target := a.target - a.loaders[l].contribution));
  }

  lemma UpdateKeepsAlike(a: Control, b: Control, l: LoaderId, r: Report)
    requires Alike(a, b) && l in a.loaders
    ensures Alike(Update(a, l, r), UpdateAlways(b, l, r))
    ensures Granted(Update(a, l, r), r) <==> Granted(UpdateAlways(b, l, r), r)
  {
    var a1, b1 := Note(a, l, r), Note(b, l, r);
    RecomputeSettles(a1);
    if r.next != NO_POSITION {
      assert HasPosition(a1.loaders, l);
    }
    if a1.loaders[l] == a.loaders[l] && a1.bufferLevel == a.bufferLevel {
      assert a1.loaders == a.loaders;
      assert a1 == a && b1 == b;
    }
  }

  lemma {:induction false} RunsAgree(a: Control, b: Control, calls: seq<Call>)
    requires Alike(a, b) && CallsOk(a, calls, false)
    ensures CallsOk(b, calls, true)
    ensures Answers(a, calls, false) == Answers(b, calls, true)
    ensures PerformAll(a, calls, false).notes == PerformAll(b, calls, true).notes
    decreases |calls|
  {
    if calls != [] {
      PerformKeepsAlike(a, b, calls[0]);
      RunsAgree(Perform(a, calls[0], false), Perform(b, calls[0], true), calls[1..]);
    }
  }

  /** Over every run in which only unregistered loaders register, detecting changes gives the
      same grants and the same notifications as recomputing on every update. */
  lemma ChangeDetectionIsUnobservable(cfg: Config, calls: seq<Call>)
    requires CallsOk(Initial(cfg), calls, false)
    ensures CallsOk(Initial(cfg), calls, true)
    ensures Answers(Initial(cfg), calls, false) == Answers(Initial(cfg), calls, true)
    ensures PerformAll(Initial(cfg), calls, false).notes == PerformAll(Initial(cfg), calls, true).notes
  {
    RunsAgree(Initial(cfg), Initial(cfg), calls);
  }

  /** Notifications alternate, starting with "loading"; the flag remembers the last one. */
  ghost predicate Alternating(c: Control) {
    && (forall i :: 0 <= i < |c.notes| ==> c.notes[i] == (i % 2 == 0))
    && c.notified == (|c.notes| % 2 == 1)
  }

  lemma {:induction false} NotificationsAlternate(c: Control, calls: seq<Call>, always: bool)
    requires Alternating(c) && CallsOk(c, calls, always)
    ensures Alternating(PerformAll(c, calls, always))
    decreases |calls|
  {
    if calls != [] {
      CallKeepsAlternating(c, calls[0], always);
      NotificationsAlternate(Perform(c, calls[0], always), calls[1..], always);
    }
  }

  lemma RecomputeKeepsAlternating(c: Control)
    requires Alternating(c)
    ensures Alternating(Recompute(c))
  {
  }

  lemma CallKeepsAlternating(c: Control, call: Call, always: bool)
    requires Alternating(c) && CallOk(c, call)
    ensures Alternating(Perform(c, call, always))
  {
    match call
    case CallRegister(_, _) =>
    case CallUnregister(l) =>
      RecomputeKeepsAlternating(c.(loaders := c.loaders - {l}, target := c.target - c.loaders[l].contribution));
    case CallUpdate(l, r) => RecomputeKeepsAlternating(Note(c, l, r));
  }

  // ----- Who is granted -------------------------------------------------------------

  /** With non-negative positions, a grant goes exactly to the loaders whose position is the
      least one, while filling and with buffer space left. */
  lemma GrantIffLeast(c: Control, l: LoaderId, r: Report)
    requires Settled(c) && l in c.loaders
    requires r.next >= 0 && forall k :: HasPosition(c.loaders, k) ==> c.loaders[k].next >= 0
    ensures var c' := Update(c, l, r);
            && Settled(c')
            && (Granted(c', r) <==>
                && c'.filling
                && r.inUse < c'.target
                && forall k :: HasPosition(c'.loaders, k) ==> r.next <= c'.loaders[k].next)
  {
    var c' := Update(c, l, r);
    var c1 := Note(c, l, r);
    RecomputeSettles(c1);
    if c1.loaders[l] == c.loaders[l] && c1.bufferLevel == c.bufferLevel {
      assert c1.loaders == c.loaders;
      assert c1 == c;
    }
    assert c'.loaders == c1.loaders;
    assert HasPosition(c'.loaders, l);
    assert c'.maxStart == (if c'.filling then LeastPosition(c'.loaders) else NO_POSITION);
  }

  /** An update only replaces what is known about the one loader. */
  lemma UpdateLoaders(c: Control, l: LoaderId, r: Report)
    requires l in c.loaders
    ensures var c' := Update(c, l, r);
            && c'.loaders.Keys == c.loaders.Keys
            && c'.loaders[l].next == r.next
            && forall k :: k in c.loaders && k != l ==> c'.loaders[k] == c.loaders[k]
  {
    assert Update(c, l, r).loaders == Note(c, l, r).loaders;
  }

  // ----- The target buffer size -----------------------------------------------------

  /** The sum of the registered contributions. */
  ghost function Total(loaders: map<LoaderId, LoaderState>): nat
    decreases loaders.Keys
  {
    if loaders == map[] then 0
    else
      var l :| l in loaders;
      assert (loaders - {l}).Keys == loaders.Keys - {l};
      loaders[l].contribution + Total(loaders - {l})
  }

  lemma {:induction false} TotalWithout(loaders: map<LoaderId, LoaderState>, l: LoaderId)
    requires l in loaders
    ensures Total(loaders) == loaders[l].contribution + Total(loaders - {l})
    decreases loaders.Keys
  {
    var k :| k in loaders && Total(loaders) == loaders[k].contribution + Total(loaders - {k});
    assert (loaders - {k}).Keys == loaders.Keys - {k};
    if k != l {
      TotalWithout(loaders - {k}, l);
      assert (loaders - {k}) - {l} == (loaders - {l}) - {k};
      assert (loaders - {l}).Keys == loaders.Keys - {l};
      TotalWithout(loaders - {l}, k);
    }
  }

  lemma TotalWith(loaders: map<LoaderId, LoaderState>, l: LoaderId, s: LoaderState)
    ensures Total(loaders[l := s]) ==
            s.contribution + Total(loaders) - (if l in loaders then loaders[l].contribution else 0)
  {
    TotalWithout(loaders[l := s], l);
    if l in loaders {
      TotalWithout(loaders, l);
      assert loaders[l := s] - {l} == loaders - {l};
    } else {
      assert loaders[l := s] - {l} == loaders;
    }
  }

  /** Registering keeps the target equal to the sum exactly when the loader is new or its
      earlier registration contributed nothing. */
  lemma RegisterKeepsTotalIff(c: Control, l: LoaderId, contribution: nat)
    requires c.target == Total(c.loaders)
    ensures var c' := Register(c, l, contribution);
            c'.target == Total(c'.loaders) <==> l !in c.loaders || c.loaders[l].contribution == 0
  {
    TotalWith(c.loaders, l, LoaderState(contribution, ABOVE_HIGH, false, NO_POSITION));
  }

  /** A loader that registers twice with a contribution of 10 counts for 20. */
  lemma RegisteringTwiceCountsTwice(cfg: Config)
    ensures var c := Register(Register(Initial(cfg), 1, 10), 1, 10);
            c.target == 20 && Total(c.loaders) == 10
  {
    var c1 := Register(Initial(cfg), 1, 10);
    TotalWith(map[], 1, c1.loaders[1]);
    TotalWith(c1.loaders, 1, c1.loaders[1]);
  }

  lemma UnregisterKeepsTotal(c: Control, l: LoaderId)
    requires c.target == Total(c.loaders) && l in c.loaders
    ensures Unregister(c, l).target == Total(Unregister(c, l).loaders)
  {
    TotalWithout(c.loaders, l);
  }

  lemma UpdateKeepsTotal(c: Control, l: LoaderId, r: Report)
    requires c.target == Total(c.loaders) && l in c.loaders
    ensures Update(c, l, r).target == Total(Update(c, l, r).loaders)
  {
    TotalWith(c.loaders, l, Note(c, l, r).loaders[l]);
  }
}
