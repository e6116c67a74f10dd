/**
 The load control at work on real sources: the true position of a source is where it will
 load next. Sources that are enabled within one chunk duration of each other, always find
 something to load, and are never backed off, never discarded from and never restarted,
 stay within one chunk duration of each other in every run.
 */
module SourceBalance {
  import opened Samples
  import opened BufferedSource
  import opened LoadScheduling
  import Safety = SourceSafety
  import System = BufferingSystem
  import Balance = LoadBalance
  import ChunkBuffers

  // ----- One source -----------------------------------------------------------------

  /** Where the source will load next. */
  function PositionOf(c: Core): int {
    if c.IsPendingReset() || c.load.finished || c.buffer.chunks != [] then NextLoadPosition(c) else NO_POSITION
  }

  /** A chunk that ends at `endUs` takes the source at most `step` further. */
  predicate WithinStep(positionUs: int, endUs: int, step: nat) {
    positionUs <= endUs <= positionUs + step
  }

  /** There is a position to load from, no failure, and a media chunk waiting to be loaded is the next one. */
  predicate SteadyCore(c: Core, step: nat) {
    && Safety.Live(c) && !c.load.finished && !c.load.backedOff && PositionOf(c) >= 0
    && (c.load.loader.Resting? && c.HoldsMedia() ==> WithinStep(PositionOf(c), c.load.holder.chunk.value.endUs, step))
  }

  predicate Steady(s: Source, step: nat) {
    && System.Active(s) && SteadyCore(s.core, step)
    && (s.life.phase.Enabled? && s.core.load.loader.Loading? ==> !s.core.load.loader.canceled)
  }

  /** The chunk source keeps the whole queue and has a chunk, a media chunk being the next one. */
  predicate OpFits(c: Core, op: Operation, step: nat) {
    && |c.buffer.chunks| <= op.queueSize && !op.endOfStream
    && match op.next
       case Keep => c.load.holder.chunk.Some?
       case Nothing => false
       case NewMedia(_, endUs) => WithinStep(PositionOf(c), endUs, step)
       case NewInit => true
  }

  /** An update reports the true position, and moves it by at most one step and only on a grant. */
  lemma UpdateMoves(c: Core, env: Env, step: nat)
    requires SteadyCore(c, step) && UpdateOk(c, env) && OpFits(c, env.op, step)
    ensures var c' := UpdateLoadControl(c, env);
            && SteadyCore(c', step) && WithinStep(PositionOf(c), PositionOf(c'), step)
            && (PositionOf(c') != PositionOf(c) ==> env.granted)
            && (c'.load.loader.Loading? ==> c'.load.loader == c.load.loader || !c'.load.loader.canceled)
    ensures (c.buffer.chunks != [] ==> env.op.queueSize > 0) && ReportedPosition(c, env) == PositionOf(c)
  {
    EvaluatedIsSteady(c, env, step);
    var c1 := Evaluated(c, env);
    if c1.load.loader.Resting? && env.granted {
      StartMoves(c1, step);
    }
  }

  lemma EvaluatedIsSteady(c: Core, env: Env, step: nat)
    requires SteadyCore(c, step) && UpdateOk(c, env) && OpFits(c, env.op, step)
    ensures var c1 := Evaluated(c, env);
            && SteadyCore(c1, step) && PositionOf(c1) == PositionOf(c) && c1.load.loader == c.load.loader
            && (c1.load.loader.Resting? && c1.HoldsMedia() ==> c1.load.holder.owned)
            && (NeedsEvaluation(c, env) ==> c1.load.holder.chunk.Some?)
            && c1.buffer == c.buffer
  {
  }

  lemma StartMoves(c: Core, step: nat)
    requires SteadyCore(c, step) && c.load.loader.Resting? && (c.HoldsMedia() ==> c.load.holder.owned)
    ensures var c' := MaybeStartLoading(c);
            && SteadyCore(c', step) && WithinStep(PositionOf(c), PositionOf(c'), step)
            && (c'.load.loader.Loading? ==> !c'.load.loader.canceled)
  {
  }

  // ----- Events ---------------------------------------------------------------------

  /** What is asked of an event: the chunk source fits whenever it may be consulted, no load fails, and no
      seek leaves the buffer. */
  ghost predicate Calm(s: Source, e: Safety.Event, step: nat) {
    match e
    case Enable(p, env) => p >= 0 && OpFits(Restarted(s.core, p), env.op, step)
    case ContinueBuffering(_, env) => OpFits(s.core, env.op, step)
    case SeekTo(p, _) => SeekIsNoop(s, p) || SeeksInside(s.core, p)
    case LoadDone(outcome, env) =>
      !outcome.Error? && (outcome.Complete? ==> OpFits(DonePoint(s.core, outcome), env.op, step))
    case _ => true
  }

  lemma ConsultedIsSteady(s: Source, e: Safety.Event, step: nat)
    requires Safety.Inv(s) && Safety.EventOk(s, e) && Calm(s, e, step) && System.Consulted(s, e).Some?
    requires e.Enable? || Steady(s, step)
    ensures var c := System.Consulted(s, e).value;
            && SteadyCore(c, step) && OpFits(c, e.env.op, step)
            && PositionOf(c) == (if e.Enable? then e.positionUs else PositionOf(s.core))
            && (c.load.loader.Loading? ==> c.load.loader == s.core.load.loader)
  {
  }

  lemma ConsultedStep(s: Source, e: Safety.Event)
    requires Safety.Inv(s) && Safety.EventOk(s, e) && System.Consulted(s, e).Some?
    ensures var c := System.Consulted(s, e).value;
            && UpdateOk(c, e.env)
            && var (c', s') := (UpdateLoadControl(c, e.env), Safety.Step(s, e));
               && s'.core.load == c'.load && s'.core.buffer.chunks == c'.buffer.chunks
               && s'.life.phase == (if e.Enable? then Enabled else s.life.phase)
  {
    System.ConsultedIsDefined(s, e);
  }

  /** An event that updates the load control: the source reports where it is, and moves from there only on
      a grant. */
  lemma ConsultMoves(s: Source, e: Safety.Event, inUse: nat, step: nat)
    requires Safety.Inv(s) && Safety.EventOk(s, e) && Calm(s, e, step) && System.Consulted(s, e).Some?
    requires e.Enable? || Steady(s, step)
    ensures var from, s' := System.ReportOf(s, e, inUse).next, Safety.Step(s, e);
            && from == (if e.Enable? then e.positionUs else PositionOf(s.core)) && from >= 0
            && Steady(s', step) && WithinStep(from, PositionOf(s'.core), step)
            && (PositionOf(s'.core) != from ==> e.env.granted)
  {
    ConsultedIsSteady(s, e, step);
    ConsultedStep(s, e);
    var c := System.Consulted(s, e).value;
    UpdateMoves(c, e.env, step);
    SameLoad(UpdateLoadControl(c, e.env), Safety.Step(s, e).core, step);
  }

  lemma SameLoad(c: Core, c': Core, step: nat)
    requires c'.load == c.load && c'.buffer.chunks == c.buffer.chunks
    ensures PositionOf(c') == PositionOf(c) && SteadyCore(c', step) == SteadyCore(c, step)
  {
  }

  /** Any other event leaves the source where it is. */
  lemma QuietStays(s: Source, e: Safety.Event, step: nat)
    requires Safety.Inv(s) && Safety.EventOk(s, e) && Calm(s, e, step) && Steady(s, step)
    requires System.Consulted(s, e).None? && !System.Leaves(s, e)
    ensures Steady(Safety.Step(s, e), step) && PositionOf(Safety.Step(s, e).core) == PositionOf(s.core)
  {
    System.ActiveAfter(s, e);
    match e
    case ReadData(_, _, _, _) => ReadStays(s, e);
    case SeekTo(_, _) =>
    case CommitSample(_) =>
    case _ =>
  }

  /** A read passes chunks, but never the last one. */
  lemma ReadStays(s: Source, e: Safety.Event)
    requires Safety.Inv(s) && Safety.EventOk(s, e) && e.ReadData? && Safety.Live(s.core)
    ensures var s' := Safety.Step(s, e);
            && s'.life == s.life && s'.core.load == s.core.load
            && Safety.Live(s'.core) && PositionOf(s'.core) == PositionOf(s.core)
  {
    Safety.ReadDefined(s);
    Safety.ReadShape(s, e.positionUs, e.chunkFormat, e.formatFinal, e.forward);
    if !s.play.discontinuity && !s.core.IsPendingReset() {
      ReadiedKeepsLast(s.core.buffer);
    }
  }

  lemma ReadiedKeepsLast(b: ChunkBuffers.Buffer)
    requires |b.Samples()| == |b.origins| && b.chunks != []
    ensures var b' := Readied(b);
            && |b'.Samples()| == |b'.origins|
            && b'.chunks != [] && b'.chunks[|b'.chunks| - 1] == b.chunks[|b.chunks| - 1]
            && (b'.Samples() != [] ==> ChunkBuffers.Taken(b').chunks == b'.chunks)
  {
    ReadiedIsSettled(b);
    SettledKeepsOrigins(b);
  }

  // ----- The system -----------------------------------------------------------------

  function PlaceOf(s: Source): nat {
    if PositionOf(s.core) >= 0 then PositionOf(s.core) else 0
  }

  /** The registered sources as loaders with true positions, none of which holds on to a grant. */
  function FleetOf(sys: System.System): Balance.Fleet {
    Balance.Fleet(sys.control,
                  map l | l in sys.control.loaders && l in sys.sources :: PlaceOf(sys.sources[l]),
                  {})
  }

  ghost predicate AllSteady(sys: System.System, step: nat) {
    forall l :: l in sys.control.loaders && l in sys.sources ==> Steady(sys.sources[l], step)
  }

  ghost predicate Balanced(sys: System.System, step: nat) {
    System.Inv(sys) && AllSteady(sys, step) && Balance.Inv(FleetOf(sys), step)
  }

  /** The event is calm, and a source is enabled within one step of the others. */
  ghost predicate CalmAction(sys: System.System, a: System.Action, step: nat) {
    && System.ActionOk(sys, a) && Calm(sys.sources[a.loader], a.event, step)
    && (a.event.Enable? ==>
          forall k :: k in FleetOf(sys).position ==>
                        && FleetOf(sys).position[k] <= a.event.positionUs + step
                        && a.event.positionUs <= FleetOf(sys).position[k] + step)
  }

  lemma FleetWith(sys: System.System, l: LoaderId, s': Source, c': Control)
    requires System.Registered(sys) && l in sys.sources && c'.loaders.Keys == sys.control.loaders.Keys + {l}
    ensures FleetOf(sys.(control := c', sources := sys.sources[l := s'])) ==
            Balance.Fleet(c', FleetOf(sys).position[l := PlaceOf(s')], {})
  {
  }

  lemma FleetWithout(sys: System.System, l: LoaderId, s': Source, c': Control)
    requires System.Registered(sys) && l in sys.sources && c'.loaders.Keys == sys.control.loaders.Keys - {l}
    ensures FleetOf(sys.(control := c', sources := sys.sources[l := s'])) ==
            Balance.Fleet(c', FleetOf(sys).position - {l}, {})
  {
  }

  lemma SteadyWith(sys: System.System, l: LoaderId, s': Source, c': Control, step: nat)
    requires AllSteady(sys, step) && c'.loaders.Keys <= sys.control.loaders.Keys + {l}
    requires l in c'.loaders ==> Steady(s', step)
    ensures AllSteady(sys.(control := c', sources := sys.sources[l := s']), step)
  {
  }

  /** A loader that has just reported moves on if it was granted. */
  lemma ReportThenMove(f: Balance.Fleet, l: LoaderId, to: nat, step: nat)
    requires Balance.Inv(f, step) && l in f.position && WithinStep(f.position[l], to, step)
    requires to != f.position[l] ==> l in f.granted
    ensures Balance.Inv(Balance.Fleet(f.control, f.position[l := to], {}), step)
  {
    if to != f.position[l] {
      var move := Balance.Advance(l, to - f.position[l]);
      Balance.AdvanceKeepsInv(f, move, step);
      var moved := Balance.Apply(f, move, step);
      assert moved.control == f.control && moved.position == f.position[l := to];
      WithoutGrants(moved, step);
    } else {
      WithoutGrants(f, step);
      assert f.position[l := to] == f.position;
    }
  }

  lemma WithoutGrants(f: Balance.Fleet, step: nat)
    requires Balance.Inv(f, step)
    ensures Balance.Inv(Balance.Fleet(f.control, f.position, {}), step)
  {
  }

  /** A loader that is there reports, or one that is not joins, and moves to `to`. */
  lemma PollThenMove(f: Balance.Fleet, l: LoaderId, r: Report, to: nat, step: nat)
    requires Balance.Inv(f, step) && f.granted == {} && l in f.position && r.next == f.position[l]
    requires WithinStep(r.next, to, step) && (to != r.next ==> Granted(Update(f.control, l, r), r))
    ensures Balance.Inv(Balance.Fleet(Update(f.control, l, r), f.position[l := to], {}), step)
  {
    var poll := Balance.Poll(l, r.playbackUs, r.loading, r.inUse);
    Balance.ApplyKeepsInv(f, poll, step);
    ReportThenMove(Balance.Apply(f, poll, step), l, to, step);
  }

  lemma JoinThenMove(f: Balance.Fleet, l: LoaderId, share: nat, r: Report, to: nat, step: nat)
    requires Balance.Inv(f, step) && f.granted == {} && l !in f.position && r.next >= 0
    requires Balance.EventOk(f, Balance.Join(l, share, r.next, r.playbackUs, r.loading, r.inUse), step)
    requires WithinStep(r.next, to, step) && (to != r.next ==> Granted(Update(Register(f.control, l, share), l, r), r))
    ensures Balance.Inv(Balance.Fleet(Update(Register(f.control, l, share), l, r), f.position[l := to], {}), step)
  {
    var join := Balance.Join(l, share, r.next, r.playbackUs, r.loading, r.inUse);
    Balance.JoinKeepsInv(f, join, step);
    var joined := Balance.Apply(f, join, step);
    assert joined == Balance.Reporting(Balance.Joined(f, l, share, r.next), l, r);
    LastPlaceCounts(f.position, l, r.next, to);
    ReportThenMove(joined, l, to, step);
  }

  lemma LastPlaceCounts(position: map<LoaderId, nat>, l: LoaderId, from: nat, to: nat)
    ensures position[l := from][l := to] == position[l := to]
  {
  }

  /** What an action that updates the load control does, seen from outside the source. */
  ghost predicate Moves(sys: System.System, a: System.Action, r: Report, to: nat, step: nat)
    requires a.loader in sys.shares
  {
    var f, l, joined := FleetOf(sys), a.loader, System.Joined(sys, a);
    && r.next >= 0 && l in joined.loaders && WithinStep(r.next, to, step)
    && (to != r.next ==> Granted(Update(joined, l, r), r))
    && (if a.event.Enable?
        then Balance.EventOk(f, Balance.Join(l, sys.shares[l], r.next, r.playbackUs, r.loading, r.inUse), step)
        else l in f.position && r.next == f.position[l])
  }

  lemma ConsultIsMove(sys: System.System, a: System.Action, step: nat)
    requires Balanced(sys, step) && CalmAction(sys, a, step)
    requires System.Consulted(sys.sources[a.loader], a.event).Some?
    ensures var s, s' := sys.sources[a.loader], Safety.Step(sys.sources[a.loader], a.event);
            var r := System.ReportOf(s, a.event, a.inUse);
            && Moves(sys, a, r, PlaceOf(s'), step) && Steady(s', step)
            && System.ControlAfter(sys, a) == Update(System.Joined(sys, a), a.loader, r)
  {
    var s := sys.sources[a.loader];
    System.ActiveIsRegistered(sys, a.loader);
    System.ActiveAfter(s, a.event);
    ConsultMoves(s, a.event, a.inUse, step);
  }

  lemma MoveKeepsFleet(sys: System.System, a: System.Action, r: Report, to: nat, step: nat)
    requires a.loader in sys.shares && Balance.Inv(FleetOf(sys), step) && Moves(sys, a, r, to, step)
    ensures Balance.Inv(Balance.Fleet(Update(System.Joined(sys, a), a.loader, r),
                                      FleetOf(sys).position[a.loader := to], {}), step)
  {
    if a.event.Enable? {
      JoinThenMove(FleetOf(sys), a.loader, sys.shares[a.loader], r, to, step);
    } else {
      PollThenMove(FleetOf(sys), a.loader, r, to, step);
    }
  }

  lemma ConsultKeepsBalanced(sys: System.System, a: System.Action, step: nat)
    requires Balanced(sys, step) && CalmAction(sys, a, step)
    requires System.Consulted(sys.sources[a.loader], a.event).Some?
    ensures Balanced(System.Step(sys, a), step)
  {
    var s, s' := sys.sources[a.loader], Safety.Step(sys.sources[a.loader], a.event);
    ConsultIsMove(sys, a, step);
    System.JoinedIsConsistent(sys, a);
    System.StepKeepsInv(sys, a);
    AfterMove(sys, a, System.ReportOf(s, a.event, a.inUse), s', step);
  }

  lemma AfterMove(sys: System.System, a: System.Action, r: Report, s': Source, step: nat)
    requires a.loader in sys.shares && a.loader in sys.sources && System.Registered(sys) && AllSteady(sys, step)
    requires Balance.Inv(FleetOf(sys), step) && Moves(sys, a, r, PlaceOf(s'), step) && Steady(s', step)
    requires System.Joined(sys, a).loaders.Keys == sys.control.loaders.Keys + {a.loader}
    ensures var c' := Update(System.Joined(sys, a), a.loader, r);
            var sys' := sys.(control := c', sources := sys.sources[a.loader := s']);
            AllSteady(sys', step) && Balance.Inv(FleetOf(sys'), step)
  {
    var c' := Update(System.Joined(sys, a), a.loader, r);
    UpdateLoaders(System.Joined(sys, a), a.loader, r);
    SteadyWith(sys, a.loader, s', c', step);
    FleetWith(sys, a.loader, s', c');
    MoveKeepsFleet(sys, a, r, PlaceOf(s'), step);
  }

  lemma LeaveKeepsBalanced(sys: System.System, a: System.Action, step: nat)
    requires Balanced(sys, step) && CalmAction(sys, a, step) && System.Leaves(sys.sources[a.loader], a.event)
    ensures Balanced(System.Step(sys, a), step)
  {
    var s, l := sys.sources[a.loader], a.loader;
    System.ActiveIsRegistered(sys, l);
    System.ActiveAfter(s, a.event);
    System.StepKeepsInv(sys, a);
    var c', s' := System.ControlAfter(sys, a), Safety.Step(s, a.event);
    System.LeaveKeeps(sys.control, l);
    SteadyWith(sys, l, s', c', step);
    FleetWithout(sys, l, s', c');
    Balance.ApplyKeepsInv(FleetOf(sys), Balance.Leave(l), step);
  }

  lemma QuietKeepsBalanced(sys: System.System, a: System.Action, step: nat)
    requires Balanced(sys, step) && CalmAction(sys, a, step)
    requires System.Consulted(sys.sources[a.loader], a.event).None? && !System.Leaves(sys.sources[a.loader], a.event)
    ensures Balanced(System.Step(sys, a), step)
  {
    var s := sys.sources[a.loader];
    System.ActiveIsRegistered(sys, a.loader);
    System.StepKeepsInv(sys, a);
    if a.loader in sys.control.loaders {
      QuietStays(s, a.event, step);
    }
    AfterQuiet(sys, a.loader, Safety.Step(s, a.event), step);
  }

  lemma AfterQuiet(sys: System.System, l: LoaderId, s': Source, step: nat)
    requires System.Registered(sys) && AllSteady(sys, step) && l in sys.sources
    requires l in sys.control.loaders ==> Steady(s', step) && PositionOf(s'.core) == PositionOf(sys.sources[l].core)
    ensures var sys' := sys.(sources := sys.sources[l := s']);
            AllSteady(sys', step) && FleetOf(sys') == FleetOf(sys)
  {
    SteadyWith(sys, l, s', sys.control, step);
    var sys' := sys.(sources := sys.sources[l := s']);
    assert FleetOf(sys').position == FleetOf(sys).position;
  }

  lemma StepKeepsBalanced(sys: System.System, a: System.Action, step: nat)
    requires Balanced(sys, step) && CalmAction(sys, a, step)
    ensures Balanced(System.Step(sys, a), step)
  {
    if System.Consulted(sys.sources[a.loader], a.event).Some? {
      ConsultKeepsBalanced(sys, a, step);
    } else if System.Leaves(sys.sources[a.loader], a.event) {
      LeaveKeepsBalanced(sys, a, step);
    } else {
      QuietKeepsBalanced(sys, a, step);
    }
  }

  // ----- Runs -----------------------------------------------------------------------

  ghost predicate StepsTo(sys: System.System, a: System.Action, sys': System.System, step: nat) {
    CalmAction(sys, a, step) && sys' == System.Step(sys, a)
  }

  ghost predicate IsRun(states: seq<System.System>, actions: seq<System.Action>, step: nat) {
    && |states| == |actions| + 1 && System.Start(states[0])
    && forall i :: 0 <= i < |actions| ==> StepsTo(states[i], actions[i], states[i + 1], step)
  }

  lemma StartIsBalanced(sys: System.System, step: nat)
    requires System.Start(sys)
    ensures Balanced(sys, step)
  {
    System.StartInv(sys);
  }

  /** From the start, any number of sources: the loading positions of any two that are enabled are never
      further apart than one chunk. */
  lemma {:induction false} SourcesStayTogether(states: seq<System.System>, actions: seq<System.Action>, step: nat,
                                               i: nat)
    requires IsRun(states, actions, step) && i < |states|
    ensures Balanced(states[i], step)
    ensures CloseTogether(states[i], step)
  {
    if i == 0 {
      StartIsBalanced(states[0], step);
    } else {
      SourcesStayTogether(states, actions, step, i - 1);
      assert StepsTo(states[i - 1], actions[i - 1], states[i], step);
      StepKeepsBalanced(states[i - 1], actions[i - 1], step);
    }
    BalancedIsTogether(states[i], step);
  }

  ghost predicate CloseTogether(sys: System.System, step: nat) {
    forall k, l :: && k in sys.sources && System.Active(sys.sources[k])
                   && l in sys.sources && System.Active(sys.sources[l])
                   ==> PositionOf(sys.sources[k].core) <= PositionOf(sys.sources[l].core) + step
  }

  lemma BalancedIsTogether(sys: System.System, step: nat)
    requires Balanced(sys, step)
    ensures CloseTogether(sys, step)
  {
  }
}
