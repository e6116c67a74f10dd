/**
 Several chunk sample sources sharing one load control. A source's events are those of
 module `SourceSafety`; here the answer "granted" is no longer free but comes from the load
 control, which a source registers with when it is enabled and leaves when it is disabled.
 */
module BufferingSystem {
  import opened Samples
  import opened BufferedSource
  import opened LoadScheduling
  import Safety = SourceSafety

  /** The control, the sources by loader, and the buffer size each contributes while registered. */
  datatype System = System(control: Control, sources: map<LoaderId, Source>, shares: map<LoaderId, nat>)

  /** One event of one source, with the bytes allocated at that moment. */
  datatype Action = Action(loader: LoaderId, event: Safety.Event, inUse: nat)

  // ----- How a source uses the control ----------------------------------------------

  /** The state in which an event updates the load control, if it does. */
  ghost function Consulted(s: Source, e: Safety.Event): Option<Core> {
    match e
    case Enable(p, _) => Some(Restarted(s.core, p))
    case ContinueBuffering(_, _) => Some(s.core)
    case SeekTo(p, _) =>
      if SeekIsNoop(s, p) || SeeksInside(s.core, p) || s.core.load.loader.Loading? then None
      else Some(Restarted(s.core, p))
    case LoadDone(outcome, _) => if EndsDisable(s, outcome) then None else Some(DonePoint(s.core, outcome))
    case _ => None
  }

  /** The playback position at that point. */
  function PlaybackAt(s: Source, e: Safety.Event): int {
    if e.Enable? || e.ContinueBuffering? || e.SeekTo? then e.positionUs else s.play.downstreamUs
  }

  /** Whether the event takes the source's loader off the control. */
  predicate Leaves(s: Source, e: Safety.Event) {
    e.RunPosted? || (e.LoadDone? && EndsDisable(s, e.outcome))
  }

  lemma ConsultedIsDefined(s: Source, e: Safety.Event)
    requires Safety.Inv(s) && Safety.EventOk(s, e) && Consulted(s, e).Some?
    ensures var c := Consulted(s, e).value;
            UpdateOk(c, e.env) && (c.buffer.chunks != [] ==> e.env.op.queueSize > 0)
  {
    match e
    case Enable(p, _) =>
      Safety.RestartedInv(s.core, p);
    case ContinueBuffering(_, env) => Safety.UpdateDefined(s.core, env);
    case SeekTo(p, _) =>
      Safety.RestartedInv(s.core, p);
    case LoadDone(outcome, env) => Safety.DoneDefined(s, outcome, env);
  }

  /** What the source reports. */
  ghost function ReportOf(s: Source, e: Safety.Event, inUse: nat): Report
    requires Safety.Inv(s) && Safety.EventOk(s, e) && Consulted(s, e).Some?
  {
    ConsultedIsDefined(s, e);
    var c := Consulted(s, e).value;
    Report(PlaybackAt(s, e), ReportedPosition(c, e.env), ReportedBusy(c), inUse)
  }

  /** The control just before the source reports: registered first if the source is being enabled. */
  function Joined(sys: System, a: Action): Control
    requires a.loader in sys.shares
  {
    if a.event.Enable? then Register(sys.control, a.loader, sys.shares[a.loader]) else sys.control
  }

  /** The source and its share are there, the source is sound and registered if it is active; in a
      consistent system they always are. */
  ghost predicate Present(sys: System, l: LoaderId) {
    && l in sys.sources && l in sys.shares && Safety.Inv(sys.sources[l])
    && (Active(sys.sources[l]) ==> l in sys.control.loaders)
  }

  /** The event is possible, and the answer it carries is the load control's. */
  ghost predicate ActionOk(sys: System, a: Action) {
    && Present(sys, a.loader)
    && var s := sys.sources[a.loader];
       && Safety.EventOk(s, a.event)
       && (Consulted(s, a.event).Some? ==>
             var c, r := Joined(sys, a), ReportOf(s, a.event, a.inUse);
             a.loader in c.loaders && a.event.env.granted == Granted(Update(c, a.loader, r), r))
  }

  ghost function ControlAfter(sys: System, a: Action): Control
    requires ActionOk(sys, a)
  {
    var s := sys.sources[a.loader];
    if Consulted(s, a.event).Some? then Update(Joined(sys, a), a.loader, ReportOf(s, a.event, a.inUse))
    else if Leaves(s, a.event) then
      ActiveAfter(s, a.event);
      Unregister(sys.control, a.loader)
    else sys.control
  }

  ghost function Step(sys: System, a: Action): System
    requires ActionOk(sys, a)
  {
    sys.(control := ControlAfter(sys, a),
         sources := sys.sources[a.loader := Safety.Step(sys.sources[a.loader], a.event)])
  }

  // ----- The invariant --------------------------------------------------------------

  predicate Active(s: Source) {
    s.life.phase.Enabled? || s.life.phase.Disabling?
  }

  /** A loader is registered exactly while its source is enabled or disabling, with its share. */
  ghost predicate Registered(sys: System) {
    && sys.shares.Keys == sys.sources.Keys
    && (forall l :: l in sys.sources ==> (l in sys.control.loaders <==> Active(sys.sources[l])))
    && (forall l :: l in sys.control.loaders ==>
          l in sys.sources && sys.control.loaders[l].contribution == sys.shares[l])
  }

  ghost predicate AllSound(sources: map<LoaderId, Source>) {
    forall l :: l in sources ==> Safety.Inv(sources[l])
  }

  ghost predicate Consistent(c: Control) {
    c.target == Total(c.loaders) && Settled(c)
  }

  ghost predicate Inv(sys: System) {
    AllSound(sys.sources) && Registered(sys) && Consistent(sys.control)
  }

  /** How an event changes whether its source is active. */
  lemma ActiveAfter(s: Source, e: Safety.Event)
    requires Safety.Inv(s) && Safety.EventOk(s, e)
    ensures Active(Safety.Step(s, e)) == (e.Enable? || (Active(s) && !Leaves(s, e)))
    ensures e.Enable? ==> !Active(s)
    ensures Leaves(s, e) ==> Active(s) && Consulted(s, e).None?
    ensures Consulted(s, e).Some? ==> e.Enable? || Active(s)
  {
    match e
    case ReadData(p, chunkFormat, formatFinal, forward) =>
      Safety.ReadDefined(s);
      Safety.ReadShape(s, p, chunkFormat, formatFinal, forward);
    case _ =>
  }

  /** The control that a source reports to: its loader is registered with its share, and the others
      are as before. */
  ghost predicate JoinsWell(sys: System, l: LoaderId, c: Control)
    requires l in sys.shares
  {
    && l in c.loaders && c.loaders[l].contribution == sys.shares[l]
    && Consistent(c)
    && c.loaders.Keys == sys.control.loaders.Keys + {l}
    && forall k :: k in sys.control.loaders && k != l ==> c.loaders[k] == sys.control.loaders[k]
  }

  lemma JoinedIsConsistent(sys: System, a: Action)
    requires Inv(sys) && a.loader in sys.sources && Safety.EventOk(sys.sources[a.loader], a.event)
    requires Consulted(sys.sources[a.loader], a.event).Some?
    ensures JoinsWell(sys, a.loader, Joined(sys, a))
  {
    ActiveAfter(sys.sources[a.loader], a.event);
    ActiveIsRegistered(sys, a.loader);
    if a.event.Enable? {
      NewJoinsWell(sys, a.loader);
    } else {
      OldJoinsWell(sys, a.loader);
    }
  }

  lemma ActiveIsRegistered(sys: System, l: LoaderId)
    requires Registered(sys) && l in sys.sources
    ensures l in sys.shares && (l in sys.control.loaders <==> Active(sys.sources[l]))
  {
  }

  lemma OldJoinsWell(sys: System, l: LoaderId)
    requires Registered(sys) && l in sys.shares && l in sys.control.loaders && Consistent(sys.control)
    ensures JoinsWell(sys, l, sys.control)
  {
  }

  lemma NewJoinsWell(sys: System, l: LoaderId)
    requires l in sys.shares && l !in sys.control.loaders && Consistent(sys.control)
    ensures JoinsWell(sys, l, Register(sys.control, l, sys.shares[l]))
  {
    RegisterIsNeutral(sys.control, l, sys.shares[l]);
    RegisterKeepsTotalIff(sys.control, l, sys.shares[l]);
  }

  /** What an update leaves as it was. */
  lemma UpdateKeeps(c: Control, l: LoaderId, r: Report)
    requires l in c.loaders && Consistent(c)
    ensures var c' := Update(c, l, r);
            && c'.loaders.Keys == c.loaders.Keys
            && (forall k :: k in c.loaders ==> c'.loaders[k].contribution == c.loaders[k].contribution)
            && Consistent(c')
  {
    UpdateLoaders(c, l, r);
    UpdateKeepsTotal(c, l, r);
    var c1 := Note(c, l, r);
    RecomputeSettles(c1);
    if c1.loaders[l] == c.loaders[l] && c1.bufferLevel == c.bufferLevel {
      assert c1.loaders == c.loaders;
      assert c1 == c;
    }
  }

  lemma LeaveKeeps(c: Control, l: LoaderId)
    requires l in c.loaders && c.target == Total(c.loaders)
    ensures var c' := Unregister(c, l);
            && c'.loaders == c.loaders - {l}
            && Consistent(c')
  {
    UnregisterKeepsTotal(c, l);
    RecomputeSettles(c.(loaders := c.loaders - {l}, target := c.target - c.loaders[l].contribution));
  }

  lemma SoundAfter(sources: map<LoaderId, Source>, l: LoaderId, s': Source)
    requires AllSound(sources) && Safety.Inv(s')
    ensures AllSound(sources[l := s'])
  {
    var sources' := sources[l := s'];
    forall k | k in sources'
      ensures Safety.Inv(sources'[k])
    {
      if k != l {
        assert sources'[k] == sources[k];
      }
    }
  }

  /** The loader is registered if the source is active now, and nobody else's registration or share
      changed. */
  lemma RegisteredAfter(sys: System, l: LoaderId, s': Source, c': Control)
    requires Registered(sys) && l in sys.sources
    requires c'.loaders.Keys ==
             (if Active(s') then sys.control.loaders.Keys + {l} else sys.control.loaders.Keys - {l})
    requires forall k :: k in c'.loaders ==> k in sys.shares && c'.loaders[k].contribution == sys.shares[k]
    ensures Registered(sys.(control := c', sources := sys.sources[l := s']))
  {
  }

  lemma InvAfter(sys: System, l: LoaderId, s': Source, c': Control)
    requires Inv(sys) && l in sys.sources && Safety.Inv(s') && Consistent(c')
    requires c'.loaders.Keys ==
             (if Active(s') then sys.control.loaders.Keys + {l} else sys.control.loaders.Keys - {l})
    requires forall k :: k in c'.loaders ==> k in sys.shares && c'.loaders[k].contribution == sys.shares[k]
    ensures Inv(sys.(control := c', sources := sys.sources[l := s']))
  {
    SoundAfter(sys.sources, l, s');
    RegisteredAfter(sys, l, s', c');
  }

  lemma ConsultKeepsInv(sys: System, a: Action)
    requires Inv(sys) && ActionOk(sys, a) && Consulted(sys.sources[a.loader], a.event).Some?
    ensures Inv(Step(sys, a))
  {
    var s := sys.sources[a.loader];
    Safety.StepKeepsInv(s, a.event);
    ActiveAfter(s, a.event);
    JoinedIsConsistent(sys, a);
    UpdateKeeps(Joined(sys, a), a.loader, ReportOf(s, a.event, a.inUse));
    InvAfter(sys, a.loader, Safety.Step(s, a.event), Step(sys, a).control);
  }

  lemma LeaveKeepsInv(sys: System, a: Action)
    requires Inv(sys) && ActionOk(sys, a) && Leaves(sys.sources[a.loader], a.event)
    ensures Inv(Step(sys, a))
  {
    var s := sys.sources[a.loader];
    Safety.StepKeepsInv(s, a.event);
    ActiveAfter(s, a.event);
    LeaveKeeps(sys.control, a.loader);
    InvAfter(sys, a.loader, Safety.Step(s, a.event), Step(sys, a).control);
  }

  lemma OtherKeepsInv(sys: System, a: Action)
    requires Inv(sys) && ActionOk(sys, a)
    requires Consulted(sys.sources[a.loader], a.event).None? && !Leaves(sys.sources[a.loader], a.event)
    ensures Inv(Step(sys, a))
  {
    var s := sys.sources[a.loader];
    Safety.StepKeepsInv(s, a.event);
    ActiveAfter(s, a.event);
    SameControlKeepsInv(sys, a.loader, Safety.Step(s, a.event));
  }

  lemma SameControlKeepsInv(sys: System, l: LoaderId, s': Source)
    requires Inv(sys) && l in sys.sources && Safety.Inv(s') && Active(s') == Active(sys.sources[l])
    ensures Inv(sys.(sources := sys.sources[l := s']))
  {
    SoundAfter(sys.sources, l, s');
    SameControlIsRegistered(sys, l, s');
  }

  lemma SameControlIsRegistered(sys: System, l: LoaderId, s': Source)
    requires Registered(sys) && l in sys.sources && Active(s') == Active(sys.sources[l])
    ensures Registered(sys.(sources := sys.sources[l := s']))
  {
  }

  lemma StepKeepsInv(sys: System, a: Action)
    requires Inv(sys) && ActionOk(sys, a)
    ensures Inv(Step(sys, a))
  {
    if Consulted(sys.sources[a.loader], a.event).Some? {
      ConsultKeepsInv(sys, a);
    } else if Leaves(sys.sources[a.loader], a.event) {
      LeaveKeepsInv(sys, a);
    } else {
      OtherKeepsInv(sys, a);
    }
  }

  // ----- Whole runs -----------------------------------------------------------------

  ghost predicate RunOk(sys: System, actions: seq<Action>)
    requires Inv(sys)
    decreases |actions|
  {
    actions == [] ||
    (ActionOk(sys, actions[0]) && (StepKeepsInv(sys, actions[0]); RunOk(Step(sys, actions[0]), actions[1..])))
  }

  ghost function Run(sys: System, actions: seq<Action>): System
    requires Inv(sys) && RunOk(sys, actions)
    decreases |actions|
  {
    if actions == [] then sys
    else
      StepKeepsInv(sys, actions[0]);
      Run(Step(sys, actions[0]), actions[1..])
  }

  /** Sources that have just been created, and a control nobody has registered with. */
  ghost predicate Start(sys: System) {
    && (exists cfg :: sys.control == Initial(cfg))
    && sys.shares.Keys == sys.sources.Keys
    && forall l :: l in sys.sources ==> sys.sources[l] == INITIAL
  }

  lemma StartInv(sys: System)
    requires Start(sys)
    ensures Inv(sys)
  {
    assert AllSound(sys.sources) by {
      Safety.InitialInv();
    }
    assert Registered(sys);
    assert Consistent(sys.control) by {
      var cfg :| sys.control == Initial(cfg);
      InitialSettled(cfg);
    }
  }

  lemma {:induction false} RunKeepsInv(sys: System, actions: seq<Action>)
    requires Inv(sys) && RunOk(sys, actions)
    ensures Inv(Run(sys, actions))
    decreases |actions|
  {
    if actions != [] {
      StepKeepsInv(sys, actions[0]);
      RunKeepsInv(Step(sys, actions[0]), actions[1..]);
    }
  }

  /** What the invariant says to a reader: a loader is registered exactly while its source is enabled
      or disabling, the target buffer size is the sum of the registered shares, and every source
      is safe. */
  ghost predicate InOrder(sys: System) {
    && (forall l :: l in sys.sources ==> (l in sys.control.loaders <==> Active(sys.sources[l])))
    && sys.control.target == Total(sys.control.loaders)
    && (forall l :: l in sys.control.loaders ==>
          l in sys.shares && sys.control.loaders[l].contribution == sys.shares[l])
    && forall l :: l in sys.sources ==> Safety.Safe(sys.sources[l])
  }

  lemma InvIsInOrder(sys: System)
    requires Inv(sys)
    ensures InOrder(sys)
  {
    forall l | l in sys.sources
      ensures Safety.Safe(sys.sources[l])
    {
      Safety.InvIsSafe(sys.sources[l]);
    }
  }

  /** In every run of any number of sources, from the start, the system is in order. */
  lemma SystemStaysConsistent(sys: System, actions: seq<Action>)
    requires Start(sys) && Inv(sys) && RunOk(sys, actions)
    ensures InOrder(Run(sys, actions))
  {
    RunKeepsInv(sys, actions);
    InvIsInOrder(Run(sys, actions));
  }

  // ----- When a load starts ---------------------------------------------------------

  /** Updating the load control starts a load. */
  ghost predicate StartsLoad(c: Core, env: Env) {
    && c.load.loader.Resting? && UpdateOk(c, env)
    && UpdateLoadControl(c, env).load.loader.Loading?
  }

  /** A backed-off chunk is the first of the deque, which is loaded again whatever the chunk source says. */
  predicate RetriesFirst(c: Core) {
    c.HoldsMedia() && c.buffer.chunks != [] && c.load.holder.chunk.value.id == c.buffer.chunks[0].id
  }

  /** A load starts if and only if there is a chunk and the load was granted; or, while backed off, the
      retry is due and there is a chunk, whatever the load control answered. */
  lemma StartsLoadIff(c: Core, env: Env)
    requires c.load.loader.Resting? && UpdateOk(c, env)
    ensures StartsLoad(c, env) <==>
              if c.load.backedOff then env.retryDue && (!env.op.next.Nothing? || RetriesFirst(c))
              else env.granted && Evaluated(c, env).load.holder.chunk.Some?
  {
    if c.load.backedOff && env.retryDue && !RetriesFirst(c) {
      ResumeStartsIff(c, env.op);
    }
  }

  lemma ResumeStartsIff(c: Core, op: Operation)
    requires c.load.loader.Resting? && DiscardOk(c.buffer, op.queueSize) && !RetriesFirst(c)
    requires c.load.holder.chunk.Some? && (c.HoldsMedia() ==> c.buffer.chunks != [])
    ensures ResumeFromBackOff(c, op).load.loader.Loading? <==> !op.next.Nothing?
  {
  }

  /** Nothing else starts a load: a source that is loading after an event was loading the same chunk
      before, or the event updated the load control and that started it. */
  lemma OnlyUpdatesStart(s: Source, e: Safety.Event)
    requires Safety.Inv(s) && Safety.EventOk(s, e) && Safety.Step(s, e).core.load.loader.Loading?
    ensures var loader := Safety.Step(s, e).core.load.loader;
            || (s.core.load.loader.Loading? && loader.chunk == s.core.load.loader.chunk && !e.LoadDone?)
            || (Consulted(s, e).Some? && StartsLoad(Consulted(s, e).value, e.env))
  {
    if Consulted(s, e).Some? {
      ConsultedIsDefined(s, e);
    }
    if e.ReadData? {
      Safety.ReadDefined(s);
      Safety.ReadShape(s, e.positionUs, e.chunkFormat, e.formatFinal, e.forward);
    }
  }

  ghost predicate NonNegative(loaders: map<LoaderId, LoaderState>) {
    forall k :: HasPosition(loaders, k) ==> loaders[k].next >= 0
  }

  /** The action starts a load, reporting `r`. */
  ghost predicate StartsWith(sys: System, a: Action, r: Report)
    requires ActionOk(sys, a)
  {
    var s := sys.sources[a.loader];
    && Consulted(s, a.event).Some? && StartsLoad(Consulted(s, a.event).value, a.event.env)
    && r == ReportOf(s, a.event, a.inUse)
  }

  /** The control is filling and has space, and the reported position is the least one. */
  ghost predicate AtLeastPosition(c: Control, r: Report) {
    && c.filling && r.inUse < c.target
    && forall k :: HasPosition(c.loaders, k) ==> r.next <= c.loaders[k].next
  }

  /** A source that starts a load in the system does so at the least reported position, while the
      control is filling and has space, if and only if the load was granted. Unless the source
      was backed off, it was; a source that was backed off starts because its retry was due. */
  lemma StartsAtLeastPositionIffGranted(sys: System, a: Action, r: Report)
    requires Inv(sys) && ActionOk(sys, a) && StartsWith(sys, a, r) && r.next >= 0
    requires NonNegative(Joined(sys, a).loaders)
    ensures AtLeastPosition(Step(sys, a).control, r) <==> a.event.env.granted
    ensures if Consulted(sys.sources[a.loader], a.event).value.load.backedOff then a.event.env.retryDue
            else a.event.env.granted
  {
    JoinedIsConsistent(sys, a);
    StartReason(sys, a, r);
    LeastIffGranted(Joined(sys, a), a.loader, r);
  }

  lemma StartReason(sys: System, a: Action, r: Report)
    requires ActionOk(sys, a) && StartsWith(sys, a, r)
    ensures var env := a.event.env;
            if Consulted(sys.sources[a.loader], a.event).value.load.backedOff then env.retryDue else env.granted
    ensures a.loader in Joined(sys, a).loaders && ControlAfter(sys, a) == Update(Joined(sys, a), a.loader, r)
    ensures a.event.env.granted == Granted(ControlAfter(sys, a), r)
  {
    StartsLoadIff(Consulted(sys.sources[a.loader], a.event).value, a.event.env);
  }

  lemma LeastIffGranted(c: Control, l: LoaderId, r: Report)
    requires Settled(c) && l in c.loaders && r.next >= 0 && NonNegative(c.loaders)
    ensures AtLeastPosition(Update(c, l, r), r) <==> Granted(Update(c, l, r), r)
  {
    GrantIffLeast(c, l, r);
  }

  // ----- A load that starts without a grant -----------------------------------------

  /** An enabled source with nothing buffered, whose initialization chunk failed and waits to be retried. */
  predicate AwaitsRetry(s: Source) {
    && s.life.phase.Enabled? && s.core.load.loader.Resting? && s.core.buffer.chunks == []
    && s.core.load.backedOff && s.core.load.holder.chunk.Some? && s.core.load.holder.chunk.value.Init?
  }

  /** The retry is due, the chunk source answers with a media chunk, and the control refuses. */
  function Retry(positionUs: int): Safety.Event {
    Safety.ContinueBuffering(positionUs, Env(Operation(0, NewMedia(0, 10), false), false, false, true))
  }

  lemma RetryStarts(s: Source, positionUs: int)
    requires Safety.Inv(s) && AwaitsRetry(s)
    ensures var e := Retry(positionUs);
            && Safety.EventOk(s, e) && Consulted(s, e) == Some(s.core) && StartsLoad(s.core, e.env)
            && Safety.Step(s, e).core.load.loader == Loading(s.core.load.nextId, false)
  {
    Safety.UpdateDefined(s.core, Retry(positionUs).env);
    StartsLoadIff(s.core, Retry(positionUs).env);
  }

  /** With all buffer space in use the load control refuses every load, yet such a source starts one,
      of a new media chunk. */
  lemma RetryNeedsNoGrant(sys: System, a: Action)
    requires Inv(sys) && a.loader in sys.sources && AwaitsRetry(sys.sources[a.loader])
    requires a.event == Retry(0) && sys.control.target <= a.inUse
    ensures ActionOk(sys, a)
    ensures var s := sys.sources[a.loader];
            && Consulted(s, a.event).Some? && StartsWith(sys, a, ReportOf(s, a.event, a.inUse))
            && !AtLeastPosition(Step(sys, a).control, ReportOf(s, a.event, a.inUse))
            && Step(sys, a).sources[a.loader].core.load.loader == Loading(s.core.load.nextId, false)
  {
    ActiveIsRegistered(sys, a.loader);
    RetryStarts(sys.sources[a.loader], 0);
    RetryIsRefused(sys, a);
  }

  lemma RetryIsRefused(sys: System, a: Action)
    requires Present(sys, a.loader) && AwaitsRetry(sys.sources[a.loader])
    requires a.event == Retry(0) && sys.control.target <= a.inUse
    requires Safety.EventOk(sys.sources[a.loader], a.event)
    requires Consulted(sys.sources[a.loader], a.event).Some?
    ensures ActionOk(sys, a)
    ensures !AtLeastPosition(ControlAfter(sys, a), ReportOf(sys.sources[a.loader], a.event, a.inUse))
  {
    RefusedWithoutSpace(sys.control, a.loader, ReportOf(sys.sources[a.loader], a.event, a.inUse));
  }

  lemma RefusedWithoutSpace(c: Control, l: LoaderId, r: Report)
    requires l in c.loaders && c.target <= r.inUse
    ensures !Granted(Update(c, l, r), r) && !AtLeastPosition(Update(c, l, r), r)
  {
  }

  /** There is a consistent system with a source in that state. */
  lemma SomeSourceAwaitsRetry() returns (sys: System)
    ensures Inv(sys) && 0 in sys.sources && AwaitsRetry(sys.sources[0]) && sys.control.target == 10
  {
    var s := FailedInitialization();
    var c := OneLoader();
    sys := System(c, map[0 := s], map[0 := 10]);
    SoundAfter(map[], 0, s);
    assert map[][0 := s] == sys.sources;
    assert Registered(sys);
  }

  lemma FailedInitialization() returns (s: Source)
    ensures Safety.Inv(s) && AwaitsRetry(s)
  {
    Safety.InitialInv();
    var load := Load(0, false, Holder(Some(Init(0)), true, 0), true, 1, Resting, 1);
    s := Source(Life(Enabled, 1, false, None, [], []), INITIAL.play, Core(INITIAL.core.buffer, load));
    FailedIsSound(INITIAL, s);
  }

  lemma FailedIsSound(initial: Source, s: Source)
    requires Safety.Inv(initial) && initial.core.buffer.chunks == [] && s.core.buffer == initial.core.buffer
    requires AwaitsRetry(s) && s.life == Life(Enabled, 1, false, None, [], []) && s.core.IsPendingReset()
    requires s.core.load.holder.owned && s.core.load.holder.chunk.value.id < s.core.load.nextId
    ensures Safety.Inv(s)
  {
    assert Safety.HolderOk(s.core);
    assert Safety.PhaseOk(s);
    assert Safety.CallbacksOk(s.life);
  }

  lemma OneLoader() returns (c: Control)
    ensures Consistent(c) && c.loaders.Keys == {0} && c.loaders[0].contribution == 10 && c.target == 10
  {
    var cfg := Config(0, 0, 0.0, 0.0);
    InitialSettled(cfg);
    RegisterIsNeutral(Initial(cfg), 0, 10);
    RegisterKeepsTotalIff(Initial(cfg), 0, 10);
    c := Register(Initial(cfg), 0, 10);
  }
}
