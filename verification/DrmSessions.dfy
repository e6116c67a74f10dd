/**
 Licence sessions: producers request licences, one worker thread opens sessions and fetches
 the licences, consumers join a request and wait for its outcome, and the destructor closes
 what is open. Each atomic step of the three parties is a step of one machine; what is
 proved holds for every interleaving.
 */
module DrmSessions {
  type Pssh = string

  /** The record of a request: the session, empty while or if there is none, and whether waiting
      consumers have been woken. */
  datatype Context = Context(sessionId: string, signaled: bool)

  datatype Worker =
    | Idle
    | Opening(pssh: Pssh)
    | Fetching(pssh: Pssh, id: string)
    | Closing(pssh: Pssh, id: string)
    | Publishing(pssh: Pssh, id: string)

  datatype Join =
    | Waiting(pssh: Pssh)
    | Returned(pssh: Pssh, verdict: bool)

  /** What the decryption module has seen: calls to open and to fetch, by request; sessions opened and
      closed; and which requests got a session and which a licence. */
  datatype Log = Log(
    openCalls: multiset<Pssh>,
    fetchCalls: multiset<Pssh>,
    openedIds: multiset<string>,
    closedIds: multiset<string>,
    sessions: map<Pssh, string>,
    licensed: set<Pssh>)

  /** What the decryption module answers to one request. */
  datatype Answer = Answer(opens: bool, id: string, fetches: bool)

  datatype Phase = Running | Stopped(unclosed: set<Pssh>)

  datatype Manager = Manager(
    configured: bool,
    contexts: map<Pssh, Context>,
    tasks: seq<Pssh>,
    worker: Worker,
    joins: map<nat, Join>,
    phase: Phase,
    log: Log)

  datatype Event =
    | Request(pssh: Pssh)
    | Take
    | OpenDone(success: bool, id: string)
    | FetchDone(success: bool)
    | CloseDone
    | Publish
    | JoinEnter(caller: nat, pssh: Pssh)
    | JoinWake(caller: nat)
    | Stop
    | CloseSession(pssh: Pssh)

  /** When a step can happen: calls only while the manager lives, a join only after its request, a
      wake-up only after the signal; stopping waits for the worker to finish its tasks. */
  predicate Enabled(s: Manager, e: Event) {
    match e
    case Request(_) => s.phase.Running?
    case Take => s.worker.Idle? && s.tasks != []
    case OpenDone(_, _) => s.worker.Opening?
    case FetchDone(_) => s.worker.Fetching?
    case CloseDone => s.worker.Closing?
    case Publish => s.worker.Publishing? && s.worker.pssh in s.contexts
    case JoinEnter(caller, pssh) => s.phase.Running? && caller !in s.joins && pssh in s.contexts
    case JoinWake(caller) =>
      && s.phase.Running? && caller in s.joins && s.joins[caller].Waiting?
      && s.joins[caller].pssh in s.contexts && s.contexts[s.joins[caller].pssh].signaled
    case Stop =>
      && s.phase.Running? && s.worker.Idle? && s.tasks == []
      && forall j :: j in s.joins ==> s.joins[j].Returned?
    case CloseSession(pssh) => s.phase.Stopped? && pssh in s.phase.unclosed && pssh in s.contexts
  }

  function Requested(s: Manager, pssh: Pssh): Manager {
    if !s.configured || pssh in s.contexts then s
    else s.(contexts := s.contexts[pssh := Context("", false)], tasks := s.tasks + [pssh])
  }

  function WorkerStep(s: Manager, e: Event): Manager
    requires Enabled(s, e) && (e.Take? || e.OpenDone? || e.FetchDone? || e.CloseDone? || e.Publish?)
  {
    match e
    case Take => s.(worker := Opening(s.tasks[0]), tasks := s.tasks[1..])
    case OpenDone(success, id) =>
      var p := s.worker.pssh;
      var log := s.log.(openCalls := s.log.openCalls + multiset{p});
      if success then
        s.(worker := Fetching(p, id),
           log := log.(openedIds := log.openedIds + multiset{id}, sessions := log.sessions[p := id]))
      else s.(worker := Publishing(p, ""), log := log)
    case FetchDone(success) =>
      var p := s.worker.pssh;
      var log := s.log.(fetchCalls := s.log.fetchCalls + multiset{p});
      if success then s.(worker := Publishing(p, s.worker.id), log := log.(licensed := log.licensed + {p}))
      else s.(worker := Closing(p, s.worker.id), log := log)
    case CloseDone =>
      s.(worker := Publishing(s.worker.pssh, ""), log := s.log.(closedIds := s.log.closedIds + multiset{s.worker.id}))
    case Publish =>
      s.(worker := Idle, contexts := s.contexts[s.worker.pssh := Context(s.worker.id, true)])
  }

  function Step(s: Manager, e: Event): Manager
    requires Enabled(s, e)
  {
    match e
    case Request(pssh) => Requested(s, pssh)
    case JoinEnter(caller, pssh) =>
      s.(joins := s.joins[caller := if s.contexts[pssh].sessionId != "" then Returned(pssh, true) else Waiting(pssh)])
    case JoinWake(caller) =>
      var pssh := s.joins[caller].pssh;
      s.(joins := s.joins[caller := Returned(pssh, s.contexts[pssh].sessionId != "")])
    case Stop => s.(phase := Stopped(s.contexts.Keys))
    case CloseSession(pssh) =>
      s.(phase := Stopped(s.phase.unclosed - {pssh}),
         log := s.log.(closedIds := s.log.closedIds + multiset{s.contexts[pssh].sessionId}))
    case Take | OpenDone(_, _) | FetchDone(_) | CloseDone | Publish => WorkerStep(s, e)
  }

  // ----- Invariants -----------------------------------------------------------------

  /** Open and fetch both succeeded, and the session has an id. */
  ghost predicate Granted(s: Manager, p: Pssh) {
    p in s.log.sessions && s.log.sessions[p] != "" && p in s.log.licensed
  }

  /** How often a request is still waiting for the worker. */
  ghost predicate Pending(s: Manager, p: Pssh) {
    p in s.tasks || (!s.worker.Idle? && s.worker.pssh == p)
  }

  /** Each request is posted once, and the worker is at one of them. */
  ghost predicate TasksOk(s: Manager) {
    && (forall i, j :: 0 <= i < j < |s.tasks| ==> s.tasks[i] != s.tasks[j])
    && (!s.worker.Idle? ==> s.worker.pssh !in s.tasks)
    && (forall p :: Pending(s, p) ==> p in s.contexts)
    && (s.phase.Stopped? ==> s.worker.Idle? && s.tasks == [] && s.phase.unclosed <= s.contexts.Keys)
  }

  /** What is known of one request. */
  ghost predicate RequestOk(s: Manager, p: Pssh) {
    && s.log.openCalls[p] == (if p !in s.contexts || p in s.tasks || s.worker == Opening(p) then 0 else 1)
    && s.log.fetchCalls[p] == (if p !in s.log.sessions || (s.worker.Fetching? && s.worker.pssh == p) then 0 else 1)
    && (p in s.log.sessions ==> s.log.openCalls[p] == 1)
    && (p in s.log.licensed ==> s.log.fetchCalls[p] == 1)
    && (p in s.contexts ==>
          && (s.contexts[p].signaled <==> !Pending(s, p))
          && (s.contexts[p].sessionId != "" <==> s.contexts[p].signaled && Granted(s, p)))
  }

  ghost predicate WorkerOk(s: Manager) {
    match s.worker
    case Idle => true
    case Opening(p) => true
    case Fetching(p, id) => p in s.log.sessions && s.log.sessions[p] == id
    case Closing(p, id) => !Granted(s, p)
    case Publishing(p, id) => id != "" <==> Granted(s, p)
  }

  /** A join that returned gave the right verdict; one that waits waits for a request that was made. */
  ghost predicate JoinOk(s: Manager, j: Join) {
    && j.pssh in s.contexts
    && (j.Returned? ==> s.contexts[j.pssh].signaled && (j.verdict <==> Granted(s, j.pssh)))
  }

  ghost predicate Inv(s: Manager) {
    && TasksOk(s) && WorkerOk(s)
    && (forall p :: RequestOk(s, p))
    && (forall j :: j in s.joins ==> JoinOk(s, s.joins[j]))
  }

  lemma RequestKeepsInv(s: Manager, pssh: Pssh)
    requires Inv(s) && Enabled(s, Request(pssh))
    ensures Inv(Requested(s, pssh))
  {
    var u := Requested(s, pssh);
    if u != s {
      assert RequestOk(s, pssh);
      assert forall p :: Pending(u, p) <==> Pending(s, p) || p == pssh;
      forall p
        ensures RequestOk(u, p)
      {
        assert RequestOk(s, p);
      }
    }
  }

  lemma TakeKeepsInv(s: Manager)
    requires Inv(s) && Enabled(s, Take)
    ensures Inv(WorkerStep(s, Take))
  {
    var u := WorkerStep(s, Take);
    assert s.tasks == [s.tasks[0]] + u.tasks;
    assert forall p :: Pending(u, p) <==> Pending(s, p);
    forall p
      ensures RequestOk(u, p)
    {
      assert RequestOk(s, p);
    }
  }

  lemma OpenKeepsInv(s: Manager, success: bool, id: string)
    requires Inv(s) && Enabled(s, OpenDone(success, id))
    ensures Inv(WorkerStep(s, OpenDone(success, id)))
  {
    var u := WorkerStep(s, OpenDone(success, id));
    var q := s.worker.pssh;
    assert Pending(s, q) && RequestOk(s, q);
    assert forall p :: Pending(u, p) <==> Pending(s, p);
    forall p
      ensures RequestOk(u, p)
    {
      assert RequestOk(s, p);
    }
  }

  lemma FetchKeepsInv(s: Manager, success: bool)
    requires Inv(s) && Enabled(s, FetchDone(success))
    ensures Inv(WorkerStep(s, FetchDone(success)))
  {
    var u := WorkerStep(s, FetchDone(success));
    var q := s.worker.pssh;
    assert Pending(s, q) && RequestOk(s, q);
    assert forall p :: Pending(u, p) <==> Pending(s, p);
    forall p
      ensures RequestOk(u, p)
    {
      assert RequestOk(s, p);
    }
  }

  lemma CloseKeepsInv(s: Manager)
    requires Inv(s) && Enabled(s, CloseDone)
    ensures Inv(WorkerStep(s, CloseDone))
  {
    var u := WorkerStep(s, CloseDone);
    var q := s.worker.pssh;
    assert Pending(s, q) && RequestOk(s, q);
    assert forall p :: Pending(u, p) <==> Pending(s, p);
    forall p
      ensures RequestOk(u, p)
    {
      assert RequestOk(s, p);
    }
  }

  lemma PublishKeepsInv(s: Manager)
    requires Inv(s) && Enabled(s, Publish)
    ensures Inv(WorkerStep(s, Publish))
  {
    var u := WorkerStep(s, Publish);
    var q := s.worker.pssh;
    assert Pending(s, q) && RequestOk(s, q);
    assert forall p :: Pending(u, p) <==> Pending(s, p) && p != q;
    forall p
      ensures RequestOk(u, p)
    {
      assert RequestOk(s, p);
    }
  }

  lemma StepKeepsInv(s: Manager, e: Event)
    requires Inv(s) && Enabled(s, e)
    ensures Inv(Step(s, e))
  {
    match e
    case Request(pssh) => RequestKeepsInv(s, pssh);
    case Take => TakeKeepsInv(s);
    case OpenDone(success, id) => OpenKeepsInv(s, success, id);
    case FetchDone(success) => FetchKeepsInv(s, success);
    case CloseDone => CloseKeepsInv(s);
    case Publish => PublishKeepsInv(s);
    case JoinEnter(_, pssh) => OtherKeepsInv(s, e, pssh);
    case JoinWake(caller) => OtherKeepsInv(s, e, s.joins[caller].pssh);
    case Stop => OtherKeepsInv(s, e, "");
    case CloseSession(pssh) => OtherKeepsInv(s, e, pssh);
  }

  lemma OtherKeepsInv(s: Manager, e: Event, pssh: Pssh)
    requires Inv(s) && Enabled(s, e) && (e.JoinEnter? || e.JoinWake? || e.Stop? || e.CloseSession?)
    requires (e.JoinEnter? ==> pssh == e.pssh) && (e.JoinWake? ==> pssh == s.joins[e.caller].pssh)
    ensures Inv(Step(s, e))
  {
    var u := Step(s, e);
    assert RequestOk(s, pssh);
    assert forall p :: Pending(u, p) <==> Pending(s, p);
    forall p
      ensures RequestOk(u, p)
    {
      assert RequestOk(s, p);
    }
  }

  // ----- Sessions are not lost ------------------------------------------------------

  /** The requests whose session with this id the manager still has to close. */
  ghost function Holders(s: Manager, id: string): set<Pssh> {
    set p | p in s.contexts && (s.phase.Running? || p in s.phase.unclosed) && s.contexts[p].sessionId == id
  }

  ghost function InWorker(s: Manager, id: string): nat {
    if (s.worker.Fetching? || s.worker.Closing? || s.worker.Publishing?) && s.worker.id == id then 1 else 0
  }

  /** Every session opened is closed, in the hands of the worker, or held. */
  ghost predicate Conserved(s: Manager, id: string) {
    s.log.openedIds[id] == s.log.closedIds[id] + InWorker(s, id) + |Holders(s, id)|
  }

  lemma StepConserves(s: Manager, e: Event, id: string)
    requires Inv(s) && Enabled(s, e) && id != "" && Conserved(s, id)
    ensures Conserved(Step(s, e), id)
  {
    match e
    case Request(pssh) => RequestConserves(s, pssh, id);
    case Publish => PublishConserves(s, id);
    case CloseSession(pssh) => CloseConserves(s, pssh, id);
    case Take | OpenDone(_, _) | FetchDone(_) | CloseDone => CallConserves(s, e, id);
    case JoinEnter(_, _) | JoinWake(_) | Stop => SameHolders(s, Step(s, e), id);
  }

  lemma SameHolders(s: Manager, u: Manager, id: string)
    requires u.contexts == s.contexts
    requires s.phase == u.phase || (s.phase.Running? && u.phase == Stopped(s.contexts.Keys))
    ensures Holders(u, id) == Holders(s, id)
  {
  }

  lemma RequestConserves(s: Manager, pssh: Pssh, id: string)
    requires Conserved(s, id) && id != "" && s.phase.Running?
    ensures Conserved(Requested(s, pssh), id)
  {
    assert Holders(Requested(s, pssh), id) == Holders(s, id);
  }

  lemma CloseConserves(s: Manager, pssh: Pssh, id: string)
    requires Enabled(s, CloseSession(pssh)) && Conserved(s, id)
    ensures Conserved(Step(s, CloseSession(pssh)), id)
  {
    assert Holders(Step(s, CloseSession(pssh)), id) == Holders(s, id) - {pssh};
  }

  lemma PublishConserves(s: Manager, id: string)
    requires Inv(s) && Enabled(s, Publish) && id != "" && Conserved(s, id)
    ensures Conserved(WorkerStep(s, Publish), id)
  {
    var p := s.worker.pssh;
    assert RequestOk(s, p) && Pending(s, p);
    PublishedHolders(s, id);
  }

  lemma PublishedHolders(s: Manager, id: string)
    requires Enabled(s, Publish) && s.phase.Running? && id != "" && s.contexts[s.worker.pssh].sessionId == ""
    ensures s.worker.pssh !in Holders(s, id)
    ensures Holders(WorkerStep(s, Publish), id) == Holders(s, id) + if s.worker.id == id then {s.worker.pssh} else {}
  {
  }

  lemma CallConserves(s: Manager, e: Event, id: string)
    requires Enabled(s, e) && (e.Take? || e.OpenDone? || e.FetchDone? || e.CloseDone?) && id != "" && Conserved(s, id)
    ensures Conserved(WorkerStep(s, e), id)
  {
    SameHolders(s, WorkerStep(s, e), id);
    if e.OpenDone? {
      assert !e.success ==> WorkerStep(s, e).log.openedIds == s.log.openedIds;
    }
  }

  // ----- Runs -----------------------------------------------------------------------

  ghost predicate Reaches(s: Manager, events: seq<Event>, u: Manager)
    decreases |events|
  {
    if events == [] then s == u else Enabled(s, events[0]) && Reaches(Step(s, events[0]), events[1..], u)
  }

  function Initial(configured: bool): Manager {
    Manager(configured, map[], [], Idle, map[], Running, Log(multiset{}, multiset{}, multiset{}, multiset{}, map[], {}))
  }

  lemma {:induction false} RunKeepsInv(s: Manager, events: seq<Event>, u: Manager)
    requires Inv(s) && Reaches(s, events, u)
    requires forall id :: id != "" ==> Conserved(s, id)
    ensures Inv(u)
    ensures forall id :: id != "" ==> Conserved(u, id)
    decreases |events|
  {
    if events != [] {
      StepKeepsInv(s, events[0]);
      forall id | id != ""
        ensures Conserved(Step(s, events[0]), id)
      {
        StepConserves(s, events[0], id);
      }
      RunKeepsInv(Step(s, events[0]), events[1..], u);
    }
  }

  lemma RunFromStart(configured: bool, events: seq<Event>, u: Manager)
    requires Reaches(Initial(configured), events, u)
    ensures Inv(u)
    ensures forall id :: id != "" ==> Conserved(u, id)
  {
    var s := Initial(configured);
    assert forall id :: Holders(s, id) == {};
    RunKeepsInv(s, events, u);
  }

  /** In every interleaving each request opens at most one session and fetches at most one licence. */
  lemma OneFetchPerRequest(configured: bool, events: seq<Event>, u: Manager, p: Pssh)
    requires Reaches(Initial(configured), events, u)
    ensures u.log.openCalls[p] <= 1 && u.log.fetchCalls[p] <= 1
  {
    RunFromStart(configured, events, u);
    assert RequestOk(u, p);
  }

  /** In every interleaving a join that has returned said exactly whether open and fetch succeeded;
      all joins on one request agree, whenever they returned. */
  lemma JoinTellsOutcome(configured: bool, events: seq<Event>, u: Manager, a: nat)
    requires Reaches(Initial(configured), events, u) && a in u.joins && u.joins[a].Returned?
    ensures u.joins[a].verdict <==> Granted(u, u.joins[a].pssh)
    ensures forall b :: b in u.joins && u.joins[b].Returned? && u.joins[b].pssh == u.joins[a].pssh ==>
                          u.joins[b].verdict == u.joins[a].verdict
  {
    RunFromStart(configured, events, u);
    assert JoinOk(u, u.joins[a]);
    forall b | b in u.joins && u.joins[b].Returned? && u.joins[b].pssh == u.joins[a].pssh
      ensures u.joins[b].verdict == u.joins[a].verdict
    {
      assert JoinOk(u, u.joins[b]);
    }
  }

  /** Once a request is decided, no later step changes its session, its outcome or its signal. */
  lemma VerdictIsFinal(s: Manager, e: Event, p: Pssh)
    requires Inv(s) && Enabled(s, e) && p in s.contexts && s.contexts[p].signaled
    ensures var u := Step(s, e);
            p in u.contexts && u.contexts[p] == s.contexts[p] && (Granted(u, p) <==> Granted(s, p))
  {
    assert RequestOk(s, p);
    assert !Pending(s, p);
  }

  lemma {:induction false} VerdictNeverChanges(s: Manager, events: seq<Event>, u: Manager, p: Pssh)
    requires Inv(s) && Reaches(s, events, u) && p in s.contexts && s.contexts[p].signaled
    ensures p in u.contexts && u.contexts[p] == s.contexts[p] && (Granted(u, p) <==> Granted(s, p))
    decreases |events|
  {
    if events != [] {
      StepKeepsInv(s, events[0]);
      VerdictIsFinal(s, events[0], p);
      VerdictNeverChanges(Step(s, events[0]), events[1..], u, p);
    }
  }

  /** When the manager is gone, every session with an id has been closed as often as it was opened:
      exactly once, if the ids are distinct. */
  lemma EverySessionIsClosed(configured: bool, events: seq<Event>, u: Manager, id: string)
    requires Reaches(Initial(configured), events, u) && u.phase == Stopped({}) && id != ""
    ensures u.log.closedIds[id] == u.log.openedIds[id]
  {
    RunFromStart(configured, events, u);
    assert Holders(u, id) == {};
    assert Conserved(u, id);
  }

  // ----- Progress -------------------------------------------------------------------

  /** How many steps the worker has left at most. */
  function WorkLeft(s: Manager): nat {
    5 * |s.tasks| +
    match s.worker
    case Idle => 0
    case Opening(_) => 4
    case Fetching(_, _) => 3
    case Closing(_, _) => 2
    case Publishing(_, _) => 1
  }

  predicate IsWorkerStep(e: Event) {
    e.Take? || e.OpenDone? || e.FetchDone? || e.CloseDone? || e.Publish?
  }

  /** Every step of the worker leaves less to do, and only a new request adds work. */
  lemma WorkShrinks(s: Manager, e: Event)
    requires Enabled(s, e) && !e.Request?
    ensures if IsWorkerStep(e) then WorkLeft(Step(s, e)) < WorkLeft(s) else WorkLeft(Step(s, e)) == WorkLeft(s)
  {
  }

  /** A consumer that waits is not forgotten: until it can wake, the worker can step, whatever the
      decryption module answers. */
  lemma WaitersAreServed(s: Manager, caller: nat) returns (e: Event)
    requires Inv(s) && s.phase.Running? && caller in s.joins && s.joins[caller].Waiting?
    ensures Enabled(s, e) && (e == JoinWake(caller) || IsWorkerStep(e))
  {
    var p := s.joins[caller].pssh;
    assert JoinOk(s, s.joins[caller]) && RequestOk(s, p);
    if s.contexts[p].signaled {
      return JoinWake(caller);
    }
    assert Pending(s, p);
    assert Pending(s, if s.worker.Idle? then p else s.worker.pssh);
    e := match s.worker
      case Idle => Take
      case Opening(_) => OpenDone(false, "")
      case Fetching(_, _) => FetchDone(false)
      case Closing(_, _) => CloseDone
      case Publishing(_, _) => Publish;
  }

  function WorkerSteps(events: seq<Event>): nat {
    if events == [] then 0 else (if IsWorkerStep(events[0]) then 1 else 0) + WorkerSteps(events[1..])
  }

  /** In a run without new requests the worker takes at most as many steps as it had left, and a
      consumer that still waits once no work is left can wake: so it waits for at most that many
      steps of the worker. */
  lemma {:induction false} WaiterCanWakeWithinWorkLeft(s: Manager, events: seq<Event>, u: Manager, caller: nat)
    requires Inv(s) && Reaches(s, events, u) && forall i :: 0 <= i < |events| ==> !events[i].Request?
    ensures Inv(u) && WorkLeft(u) + WorkerSteps(events) <= WorkLeft(s)
    ensures u.phase.Running? && caller in u.joins && u.joins[caller].Waiting? && WorkLeft(u) == 0 ==>
              Enabled(u, JoinWake(caller))
    decreases |events|
  {
    if events == [] {
      if s.phase.Running? && caller in s.joins && s.joins[caller].Waiting? && WorkLeft(s) == 0 {
        var e := WaitersAreServed(s, caller);
      }
    } else {
      StepKeepsInv(s, events[0]);
      WorkShrinks(s, events[0]);
      WaiterCanWakeWithinWorkLeft(Step(s, events[0]), events[1..], u, caller);
    }
  }
}
