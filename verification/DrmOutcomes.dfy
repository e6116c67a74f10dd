/**
 What becomes of a request, told by the events alone: the requests in the order they were first
 made, and the answers of the decryption module in the order they came. The worker serves
 the requests in order, each once, and a join tells what was answered to its request.
 */
module DrmOutcomes {
  import opened DrmSessions

  ghost predicate StepsTo(s: Manager, e: Event, u: Manager) {
    Enabled(s, e) && u == Step(s, e)
  }

  ghost predicate IsRun(configured: bool, states: seq<Manager>, events: seq<Event>) {
    && |states| == |events| + 1 && states[0] == Initial(configured)
    && forall i :: 0 <= i < |events| ==> StepsTo(states[i], events[i], states[i + 1])
  }

  // ----- What the events say --------------------------------------------------------

  /** The requests among the first `i` events, each where it was first made. */
  function Requests(events: seq<Event>, i: nat): seq<Pssh>
    requires i <= |events|
  {
    if i == 0 then [] else WithRequest(Requests(events, i - 1), events[i - 1])
  }

  function WithRequest(made: seq<Pssh>, e: Event): seq<Pssh> {
    if e.Request? && e.pssh !in made then made + [e.pssh] else made
  }

  /** The answers among the first `i` events. */
  function Answers(events: seq<Event>, i: nat): seq<Answer>
    requires i <= |events|
  {
    if i == 0 then [] else WithAnswer(Answers(events, i - 1), events[i - 1])
  }

  function WithAnswer(given: seq<Answer>, e: Event): seq<Answer> {
    match e
    case OpenDone(success, id) => given + [Answer(success, id, false)]
    case FetchDone(success) =>
      if given == [] then [] else given[..|given| - 1] + [given[|given| - 1].(fetches := success)]
    case _ => given
  }

  /** The ids of the sessions opened. */
  function OpenedIds(answers: seq<Answer>): multiset<string> {
    if answers == [] then multiset{}
    else
      var last := answers[|answers| - 1];
      OpenedIds(answers[..|answers| - 1]) + if last.opens then multiset{last.id} else multiset{}
  }

  lemma {:induction false} RequestsAre(events: seq<Event>, i: nat, p: Pssh)
    requires i <= |events|
    ensures p in Requests(events, i) <==> exists k :: 0 <= k < i && events[k] == Request(p)
  {
    if i > 0 {
      RequestsAre(events, i - 1, p);
    }
  }

  // ----- The manager follows --------------------------------------------------------

  /** What the log says of a request is what was answered. */
  ghost predicate Known(s: Manager, p: Pssh, a: Answer) {
    && (p in s.log.sessions <==> a.opens)
    && (a.opens ==> s.log.sessions[p] == a.id)
    && (p in s.log.licensed <==> a.opens && a.fetches)
  }

  /** The worker is at the request after those it has finished. */
  ghost predicate AtWork(s: Manager, order: seq<Pssh>, answers: seq<Answer>) {
    && |s.tasks| <= |order| && s.tasks == order[|order| - |s.tasks|..]
    && var next := |order| - |s.tasks|;
       match s.worker
       case Idle => |answers| == next
       case Opening(p) => |answers| == next - 1 && p == order[next - 1]
       case Fetching(p, id) =>
         && |answers| == next && next > 0 && p == order[next - 1]
         && answers[next - 1] == Answer(true, id, false)
       case Closing(p, _) => |answers| == next && next > 0 && p == order[next - 1]
       case Publishing(p, _) => |answers| == next && next > 0 && p == order[next - 1]
  }

  ghost predicate Distinct(order: seq<Pssh>) {
    forall i, j :: 0 <= i < j < |order| ==> order[i] != order[j]
  }

  ghost predicate Follows(s: Manager, order: seq<Pssh>, answers: seq<Answer>) {
    && Distinct(order) && (forall p :: p in s.contexts <==> p in order)
    && AtWork(s, order, answers)
    && (forall i :: 0 <= i < |answers| ==> Known(s, order[i], answers[i]))
    && (forall p :: p in s.log.sessions || p in s.log.licensed ==> p in order[..|answers|])
    && s.log.openedIds == OpenedIds(answers)
  }

  lemma StepFollows(s: Manager, e: Event, u: Manager, order: seq<Pssh>, answers: seq<Answer>)
    requires StepsTo(s, e, u) && Follows(s, order, answers)
    ensures u.configured == s.configured
    ensures Follows(u, if s.configured then WithRequest(order, e) else order, WithAnswer(answers, e))
  {
    match e
    case Request(p) => RequestFollows(s, p, order, answers);
    case Take => TakeFollows(s, order, answers);
    case OpenDone(success, id) => OpenFollows(s, success, id, order, answers);
    case FetchDone(success) => FetchFollows(s, success, order, answers);
    case _ => OtherFollows(s, e, order, answers);
  }

  lemma OtherFollows(s: Manager, e: Event, order: seq<Pssh>, answers: seq<Answer>)
    requires Follows(s, order, answers) && Enabled(s, e)
    requires !e.Request? && !e.Take? && !e.OpenDone? && !e.FetchDone?
    ensures Follows(Step(s, e), order, answers)
  {
    var u := Step(s, e);
    assert u.contexts.Keys == s.contexts.Keys;
    SameLogFollows(s, u, order, answers);
  }

  /** Nothing was requested, and the log says the same of every request. */
  lemma SameLogFollows(s: Manager, u: Manager, order: seq<Pssh>, answers: seq<Answer>)
    requires Follows(s, order, answers) && AtWork(u, order, answers) && u.contexts.Keys == s.contexts.Keys
    requires u.log.sessions == s.log.sessions && u.log.licensed == s.log.licensed && u.log.openedIds == s.log.openedIds
    ensures Follows(u, order, answers)
  {
    forall p
      ensures p in u.contexts <==> p in order
    {
      assert p in u.contexts.Keys <==> p in s.contexts.Keys;
    }
    forall i | 0 <= i < |answers|
      ensures Known(u, order[i], answers[i])
    {
      assert Known(s, order[i], answers[i]);
    }
  }

  lemma RequestFollows(s: Manager, p: Pssh, order: seq<Pssh>, answers: seq<Answer>)
    requires Follows(s, order, answers)
    ensures Follows(Requested(s, p), if s.configured && p !in order then order + [p] else order, answers)
  {
    if s.configured && p !in order {
      var more := order + [p];
      assert more[..|answers|] == order[..|answers|];
    }
  }

  lemma TakeFollows(s: Manager, order: seq<Pssh>, answers: seq<Answer>)
    requires Follows(s, order, answers) && Enabled(s, Take)
    ensures Follows(WorkerStep(s, Take), order, answers)
  {
    SameLogFollows(s, WorkerStep(s, Take), order, answers);
  }

  lemma OpenFollows(s: Manager, success: bool, id: string, order: seq<Pssh>, answers: seq<Answer>)
    requires Follows(s, order, answers) && Enabled(s, OpenDone(success, id))
    ensures Follows(WorkerStep(s, OpenDone(success, id)), order, answers + [Answer(success, id, false)])
  {
    var more, u := answers + [Answer(success, id, false)], WorkerStep(s, OpenDone(success, id));
    var p := s.worker.pssh;
    assert more[..|more| - 1] == answers;
    assert order[..|more|] == order[..|answers|] + [p];
    assert p !in order[..|answers|];
    forall i | 0 <= i < |more|
      ensures Known(u, order[i], more[i])
    {
      assert i < |answers| ==> Known(s, order[i], answers[i]);
    }
  }

  lemma FetchFollows(s: Manager, success: bool, order: seq<Pssh>, answers: seq<Answer>)
    requires Follows(s, order, answers) && Enabled(s, FetchDone(success))
    ensures answers != []
    ensures Follows(WorkerStep(s, FetchDone(success)), order, WithAnswer(answers, FetchDone(success)))
  {
    var u, more := WorkerStep(s, FetchDone(success)), WithAnswer(answers, FetchDone(success));
    FetchKnown(s, success, order, answers);
    assert more[..|more| - 1] == answers[..|answers| - 1];
    assert OpenedIds(more) == OpenedIds(answers);
    assert AtWork(u, order, more);
    assert order[|answers| - 1] in order[..|answers|];
    forall p | p in u.log.sessions || p in u.log.licensed
      ensures p in order[..|more|]
    {
      assert p in s.log.sessions || p in s.log.licensed;
    }
  }

  lemma FetchKnown(s: Manager, success: bool, order: seq<Pssh>, answers: seq<Answer>)
    requires Distinct(order) && AtWork(s, order, answers) && Enabled(s, FetchDone(success))
    requires forall i :: 0 <= i < |answers| ==> Known(s, order[i], answers[i])
    ensures var more := WithAnswer(answers, FetchDone(success));
            |more| == |answers| <= |order| &&
            forall i :: 0 <= i < |more| ==> Known(WorkerStep(s, FetchDone(success)), order[i], more[i])
  {
    var u, more := WorkerStep(s, FetchDone(success)), WithAnswer(answers, FetchDone(success));
    forall i | 0 <= i < |more|
      ensures Known(u, order[i], more[i])
    {
      assert Known(s, order[i], answers[i]);
    }
  }

  // ----- Runs -----------------------------------------------------------------------

  /** The state is sound, and what it knows is what the events say. */
  ghost predicate Sound(configured: bool, s: Manager, events: seq<Event>, i: nat)
    requires i <= |events|
  {
    && Inv(s) && s.configured == configured
    && Follows(s, if configured then Requests(events, i) else [], Answers(events, i))
  }

  lemma StepIsSound(configured: bool, s: Manager, u: Manager, events: seq<Event>, i: nat)
    requires i < |events| && StepsTo(s, events[i], u) && Sound(configured, s, events, i)
    ensures Sound(configured, u, events, i + 1)
  {
    StepKeepsInv(s, events[i]);
    StepFollows(s, events[i], u, if configured then Requests(events, i) else [], Answers(events, i));
  }

  lemma {:induction false} RunIsSound(configured: bool, states: seq<Manager>, events: seq<Event>, i: nat)
    requires IsRun(configured, states, events) && i < |states|
    ensures Sound(configured, states[i], events, i)
  {
    if i > 0 {
      RunIsSound(configured, states, events, i - 1);
      StepIsSound(configured, states[i - 1], states[i], events, i - 1);
    }
  }

  /** In every run, a request has a context if and only if the manager is configured and the request was
      made. Once the worker has no work left, each request made has been opened once, and fetched
      once if it could be opened; nothing else has. */
  lemma RequestsAreServed(configured: bool, states: seq<Manager>, events: seq<Event>, i: nat, p: Pssh)
    requires IsRun(configured, states, events) && i < |states|
    ensures var s := states[i];
            var made := configured && exists k :: 0 <= k < i && events[k] == Request(p);
            && (p in s.contexts <==> made)
            && (WorkLeft(s) == 0 ==>
                  && s.log.openCalls[p] == (if made then 1 else 0)
                  && s.log.fetchCalls[p] == (if p in s.log.sessions then 1 else 0))
            && (!made ==> s.log.openCalls[p] == 0 && s.log.fetchCalls[p] == 0)
  {
    RunIsSound(configured, states, events, i);
    RequestsAre(events, i, p);
    assert RequestOk(states[i], p);
    assert p in states[i].contexts <==> p in if configured then Requests(events, i) else [];
  }

  /** In every run, a join that has returned said yes if and only if the answers to its request, which are
      as far down the list of answers as the request is down the list of requests, were a session
      with an id and a licence. */
  lemma JoinTellsAnswers(configured: bool, states: seq<Manager>, events: seq<Event>, i: nat, caller: nat)
    requires IsRun(configured, states, events) && i < |states|
    requires caller in states[i].joins && states[i].joins[caller].Returned?
    ensures exists k :: && 0 <= k < |Answers(events, i)| <= |Requests(events, i)|
                        && Requests(events, i)[k] == states[i].joins[caller].pssh
                        && (states[i].joins[caller].verdict <==>
                            var a := Answers(events, i)[k]; a.opens && a.id != "" && a.fetches)
  {
    RunIsSound(configured, states, events, i);
    var s, p := states[i], states[i].joins[caller].pssh;
    assert JoinOk(s, s.joins[caller]) && RequestOk(s, p);
    DecidedIsAnswered(s, p, if configured then Requests(events, i) else [], Answers(events, i));
  }

  /** A request whose waiters were woken has been answered. */
  lemma DecidedIsAnswered(s: Manager, p: Pssh, order: seq<Pssh>, answers: seq<Answer>)
    requires Follows(s, order, answers) && p in s.contexts && RequestOk(s, p) && s.contexts[p].signaled
    ensures exists k :: 0 <= k < |answers| <= |order| && order[k] == p && Known(s, p, answers[k])
  {
    var k :| 0 <= k < |order| && order[k] == p;
    assert !Pending(s, p);
  }

  /** The sessions opened are those that the answers gave. */
  lemma OpenedAreAnswered(configured: bool, states: seq<Manager>, events: seq<Event>, i: nat)
    requires IsRun(configured, states, events) && i < |states|
    ensures states[i].log.openedIds == OpenedIds(Answers(events, i))
  {
    RunIsSound(configured, states, events, i);
  }

  /** While the manager runs, a caller that has no join can enter one for a request if and only if the
      manager is configured and the request was made. */
  lemma JoinIsPossibleIff(configured: bool, states: seq<Manager>, events: seq<Event>, i: nat, caller: nat, p: Pssh)
    requires IsRun(configured, states, events) && i < |states|
    requires states[i].phase.Running? && caller !in states[i].joins
    ensures Enabled(states[i], JoinEnter(caller, p)) <==>
              configured && exists k :: 0 <= k < i && events[k] == Request(p)
  {
    RequestsAreServed(configured, states, events, i, p);
  }

  // ----- Joins ----------------------------------------------------------------------

  /** The request that a caller joined, if it has. */
  function Joined(events: seq<Event>, i: nat, caller: nat): set<Pssh>
    requires i <= |events|
  {
    if i == 0 then {}
    else
      Joined(events, i - 1, caller) +
      if events[i - 1].JoinEnter? && events[i - 1].caller == caller then {events[i - 1].pssh} else {}
  }

  /** The caller was woken. */
  predicate Woken(events: seq<Event>, i: nat, caller: nat)
    requires i <= |events|
  {
    JoinWake(caller) in events[..i]
  }

  ghost predicate JoinsAs(s: Manager, events: seq<Event>, i: nat, caller: nat)
    requires i <= |events|
  {
    && (caller in s.joins ==> Joined(events, i, caller) == {s.joins[caller].pssh})
    && (caller !in s.joins ==> Joined(events, i, caller) == {} && !Woken(events, i, caller))
    && (Woken(events, i, caller) ==> s.joins[caller].Returned?)
  }

  lemma StepJoins(s: Manager, u: Manager, events: seq<Event>, i: nat, caller: nat)
    requires i < |events| && StepsTo(s, events[i], u) && JoinsAs(s, events, i, caller)
    ensures JoinsAs(u, events, i + 1, caller)
  {
    assert events[..i + 1] == events[..i] + [events[i]];
  }

  /** In every run a caller has a join if and only if it has entered one, for the request that it gave; and
      once it was woken it has its verdict. */
  lemma {:induction false} JoinsFollowEvents(configured: bool, states: seq<Manager>, events: seq<Event>, i: nat,
                                             caller: nat)
    requires IsRun(configured, states, events) && i < |states|
    ensures JoinsAs(states[i], events, i, caller)
  {
    if i > 0 {
      JoinsFollowEvents(configured, states, events, i - 1, caller);
      StepJoins(states[i - 1], states[i], events, i - 1, caller);
    }
  }
}
