/**
 The session manager as it is written. Each method carries out steps of the protocol: the
 ghost state `m` follows the fields step by step.
 */
module DrmSessionManagers {
  import opened DrmSessions

  /** The steps of one run, from the opened task to the signal. */
  function RunSteps(s: Manager, a: Answer): Manager
    requires s.worker.Opening? && s.worker.pssh in s.contexts
  {
    var s1 := WorkerStep(s, OpenDone(a.opens, a.id));
    var s2 := if a.opens then WorkerStep(s1, FetchDone(a.fetches)) else s1;
    var s3 := if a.opens && !a.fetches then WorkerStep(s2, CloseDone) else s2;
    WorkerStep(s3, Publish)
  }

  class DrmSessionManager {
    const configured: bool
    var psshSessions: map<Pssh, Context>
    var tasks: seq<Pssh>
    ghost var m: Manager

    ghost predicate Valid()
      reads this
    {
      m.configured == configured && m.contexts == psshSessions && m.tasks == tasks
    }

    constructor (configured: bool)
      ensures Valid() && m == Initial(configured)
    {
      this.configured := configured;
      psshSessions := map[];
      tasks := [];
      m := Initial(configured);
    }

    method Request(pssh: Pssh)
      requires Valid() && m.phase.Running?
      modifies this
      ensures Valid() && m == Step(old(m), DrmSessions.Request(pssh))
    {
      m := Step(m, DrmSessions.Request(pssh));
      if !configured {
        return;
      }
      if pssh in psshSessions {
        return;
      }
      psshSessions := psshSessions[pssh := Context("", false)];
      tasks := tasks + [pssh];
    }

    /** The worker takes the next task. */
    method TakeTask() returns (pssh: Pssh)
      requires Valid() && m.worker.Idle? && tasks != []
      modifies this
      ensures Valid() && m == Step(old(m), Take) && pssh == m.worker.pssh
    {
      m := Step(m, Take);
      pssh := tasks[0];
      tasks := tasks[1..];
    }

    /** One run of the worker. `closed` are the sessions it closes. */
    method Run(pssh: Pssh, answer: Answer) returns (closed: seq<string>)
      requires Valid() && m.worker == Opening(pssh) && pssh in psshSessions
      modifies this
      ensures Valid() && m == RunSteps(old(m), answer)
      ensures m.log.closedIds == old(m).log.closedIds + multiset(closed)
    {
      closed := [];
      var sessionId := "";
      m := WorkerStep(m, OpenDone(answer.opens, answer.id));
      if answer.opens {
        sessionId := answer.id;
        m := WorkerStep(m, FetchDone(answer.fetches));
        if !answer.fetches {
          closed := closed + [sessionId];
          sessionId := "";
          m := WorkerStep(m, CloseDone);
        }
      }
      assert m.worker == Publishing(pssh, sessionId);
      psshSessions := psshSessions[pssh := Context(sessionId, true)];
      m := WorkerStep(m, Publish);
    }

    /** The first half of a join: an immediate answer, or nothing if the caller has to wait. */
    method EnterJoin(caller: nat, pssh: Pssh) returns (done: bool)
      requires Valid() && Enabled(m, JoinEnter(caller, pssh))
      modifies this`m
      ensures Valid() && m == Step(old(m), JoinEnter(caller, pssh))
      ensures m.joins[caller] == if done then Returned(pssh, true) else Waiting(pssh)
    {
      m := Step(m, JoinEnter(caller, pssh));
      return psshSessions[pssh].sessionId != "";
    }

    /** The second half, after the signal. */
    method FinishJoin(caller: nat, pssh: Pssh) returns (licensed: bool)
      requires Valid() && Enabled(m, JoinWake(caller)) && m.joins[caller].pssh == pssh
      modifies this`m
      ensures Valid() && m == Step(old(m), JoinWake(caller)) && m.joins[caller] == Returned(pssh, licensed)
    {
      m := Step(m, JoinWake(caller));
      licensed := false;
      if pssh in psshSessions {
        if psshSessions[pssh].sessionId != "" {
          return true;
        }
      }
    }

    /** The destructor, once the worker has stopped: it closes the session of every context. */
    method CloseAll() returns (closed: seq<string>)
      requires Valid() && Enabled(m, Stop)
      modifies this`m
      ensures Valid() && m.phase == Stopped({})
      ensures m.log == old(m).log.(closedIds := old(m).log.closedIds + multiset(closed))
      ensures exists events :: Reaches(old(m), events, m)
    {
      closed := [];
      m := Step(m, Stop);
      ghost var events := [Stop];
      ReachesOne(old(m), Stop);
      var rest := psshSessions.Keys;
      while rest != {}
        invariant Valid() && m.phase == Stopped(rest) && rest <= psshSessions.Keys
        invariant m.log == old(m).log.(closedIds := old(m).log.closedIds + multiset(closed))
        invariant Reaches(old(m), events, m)
        decreases rest
      {
        var pssh :| pssh in rest;
        closed := closed + [psshSessions[pssh].sessionId];
        ReachesMore(old(m), events, m, CloseSession(pssh));
        m := Step(m, CloseSession(pssh));
        events := events + [CloseSession(pssh)];
        rest := rest - {pssh};
      }
    }
  }

  lemma ReachesOne(s: Manager, e: Event)
    requires Enabled(s, e)
    ensures Reaches(s, [e], Step(s, e))
  {
    assert Reaches(Step(s, e), [e][1..], Step(s, e));
  }

  lemma {:induction false} ReachesMore(s: Manager, events: seq<Event>, u: Manager, e: Event)
    requires Reaches(s, events, u) && Enabled(u, e)
    ensures Reaches(s, events + [e], Step(u, e))
    decreases |events|
  {
    if events == [] {
      ReachesOne(s, e);
    } else {
      ReachesMore(Step(s, events[0]), events[1..], u, e);
      assert (events + [e])[1..] == events[1..] + [e];
    }
  }
}
