/**
 Playback with seeks. A seek outside the buffer empties the queue and drops the chunk at hand,
 but the chunk source keeps its memory: between an initialization and its first media chunk
 it goes on with the remembered format, without asking the evaluator and without checking
 that the period it lands in has it.
 */
module PlaybackSessions {
  import opened Samples
  import opened DashPeriods
  import opened ChunkSchedules
  import opened ChunkPlayback
  import Runs

  datatype Move =
    | Do(event: Event)
    | SeekTo(positionUs: int)

  /** Where playback started or last sought to, and the player since then. */
  datatype Session = Session(positionUs: int, player: Player)

  ghost predicate Sound(periods: seq<Period>, s: Session) {
    Playable(periods, s.positionUs) && Inv(periods, s.positionUs, s.player)
  }

  ghost function Rest(periods: seq<Period>, s: Session): seq<Slot>
    requires Playable(periods, s.positionUs)
  {
    Remaining(periods, s.positionUs, s.player.history)
  }

  /** What a seek leaves of a player: its memory and its initializations. */
  function Sought(p: Player): Player {
    Player(p.mem, p.ready, [], 0, Operation(None, 0, false))
  }

  ghost predicate MoveOk(periods: seq<Period>, s: Session, m: Move) {
    && Sound(periods, s)
    && match m
       case Do(e) => EventOk(periods, s.positionUs, s.player, e)
       case SeekTo(positionUs) => Playable(periods, positionUs)
  }

  ghost function Next(periods: seq<Period>, s: Session, m: Move): Session
    requires MoveOk(periods, s, m)
  {
    match m
    case Do(e) => s.(player := Step(periods, s.positionUs, s.player, e))
    case SeekTo(positionUs) => Session(positionUs, Sought(s.player))
  }

  // ----- When the next operation is defined -----------------------------------------

  /** The evaluator keeps the queue and picks a format of the period of the next segment. */
  ghost predicate Picks(periods: seq<Period>, s: Session, eval: Evaluation)
    requires Sound(periods, s)
  {
    && eval.queueSize == |Queue(s.player)| && eval.format.Some?
    && (Rest(periods, s) != [] ==> NextHas(periods, Rest(periods, s), eval.format.value))
  }

  ghost predicate Defined(periods: seq<Period>, s: Session, eval: Evaluation)
    requires Sound(periods, s)
  {
    OpOk(periods, s.player.mem, Queue(s.player), s.positionUs, eval, s.player.out)
  }

  /** The next operation is defined whichever format on offer is picked. */
  ghost predicate Answers(periods: seq<Period>, s: Session) {
    Sound(periods, s) && forall eval :: Picks(periods, s, eval) ==> Defined(periods, s, eval)
  }

  /** A format to be used again is one that the next period has. */
  ghost predicate Remembering(periods: seq<Period>, s: Session) {
    Playable(periods, s.positionUs) && Remembers(periods, s.positionUs, s.player)
  }

  /** One pick is as good as another: the next operation is defined if and only if a format to be used
      again is one that the next period has. */
  lemma PickIsDefinedIff(periods: seq<Period>, s: Session, eval: Evaluation)
    requires Sound(periods, s) && Picks(periods, s, eval)
    ensures Defined(periods, s, eval) <==> Remembering(periods, s)
  {
    AskIsDefinedIff(periods, s.positionUs, s.player, eval);
  }

  /** There always is a format to pick. */
  lemma SomePick(periods: seq<Period>, s: Session) returns (eval: Evaluation)
    requires Sound(periods, s)
    ensures Picks(periods, s, eval)
  {
    var size := |Queue(s.player)|;
    if Rest(periods, s) == [] {
      eval := Evaluation(Some(""), size);
    } else {
      NextPlace(periods, s.positionUs, s.player);
      var i := Locate(periods, Queue(s.player), s.positionUs).period;
      var id := periods[i].media.reps[0].id;
      assert FindRep(periods[i].media.reps, id).Some?;
      assert NextHas(periods, Rest(periods, s), id);
      eval := Evaluation(Some(id), size);
    }
  }

  lemma AnswersIff(periods: seq<Period>, s: Session)
    requires Sound(periods, s)
    ensures Answers(periods, s) <==> Remembering(periods, s)
  {
    var pick := SomePick(periods, s);
    PickIsDefinedIff(periods, s, pick);
    forall eval | Picks(periods, s, eval)
      ensures Defined(periods, s, eval) <==> Remembering(periods, s)
    {
      PickIsDefinedIff(periods, s, eval);
    }
  }

  /** What a caller can check before a seek: no format waits to be used again, nothing is left to play
      at the new position, or the period there has the format. */
  ghost predicate Carries(periods: seq<Period>, mem: Memory, positionUs: int)
    requires Playable(periods, positionUs)
  {
    var rest := Expected(periods, positionUs);
    Reuses(mem) && rest != [] ==> NextHas(periods, rest, mem.format.value)
  }

  /** A seek always keeps the invariant, now from the new position; the next operation is defined, for
      every format on offer there, if and only if the seek carries the remembered format, and
      for none otherwise. */
  lemma SeekAnswersIff(periods: seq<Period>, s: Session, positionUs: int)
    requires Sound(periods, s) && Playable(periods, positionUs)
    ensures var u := Next(periods, s, SeekTo(positionUs));
            && Sound(periods, u) && Rest(periods, u) == Expected(periods, positionUs)
            && (Answers(periods, u) <==> Carries(periods, s.player.mem, positionUs))
            && (!Answers(periods, u) ==> forall eval :: !Defined(periods, u, eval))
  {
    var u := Session(positionUs, Sought(s.player));
    SoughtIsSound(periods, s.player, positionUs);
    AnswersIff(periods, u);
    if !Remembering(periods, u) {
      NoneIsDefined(periods, u);
    }
  }

  lemma SoughtIsSound(periods: seq<Period>, p: Player, positionUs: int)
    requires Playable(periods, positionUs)
    ensures Sound(periods, Session(positionUs, Sought(p)))
  {
    assert SlotsOf([]) + Expected(periods, positionUs) == Expected(periods, positionUs);
  }

  lemma NoneIsDefined(periods: seq<Period>, s: Session)
    requires Sound(periods, s) && !Remembering(periods, s)
    ensures forall eval :: !Defined(periods, s, eval)
  {
    forall eval
      ensures !Defined(periods, s, eval)
    {
      AskIsDefinedIff(periods, s.positionUs, s.player, eval);
    }
  }

  // ----- Sessions -------------------------------------------------------------------

  ghost predicate MovesTo(periods: seq<Period>, s: Session, m: Move, u: Session) {
    MoveOk(periods, s, m) && u == Next(periods, s, m)
  }

  ghost predicate IsSession(periods: seq<Period>, states: seq<Session>, moves: seq<Move>) {
    && |states| == |moves| + 1 && Sound(periods, states[0])
    && forall i :: 0 <= i < |moves| ==> MovesTo(periods, states[i], moves[i], states[i + 1])
  }

  lemma MoveKeepsSound(periods: seq<Period>, s: Session, m: Move)
    requires MoveOk(periods, s, m)
    ensures Sound(periods, Next(periods, s, m))
    ensures (m.Do? && m.event.Ask?) || (m.Do? && Remembering(periods, s)) ==> Remembering(periods, Next(periods, s, m))
  {
    match m
    case Do(e) => StepKeepsInv(periods, s.positionUs, s.player, e);
    case SeekTo(positionUs) => SeekAnswersIff(periods, s, positionUs);
  }

  /** What was loaded since the last seek is the beginning of what is expected from there, and the end
      is announced only when all of it is loaded. */
  ghost predicate FetchesExpected(periods: seq<Period>, s: Session) {
    && Playable(periods, s.positionUs)
    && SlotsOf(s.player.history) + Rest(periods, s) == Expected(periods, s.positionUs)
    && (s.player.out.endOfStream ==> SlotsOf(s.player.history) == Expected(periods, s.positionUs))
  }

  lemma SoundFetches(periods: seq<Period>, s: Session)
    requires Sound(periods, s)
    ensures FetchesExpected(periods, s)
  {
    assert SlotsOf(s.player.history) + [] == SlotsOf(s.player.history);
  }

  /** Whatever is asked, loaded, dropped and sought, in any order. */
  lemma SessionFetchesExpected(periods: seq<Period>, states: seq<Session>, moves: seq<Move>, i: nat)
    requires IsSession(periods, states, moves) && i < |states|
    ensures Sound(periods, states[i]) && FetchesExpected(periods, states[i])
  {
    if i > 0 {
      ReachedIsSound(periods, states[i - 1], moves[i - 1], states[i]);
    }
    SoundFetches(periods, states[i]);
  }

  lemma ReachedIsSound(periods: seq<Period>, s: Session, m: Move, u: Session)
    requires MovesTo(periods, s, m, u)
    ensures Sound(periods, u)
  {
    MoveKeepsSound(periods, s, m);
  }

  ghost predicate CarriesAt(periods: seq<Period>, s: Session, m: Move) {
    m.SeekTo? ==> Playable(periods, m.positionUs) && Carries(periods, s.player.mem, m.positionUs)
  }

  lemma MoveAnswersIff(periods: seq<Period>, s: Session, m: Move, u: Session)
    requires MovesTo(periods, s, m, u) && Answers(periods, s)
    ensures Answers(periods, u) <==> CarriesAt(periods, s, m)
  {
    MoveKeepsSound(periods, s, m);
    AnswersIff(periods, s);
    AnswersIff(periods, u);
    if m.SeekTo? {
      SeekAnswersIff(periods, s, m.positionUs);
    }
  }

  /** In a whole session the next operation is defined in every state, whichever format on offer is
      picked, if and only if every seek carries the remembered format. */
  lemma SessionAnswersIff(periods: seq<Period>, states: seq<Session>, moves: seq<Move>)
    requires IsSession(periods, states, moves) && Answers(periods, states[0])
    ensures (forall i :: 0 <= i < |states| ==> Answers(periods, states[i])) <==>
            (forall i :: 0 <= i < |moves| ==> CarriesAt(periods, states[i], moves[i]))
  {
    if forall i :: 0 <= i < |states| ==> Answers(periods, states[i]) {
      forall i | 0 <= i < |moves|
        ensures CarriesAt(periods, states[i], moves[i])
      {
        MoveAnswersIff(periods, states[i], moves[i], states[i + 1]);
      }
    }
    if forall i :: 0 <= i < |moves| ==> CarriesAt(periods, states[i], moves[i]) {
      forall i | 0 <= i < |states|
        ensures Answers(periods, states[i])
      {
        CarryingAnswers(periods, states, moves, i);
      }
    }
  }

  lemma CarryingAnswers(periods: seq<Period>, states: seq<Session>, moves: seq<Move>, i: nat)
    requires IsSession(periods, states, moves) && Answers(periods, states[0]) && i < |states|
    requires forall j :: 0 <= j < |moves| ==> CarriesAt(periods, states[j], moves[j])
    ensures Answers(periods, states[i])
  {
    forall j: nat | j < |moves| && Answers(periods, states[j])
      ensures Answers(periods, states[j + 1])
    {
      MoveAnswersIff(periods, states[j], moves[j], states[j + 1]);
    }
    Runs.HoldsAlong(|moves|, (j: nat) => j < |states| && Answers(periods, states[j]), i);
  }

  // ----- Initializations are loaded once --------------------------------------------

  ghost function Missing(periods: seq<Period>, s: Session): nat {
    |Inits(periods) - s.player.ready|
  }

  predicate LoadsInit(s: Session, m: Move) {
    m == Do(Load) && s.player.out.chunk.Some? && s.player.out.chunk.value.InitChunk?
  }

  /** The initializations loaded by the first `n` moves. */
  function InitLoads(states: seq<Session>, moves: seq<Move>, n: nat): nat
    requires n <= |moves| <= |states|
  {
    if n == 0 then 0 else InitLoads(states, moves, n - 1) + if LoadsInit(states[n - 1], moves[n - 1]) then 1 else 0
  }

  ghost predicate CountsInit(periods: seq<Period>, s: Session, m: Move, u: Session) {
    Missing(periods, u) == Missing(periods, s) - if LoadsInit(s, m) then 1 else 0
  }

  lemma MoveKeepsMissing(periods: seq<Period>, s: Session, m: Move, u: Session)
    requires MovesTo(periods, s, m, u)
    ensures CountsInit(periods, s, m, u)
  {
    if m.Do? && m.event.Ask? {
      AskKeepsInv(periods, s.positionUs, s.player, m.event.eval);
    } else if LoadsInit(s, m) {
      LoadInitLeavesLess(periods, s);
    }
  }

  lemma LoadInitLeavesLess(periods: seq<Period>, s: Session)
    requires Sound(periods, s) && LoadsInit(s, Do(Load))
    ensures |Inits(periods) - Loaded(s.player).ready| == Missing(periods, s) - 1
  {
    var chunk := s.player.out.chunk.value;
    OneLess(Inits(periods), s.player.ready, (chunk.key, chunk.id));
  }

  lemma OneLess<T>(all: set<T>, some: set<T>, x: T)
    requires x in all - some
    ensures |all - (some + {x})| == |all - some| - 1
  {
    assert all - (some + {x}) == (all - some) - {x};
  }

  /** However often a session seeks, it loads no initialization twice: each one loaded leaves one less
      to load. */
  lemma InitializationsLoadOnce(periods: seq<Period>, states: seq<Session>, moves: seq<Move>, n: nat)
    requires IsSession(periods, states, moves) && n <= |moves|
    ensures InitLoads(states, moves, n) + Missing(periods, states[n]) == Missing(periods, states[0])
  {
    forall i | 0 <= i < |moves|
      ensures CountsInit(periods, states[i], moves[i], states[i + 1])
    {
      MoveKeepsMissing(periods, states[i], moves[i], states[i + 1]);
    }
    CountedAlong(states, moves, s => Missing(periods, s), n);
  }

  lemma {:induction false} CountedAlong(states: seq<Session>, moves: seq<Move>, left: Session -> int, n: nat)
    requires |states| == |moves| + 1 && n <= |moves|
    requires forall i :: 0 <= i < |moves| ==>
                           left(states[i + 1]) == left(states[i]) - if LoadsInit(states[i], moves[i]) then 1 else 0
    ensures InitLoads(states, moves, n) + left(states[n]) == left(states[0])
  {
    if n > 0 {
      CountedAlong(states, moves, left, n - 1);
    }
  }

  // ----- A seek that does not carry the format --------------------------------------

  const NEW_PLAYER := Player(Memory(None, false), {}, [], 0, Operation(None, 0, false))

  /** Asking once at the second segment of the example presentation gives an initialization. */
  lemma FirstAskRemembers() returns (s: Session)
    ensures MovesTo(Example(), Session(12000, NEW_PLAYER), Do(Ask(Evaluation(Some("a"), 0))), s)
    ensures Sound(Example(), s) && s.player.mem == Memory(Some("a"), true)
  {
    var start, ask := Session(12000, NEW_PLAYER), Do(Ask(Evaluation(Some("a"), 0)));
    FirstAskIsDefined();
    s := Next(Example(), start, ask);
    MoveKeepsSound(Example(), start, ask);
    assert FindPeriod(Example(), 12000) == Some(0);
  }

  lemma FirstAskIsDefined()
    ensures MoveOk(Example(), Session(12000, NEW_PLAYER), Do(Ask(Evaluation(Some("a"), 0))))
  {
    var periods := Example();
    ExampleExpects();
    PlaybackIsBounded(periods, 12000, NEW_PLAYER.mem, [], NEW_PLAYER);
    assert FindRep(periods[0].media.reps, "a").Some?;
    assert NextHas(periods, Expected(periods, 12000), "a");
    AskIsDefinedIff(periods, 12000, NEW_PLAYER, Evaluation(Some("a"), 0));
  }

  /** A new player asks once there and seeks into the last period, which has only the format `b`:
      whatever the evaluator would decide, the next operation is not defined. */
  lemma RememberedFormatCanBeMissing()
    ensures exists s :: && MovesTo(Example(), Session(12000, NEW_PLAYER), Do(Ask(Evaluation(Some("a"), 0))), s)
                        && MoveOk(Example(), s, SeekTo(35000)) && !CarriesAt(Example(), s, SeekTo(35000))
                        && Sound(Example(), Next(Example(), s, SeekTo(35000)))
                        && forall eval :: !Defined(Example(), Next(Example(), s, SeekTo(35000)), eval)
  {
    var s := FirstAskRemembers();
    LastLacksFirstFormat(s.player.mem);
    SeekAnswersIff(Example(), s, 35000);
  }

  lemma LastLacksFirstFormat(mem: Memory)
    requires mem == Memory(Some("a"), true)
    ensures Playable(Example(), 35000) && !Carries(Example(), mem, 35000)
  {
    var periods := Example();
    ExampleIsPlayable(35000);
    assert FindPeriod(periods, 35000) == Some(2);
    assert FindRep(periods[2].media.reps, "a").None?;
    StartIsNext(periods, 35000);
  }
}
