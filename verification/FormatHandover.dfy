/**
 The adaptive evaluator meets the chunk source. The evaluator may keep the current format while
 the buffer justifies waiting; the chunk source looks the decided format up in the period that
 comes next without checking that it is there.
 */
module FormatHandover {
  import opened Samples
  import opened RepresentationHolders
  import opened DashPeriods
  import opened ChunkSchedules
  import opened FormatSelection
  import Playback = ChunkPlayback

  /** The formats given to the evaluator are those of the period's representations. */
  ghost predicate OffersOf(p: Period, formats: seq<Format>) {
    && (forall r :: r in p.media.reps ==> Known(r.holder))
    && forall f :: f in formats ==> FindRep(p.media.reps, f.id).Some?
  }

  function IdOf(format: Option<Format>): Option<string> {
    if format.Some? then Some(format.value.id) else None
  }

  /** What the evaluator decides. */
  function Adaptive(current: Option<Format>, ideal: Format, bufferedUs: int, limits: Thresholds,
                    size: nat): Evaluation {
    Evaluation(Some(Choose(current, ideal, bufferedUs, limits).id), size)
  }

  /** The current format is used for the next chunk: an initialization was handed out for it, so that
      the evaluator is not asked, or the evaluator is asked and waits. */
  predicate StaysWithCurrent(mem: Memory, current: Option<Format>, ideal: Format, bufferedUs: int,
                             limits: Thresholds) {
    Playback.Reuses(mem) || Defers(current, ideal, bufferedUs, limits)
  }

  /** The format decided on is one of the period's, so that its holder can be used, if and only if the
      chunk at hand is kept, the current format is not stayed with, or the period has it. */
  lemma AdaptiveFormatOkIff(p: Period, formats: seq<Format>, budget: int, rate: real, current: Option<Format>,
                            ideal: Format, bufferedUs: int, limits: Thresholds, mem: Memory,
                            size: nat, out: Operation)
    requires OffersOf(p, formats) && IsIdeal(formats, budget, rate, ideal)
    requires mem.format == IdOf(current)
    ensures var eval := Adaptive(current, ideal, bufferedUs, limits, size);
            FormatOk(p, mem, size, eval, out) <==>
              || KeepsChunk(Decided(mem, size, eval), size, out)
              || !StaysWithCurrent(mem, current, ideal, bufferedUs, limits)
              || FindRep(p.media.reps, current.value.id).Some?
  {
    assert FindRep(p.media.reps, ideal.id).Some?;
  }

  /** In every reachable state of playback with the adaptive evaluator, the next operation is defined
      if and only if nothing remains, the current format is not stayed with, or the period of the
      next segment has it. */
  lemma AdaptiveAskIsDefinedIff(periods: seq<Period>, positionUs: int, p: Playback.Player, formats: seq<Format>,
                                budget: int, rate: real, current: Option<Format>, ideal: Format,
                                bufferedUs: int, limits: Thresholds)
    requires Playable(periods, positionUs) && Playback.Inv(periods, positionUs, p)
    requires p.mem.format == IdOf(current)
    requires IsIdeal(formats, budget, rate, ideal)
    requires var rest := Remaining(periods, positionUs, p.history);
             rest != [] ==> forall f :: f in formats ==> Playback.NextHas(periods, rest, f.id)
    ensures var rest := Remaining(periods, positionUs, p.history);
            OpOk(periods, p.mem, Playback.Queue(p), positionUs,
                 Adaptive(current, ideal, bufferedUs, limits, |Playback.Queue(p)|), p.out) <==>
              || rest == [] || !StaysWithCurrent(p.mem, current, ideal, bufferedUs, limits)
              || Playback.NextHas(periods, rest, current.value.id)
  {
    Playback.AskIsDefinedIff(periods, positionUs, p, Adaptive(current, ideal, bufferedUs, limits, |Playback.Queue(p)|));
  }

  /** At the end of the first period of the example presentation, with nothing buffered: the format of
      the last period is better, so the evaluator waits with the format of the first one, which the
      last period does not have. The operation is not defined. */
  lemma KeptFormatCanBeMissing()
    ensures var a, b := Format("a", 1, 100, 640, 360), Format("b", 1, 200, 1280, 720);
            var limits := Thresholds(10000000, 25000000, 15000000);
            var p := Playback.Player(Memory(Some("a"), false), {(0, "a")}, [Segment(0, "a", 2)], 0,
                                     Operation(None, 1, false));
            && IsIdeal([b], 1000, 1.0, b) && Defers(Some(a), b, 0, limits)
            && Playable(Playback.Example(), 12000) && Playback.Inv(Playback.Example(), 12000, p)
            && Playback.NextHas(Playback.Example(), Remaining(Playback.Example(), 12000, p.history), "b")
            && !OpOk(Playback.Example(), p.mem, Playback.Queue(p), 12000, Adaptive(Some(a), b, 0, limits, 1), p.out)
  {
    var a, b := Format("a", 1, 100, 640, 360), Format("b", 1, 200, 1280, 720);
    var limits := Thresholds(10000000, 25000000, 15000000);
    var p := Playback.Player(Memory(Some("a"), false), {(0, "a")}, [Segment(0, "a", 2)], 0, Operation(None, 1, false));
    FirstIsLoaded(p);
    assert b in [b];
    AdaptiveAskIsDefinedIff(Playback.Example(), 12000, p, [b], 1000, 1.0, Some(a), b, 0, limits);
  }

  /** The first expected segment of the example is loaded; the others have no format but `b`. */
  lemma FirstIsLoaded(p: Playback.Player)
    requires p.history == [Segment(0, "a", 2)] && p.dropped == 0 && p.out == Operation(None, 1, false)
    ensures Playable(Playback.Example(), 12000) && Playback.Inv(Playback.Example(), 12000, p)
    ensures var rest := Remaining(Playback.Example(), 12000, p.history);
            && rest != [] && Playback.NextHas(Playback.Example(), rest, "b")
            && !Playback.NextHas(Playback.Example(), rest, "a")
  {
    var periods := Playback.Example();
    Playback.ExampleExpects();
    Playback.ExampleTail();
    assert OfferedBy(periods[0], p.history[0]);
    assert Slots(periods[0], 3) == [];
    assert Remaining(periods, 12000, p.history) == [Slot(2, 12), Slot(2, 13)];
    assert Playback.SlotsOf(p.history) == [Slot(0, 2)];
    assert FindRep(periods[2].media.reps, "b").Some? && FindRep(periods[2].media.reps, "a").None?;
  }
}
