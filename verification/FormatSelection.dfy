/**
 Choosing a format. The one-pass filter and scan of the adaptive evaluator and the
 comparator-based choice of the demo evaluator are proved against one declarative optimum,
 and the hysteresis around the adaptive choice is stated exactly.
 */
module FormatSelection {
  import opened Samples

  datatype Format = Format(id: string, maxPlayoutRate: int, bitrate: int, width: int, height: int)

  // ----- The optimum ----------------------------------------------------------------

  /** The best playout rate on offer: the least one that reaches the playback rate, else the
      greatest. */
  ghost predicate IsBestRate(formats: seq<Format>, rate: real, best: int) {
    && (exists f :: f in formats && f.maxPlayoutRate == best)
    && (best as real >= rate ==>
          forall f :: f in formats && f.maxPlayoutRate as real >= rate ==> best <= f.maxPlayoutRate)
    && (best as real < rate ==> forall f :: f in formats ==> f.maxPlayoutRate <= best)
  }

  /** The highest bitrate within the budget, else the lowest. */
  ghost predicate IsBestBitrate(formats: seq<Format>, rate: int, budget: int, best: int) {
    && (best <= budget ==>
          forall f :: f in formats && f.maxPlayoutRate == rate && f.bitrate <= budget ==> f.bitrate <= best)
    && (best > budget ==> forall f :: f in formats && f.maxPlayoutRate == rate ==> best <= f.bitrate)
  }

  ghost predicate IsIdeal(formats: seq<Format>, budget: int, rate: real, f: Format) {
    && f in formats && IsBestRate(formats, rate, f.maxPlayoutRate)
    && IsBestBitrate(formats, f.maxPlayoutRate, budget, f.bitrate)
  }

  /** The optimum is unique in rate and bitrate. */
  lemma IdealIsUnique(formats: seq<Format>, budget: int, rate: real, f: Format, g: Format)
    requires IsIdeal(formats, budget, rate, f) && IsIdeal(formats, budget, rate, g)
    ensures f.maxPlayoutRate == g.maxPlayoutRate && f.bitrate == g.bitrate
  {
  }

  // ----- Adaptive evaluation --------------------------------------------------------

  /** The formats that pass the rate filter: all those with the best rate. */
  ghost predicate Filters(formats: seq<Format>, rate: real, filtered: seq<Format>) {
    && filtered != [] && IsBestRate(formats, rate, filtered[0].maxPlayoutRate)
    && forall f :: f in filtered <==> f in formats && f.maxPlayoutRate == filtered[0].maxPlayoutRate
  }

  method FilterByRate(formats: seq<Format>, rate: real) returns (filtered: seq<Format>)
    requires formats != []
    ensures Filters(formats, rate, filtered)
  {
    filtered := [];
    for i := 0 to |formats|
      invariant i == 0 ==> filtered == []
      invariant i > 0 ==> Filters(formats[..i], rate, filtered)
    {
      var format := formats[i];
      assert formats[..i + 1] == formats[..i] + [format];
      if filtered == [] {
        filtered := [format];
        continue;
      }
      var filterRate, currentRate := filtered[0].maxPlayoutRate, format.maxPlayoutRate;
      if filterRate == currentRate {
        filtered := filtered + [format];
        continue;
      }
      if filterRate as real < rate {
        if currentRate > filterRate {
          filtered := [format];
        }
        continue;
      }
      if currentRate as real >= rate && currentRate < filterRate {
        filtered := [format];
      }
    }
    assert formats[..|formats|] == formats;
  }

  predicate Improves(best: Format, format: Format, budget: int) {
    || (best.bitrate > budget && format.bitrate < best.bitrate)
    || (format.bitrate <= budget && format.bitrate > best.bitrate)
  }

  method DetermineIdealFormat(formats: seq<Format>, budget: int, rate: real) returns (best: Format)
    requires formats != []
    ensures IsIdeal(formats, budget, rate, best)
  {
    var filtered := FilterByRate(formats, rate);
    best := filtered[0];
    for i := 0 to |filtered|
      invariant best in filtered
      invariant IsBestBitrate(filtered[..i], best.maxPlayoutRate, budget, best.bitrate)
    {
      assert filtered[..i + 1] == filtered[..i] + [filtered[i]];
      assert filtered[i] in filtered;
      if Improves(best, filtered[i], budget) {
        best := filtered[i];
      }
    }
    assert filtered[..|filtered|] == filtered;
  }

  datatype QueuedChunk = QueuedChunk(startUs: int, endUs: int, format: Format)

  /** The evaluator's thresholds, as durations of buffered media. */
  datatype Thresholds = Thresholds(forIncreaseUs: int, forDecreaseUs: int, retainUs: int)

  datatype FormatEvaluation = FormatEvaluation(queueSize: nat, adaptive: bool, format: Option<Format>)

  const MIN_HD_HEIGHT := 720
  const MIN_HD_WIDTH := 1280

  function BufferedUs(queue: seq<QueuedChunk>, positionUs: int): int {
    if queue == [] then 0 else queue[|queue| - 1].endUs - positionUs
  }

  /** The buffer does not justify leaving the current format. */
  predicate Defers(current: Option<Format>, ideal: Format, bufferedUs: int, limits: Thresholds) {
    && current.Some?
    && ((ideal.bitrate > current.value.bitrate && bufferedUs < limits.forIncreaseUs) ||
        (ideal.bitrate < current.value.bitrate && bufferedUs >= limits.forDecreaseUs))
  }

  function Choose(current: Option<Format>, ideal: Format, bufferedUs: int, limits: Thresholds): Format {
    if Defers(current, ideal, bufferedUs, limits) then current.value else ideal
  }

  /** A queued chunk far enough ahead, and of clearly lower quality, is worth fetching again. */
  predicate Discardable(c: QueuedChunk, ideal: Format, positionUs: int, limits: Thresholds) {
    && c.startUs - positionUs >= limits.retainUs
    && c.format.bitrate < ideal.bitrate && c.format.height < ideal.height
    && c.format.height < MIN_HD_HEIGHT && c.format.width < MIN_HD_WIDTH
  }

  /** Chunks are considered for discarding when switching up with enough buffer. */
  predicate SwitchesUp(current: Option<Format>, ideal: Format, bufferedUs: int, limits: Thresholds) {
    && current.Some? && ideal.bitrate > current.value.bitrate
    && bufferedUs >= limits.forIncreaseUs && bufferedUs >= limits.retainUs
  }

  /** `n` is where the queue is cut: before the first chunk after the head worth discarding. */
  ghost predicate IsCut(queue: seq<QueuedChunk>, ideal: Format, positionUs: int, limits: Thresholds, n: nat) {
    && 1 <= n < |queue| && Discardable(queue[n], ideal, positionUs, limits)
    && forall i :: 1 <= i < n ==> !Discardable(queue[i], ideal, positionUs, limits)
  }

  /** One evaluation that found `ideal`: the format is it, or the current one while the buffer justifies
      waiting; the queue is cut if and only if switching up, with a chunk worth discarding, and
      before the first such chunk. */
  ghost predicate EvaluatesTo(queue: seq<QueuedChunk>, positionUs: int, evaluation: FormatEvaluation, ideal: Format,
                              limits: Thresholds, r: FormatEvaluation) {
    var current, bufferedUs := evaluation.format, BufferedUs(queue, positionUs);
    && r.format == Some(Choose(current, ideal, bufferedUs, limits))
    && r.adaptive == (evaluation.adaptive || current.Some?)
    && if SwitchesUp(current, ideal, bufferedUs, limits) && SomeDiscardable(queue, ideal, positionUs, limits)
       then IsCut(queue, ideal, positionUs, limits, r.queueSize)
       else r.queueSize == evaluation.queueSize
  }

  /** A chunk after the head is worth discarding. */
  ghost predicate SomeDiscardable(queue: seq<QueuedChunk>, ideal: Format, positionUs: int, limits: Thresholds) {
    exists i :: 1 <= i < |queue| && Discardable(queue[i], ideal, positionUs, limits)
  }

  method Evaluate(queue: seq<QueuedChunk>, positionUs: int, formats: seq<Format>, evaluation: FormatEvaluation,
                  estimate: int, rate: real, limits: Thresholds) returns (r: FormatEvaluation, ideal: Format)
    requires formats != []
    ensures IsIdeal(formats, estimate, rate, ideal)
    ensures EvaluatesTo(queue, positionUs, evaluation, ideal, limits, r)
    ensures evaluation.queueSize == |queue| > 0 ==> 1 <= r.queueSize <= |queue|
  {
    var bufferedUs := BufferedUs(queue, positionUs);
    var current := evaluation.format;
    ideal := DetermineIdealFormat(formats, estimate, rate);
    var chosen := ideal;
    r := evaluation;
    if current.Some? && ideal.bitrate > current.value.bitrate {
      if bufferedUs < limits.forIncreaseUs {
        chosen := current.value;
      } else if bufferedUs >= limits.retainUs {
        var i := 1;
        while i < |queue|
          invariant 1 <= i && r == evaluation
          invariant forall j :: 1 <= j < i && j < |queue| ==> !Discardable(queue[j], ideal, positionUs, limits)
        {
          if Discardable(queue[i], ideal, positionUs, limits) {
            r := r.(queueSize := i);
            break;
          }
          i := i + 1;
        }
      }
    } else if current.Some? && ideal.bitrate < current.value.bitrate {
      if bufferedUs >= limits.forDecreaseUs {
        chosen := current.value;
      }
    }
    if current.Some? {
      r := r.(adaptive := true);
    }
    r := r.(format := Some(chosen));
  }

  /** What makes the evaluator wait, by the end of the last chunk queued: an increase while it is less than
      one threshold ahead of the position, and a decrease while it is at least another. */
  lemma WaitsByLastEnd(queue: seq<QueuedChunk>, positionUs: int, current: Format, ideal: Format, limits: Thresholds)
    requires current != ideal && queue != []
    ensures var endUs := queue[|queue| - 1].endUs;
            Choose(Some(current), ideal, BufferedUs(queue, positionUs), limits) == current <==>
              || (ideal.bitrate > current.bitrate && endUs < positionUs + limits.forIncreaseUs)
              || (ideal.bitrate < current.bitrate && endUs >= positionUs + limits.forDecreaseUs)
    ensures Choose(Some(current), ideal, BufferedUs([], positionUs), limits) == current <==>
              || (ideal.bitrate > current.bitrate && limits.forIncreaseUs > 0)
              || (ideal.bitrate < current.bitrate && limits.forDecreaseUs <= 0)
    ensures Choose(None, ideal, BufferedUs(queue, positionUs), limits) == ideal
  {
  }

  /** What is cut and what is not: the first chunk given up starts late enough to leave the duration to
      retain, and is of lower bitrate and height than the new format and below high definition in
      height and width; every chunk kept after the head is not. If chunks follow each other, the
      duration to retain stays buffered. */
  lemma CutIsJustified(queue: seq<QueuedChunk>, ideal: Format, positionUs: int, limits: Thresholds, n: nat)
    requires IsCut(queue, ideal, positionUs, limits, n)
    ensures 0 < n < |queue| && queue[n].startUs >= positionUs + limits.retainUs
    ensures queue[n].format.bitrate < ideal.bitrate && queue[n].format.height < ideal.height
    ensures queue[n].format.height < 720 && queue[n].format.width < 1280
    ensures forall i :: 0 < i < n ==>
                          || queue[i].startUs < positionUs + limits.retainUs
                          || queue[i].format.bitrate >= ideal.bitrate || queue[i].format.height >= ideal.height
                          || queue[i].format.height >= 720 || queue[i].format.width >= 1280
    ensures queue[n - 1].endUs >= queue[n].startUs ==> BufferedUs(queue[..n], positionUs) >= limits.retainUs
  {
  }

  /** The queue is considered for a cut exactly when the bitrate goes up and enough is buffered both for
      that and to retain. */
  lemma CutNeedsBuffer(queue: seq<QueuedChunk>, positionUs: int, evaluation: FormatEvaluation, ideal: Format,
                       limits: Thresholds, r: FormatEvaluation)
    requires EvaluatesTo(queue, positionUs, evaluation, ideal, limits, r) && evaluation.queueSize == |queue|
    ensures r.queueSize < |queue| <==>
              && evaluation.format.Some? && evaluation.format.value.bitrate < ideal.bitrate && queue != []
              && queue[|queue| - 1].endUs - positionUs >= limits.forIncreaseUs
              && queue[|queue| - 1].endUs - positionUs >= limits.retainUs
              && exists i :: 1 <= i < |queue| && Discardable(queue[i], ideal, positionUs, limits)
    ensures r.queueSize <= |queue| && (queue != [] ==> r.queueSize > 0)
  {
  }

  /** Evaluating again with nothing changed chooses the same format: the hysteresis does not
      oscillate. */
  lemma ChoiceIsStable(current: Option<Format>, ideal: Format, bufferedUs: int, limits: Thresholds)
    ensures var chosen := Choose(current, ideal, bufferedUs, limits);
            Choose(Some(chosen), ideal, bufferedUs, limits) == chosen
  {
  }

  /** More buffer never makes the choice leave the current format for a lower one, nor less buffer for
      a higher one. */
  lemma ChoiceIsMonotone(current: Format, ideal: Format, lessUs: int, moreUs: int, limits: Thresholds)
    requires lessUs <= moreUs
    ensures Choose(Some(current), ideal, lessUs, limits).bitrate <= Choose(Some(current), ideal, moreUs, limits).bitrate
  {
  }

  // ----- Demo evaluation ------------------------------------------------------------

  /** Lexicographic order of ids. */
  predicate IdLess(a: string, b: string) {
    if b == "" then false
    else if a == "" then true
    else a[0] < b[0] || (a[0] == b[0] && IdLess(a[1..], b[1..]))
  }

  lemma {:induction false} IdLessIsTransitive(a: string, b: string, c: string)
    requires IdLess(a, b) && IdLess(b, c)
    ensures IdLess(a, c)
  {
    if a != "" && b != "" && c != "" && a[0] == b[0] == c[0] {
      IdLessIsTransitive(a[1..], b[1..], c[1..]);
    }
  }

  lemma {:induction false} IdLessIsTotal(a: string, b: string)
    ensures IdLess(a, b) || IdLess(b, a) || a == b
  {
    if a != "" && b != "" && a[0] == b[0] {
      IdLessIsTotal(a[1..], b[1..]);
      assert a == [a[0]] + a[1..] && b == [b[0]] + b[1..];
    }
  }

  lemma {:induction false} IdLessIsIrreflexive(a: string)
    ensures !IdLess(a, a)
  {
    if a != "" {
      IdLessIsIrreflexive(a[1..]);
    }
  }

  /** The comparator: by rate, downwards or upwards, then by bitrate upwards, then by id downwards. */
  predicate Worse(descending: bool, f: Format, g: Format) {
    var r1 := if descending then g.maxPlayoutRate else f.maxPlayoutRate;
    var r2 := if descending then f.maxPlayoutRate else g.maxPlayoutRate;
    r1 < r2 || (r1 == r2 && (f.bitrate < g.bitrate || (f.bitrate == g.bitrate && IdLess(g.id, f.id))))
  }

  /** The first element that no other is greater than. */
  method MaxElement(formats: seq<Format>, descending: bool) returns (best: Format)
    requires formats != []
    ensures best in formats && forall f :: f in formats ==> !Worse(descending, best, f)
  {
    best := formats[0];
    IdLessIsIrreflexive(best.id);
    for i := 1 to |formats|
      invariant best in formats && forall j :: 0 <= j < i ==> !Worse(descending, best, formats[j])
    {
      if Worse(descending, best, formats[i]) {
        forall j | 0 <= j < i
          ensures !Worse(descending, formats[i], formats[j])
        {
          if Worse(descending, formats[i], formats[j]) {
            WorseIsTransitive(descending, best, formats[i], formats[j]);
          }
        }
        best := formats[i];
        IdLessIsIrreflexive(best.id);
      }
    }
  }

  lemma WorseIsTransitive(descending: bool, f: Format, g: Format, h: Format)
    requires Worse(descending, f, g) && Worse(descending, g, h)
    ensures Worse(descending, f, h)
  {
    if IdLess(h.id, g.id) && IdLess(g.id, f.id) {
      IdLessIsTransitive(h.id, g.id, f.id);
    }
  }

  /** The best rate, then the highest bitrate, then the least id. */
  ghost predicate IsDemoChoice(formats: seq<Format>, rate: real, f: Format) {
    && f in formats && IsBestRate(formats, rate, f.maxPlayoutRate)
    && forall g :: g in formats && g.maxPlayoutRate == f.maxPlayoutRate ==>
                     g.bitrate < f.bitrate || (g.bitrate == f.bitrate && !IdLess(g.id, f.id))
  }

  method SelectFormat(formats: seq<Format>, rate: real) returns (r: Option<Format>)
    ensures r.None? <==> formats == []
    ensures r.Some? ==> IsDemoChoice(formats, rate, r.value)
  {
    var fast, slow := [], [];
    for i := 0 to |formats|
      invariant forall f :: f in fast <==> f in formats[..i] && f.maxPlayoutRate as real >= rate
      invariant forall f :: f in slow <==> f in formats[..i] && (f.maxPlayoutRate as real) < rate
    {
      assert formats[..i + 1] == formats[..i] + [formats[i]];
      if formats[i].maxPlayoutRate as real >= rate {
        fast := fast + [formats[i]];
      } else {
        slow := slow + [formats[i]];
      }
    }
    assert formats[..|formats|] == formats;
    assert formats != [] ==> formats[0] in fast || formats[0] in slow;
    if fast == [] {
      if slow == [] {
        return None;
      }
      var best := MaxElement(slow, false);
      return Some(best);
    }
    var best := MaxElement(fast, true);
    return Some(best);
  }

  /** Both evaluators choose the same rate; they choose the same bitrate exactly when the demo choice
      is within the budget, or leaves no other bitrate to choose. */
  lemma EvaluatorsAgreeIff(formats: seq<Format>, budget: int, rate: real, f: Format, g: Format)
    requires IsIdeal(formats, budget, rate, f) && IsDemoChoice(formats, rate, g)
    ensures f.maxPlayoutRate == g.maxPlayoutRate
    ensures f.bitrate == g.bitrate <==>
              || g.bitrate <= budget
              || forall x :: x in formats && x.maxPlayoutRate == g.maxPlayoutRate ==> x.bitrate == g.bitrate
  {
    if g.bitrate <= budget {
      assert IsIdeal(formats, budget, rate, g);
      IdealIsUnique(formats, budget, rate, f, g);
    }
  }
}
