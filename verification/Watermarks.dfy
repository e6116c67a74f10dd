/**
 When the load control fills, whom it grants and what it notifies, told by the calls alone: by how
 far each loader last said it leads playback, by the bytes last seen in use, and by what the
 control did before. Class and specification of the control work on levels that they keep;
 here those are compared with what was reported.
 */
module Watermarks {
  import opened Samples
  import opened LoadScheduling

  ghost predicate StepsTo(c: Control, call: Call, c': Control) {
    CallOk(c, call) && c' == Perform(c, call, false)
  }

  ghost predicate IsRun(cfg: Config, states: seq<Control>, calls: seq<Call>) {
    && |states| == |calls| + 1 && states[0] == Initial(cfg)
    && forall i :: 0 <= i < |calls| ==> StepsTo(states[i], calls[i], states[i + 1])
  }

  // ----- What the calls say ---------------------------------------------------------

  /** The loaders registered by the first `i` calls, each with its last report if it has made one. */
  function Reports(calls: seq<Call>, i: nat): map<LoaderId, Option<Report>>
    requires i <= |calls|
  {
    if i == 0 then map[]
    else
      match calls[i - 1]
      case CallRegister(l, _) => Reports(calls, i - 1)[l := None]
      case CallUnregister(l) => Reports(calls, i - 1) - {l}
      case CallUpdate(l, r) => Reports(calls, i - 1)[l := Some(r)]
  }

  /** What each registered loader contributes. */
  function Shares(calls: seq<Call>, i: nat): map<LoaderId, nat>
    requires i <= |calls|
  {
    if i == 0 then map[]
    else
      match calls[i - 1]
      case CallRegister(l, contribution) => Shares(calls, i - 1)[l := contribution]
      case CallUnregister(l) => Shares(calls, i - 1) - {l}
      case CallUpdate(_, _) => Shares(calls, i - 1)
  }

  /** The sum of the contributions. */
  function Target(calls: seq<Call>, i: nat): int
    requires i <= |calls|
  {
    if i == 0 then 0
    else
      match calls[i - 1]
      case CallRegister(_, contribution) => Target(calls, i - 1) + contribution
      case CallUnregister(l) =>
        Target(calls, i - 1) - if l in Shares(calls, i - 1) then Shares(calls, i - 1)[l] else 0
      case CallUpdate(_, _) => Target(calls, i - 1)
  }

  /** The bytes in use and the target when the last report was made. */
  datatype Usage = Usage(inUse: nat, target: int)

  function LastUsage(calls: seq<Call>, i: nat): Option<Usage>
    requires i <= |calls|
  {
    if i == 0 then None
    else if calls[i - 1].CallUpdate? then Some(Usage(calls[i - 1].report.inUse, Target(calls, i - 1)))
    else LastUsage(calls, i - 1)
  }

  // ----- Watermarks -----------------------------------------------------------------

  predicate Positioned(r: Option<Report>) {
    r.Some? && r.value.next != NO_POSITION
  }

  /** Above the high watermark, or with nothing to load. */
  predicate IsAhead(cfg: Config, r: Option<Report>) {
    Positioned(r) ==> cfg.highUs < r.value.next - r.value.playbackUs
  }

  /** Below the low watermark. */
  predicate IsShort(cfg: Config, r: Option<Report>) {
    !IsAhead(cfg, r) && r.value.next - r.value.playbackUs < cfg.lowUs
  }

  /** More of the target than the high limit is in use. */
  predicate IsFull(cfg: Config, u: Option<Usage>) {
    u.Some? ==> if u.value.target == 0 then u.value.inUse > 0
                else u.value.inUse as real / u.value.target as real > cfg.highLoad
  }

  /** Less of it than the low limit. */
  predicate HasRoom(cfg: Config, u: Option<Usage>) {
    !IsFull(cfg, u) && u.value.target != 0 && u.value.inUse as real / u.value.target as real < cfg.lowLoad
  }

  /** Some loader or the buffer needs more. */
  ghost predicate Needy(cfg: Config, reports: map<LoaderId, Option<Report>>, u: Option<Usage>) {
    HasRoom(cfg, u) || exists l :: l in reports && IsShort(cfg, reports[l])
  }

  /** All loaders and the buffer have enough. */
  ghost predicate Sated(cfg: Config, reports: map<LoaderId, Option<Report>>, u: Option<Usage>) {
    IsFull(cfg, u) && forall l :: l in reports ==> IsAhead(cfg, reports[l])
  }

  predicate SomeLoading(reports: map<LoaderId, Option<Report>>) {
    exists l :: l in reports && reports[l].Some? && reports[l].value.loading
  }

  predicate SomePositioned(reports: map<LoaderId, Option<Report>>) {
    exists l :: l in reports && Positioned(reports[l])
  }

  /** Filling, from what was reported and what it was before. */
  ghost predicate Fills(cfg: Config, reports: map<LoaderId, Option<Report>>, u: Option<Usage>, before: bool) {
    && (SomeLoading(reports) || SomePositioned(reports))
    && (Needy(cfg, reports, u) || (before && !Sated(cfg, reports, u)))
  }

  ghost predicate IsFilling(cfg: Config, calls: seq<Call>, i: nat)
    requires i <= |calls|
  {
    i > 0 &&
    if calls[i - 1].CallRegister? then IsFilling(cfg, calls, i - 1)
    else Fills(cfg, Reports(calls, i), LastUsage(calls, i), IsFilling(cfg, calls, i - 1))
  }

  /** Loading has been announced: since filling began, until it ended and no loader was busy. */
  ghost predicate IsAnnounced(cfg: Config, calls: seq<Call>, i: nat)
    requires i <= |calls|
  {
    i > 0 &&
    if calls[i - 1].CallRegister? then IsAnnounced(cfg, calls, i - 1)
    else IsFilling(cfg, calls, i) || (IsAnnounced(cfg, calls, i - 1) && SomeLoading(Reports(calls, i)))
  }

  // ----- The control keeps what was reported ----------------------------------------

  ghost predicate KeepsReport(cfg: Config, state: LoaderState, r: Option<Report>) {
    && state.next == (if r.Some? then r.value.next else NO_POSITION)
    && state.loading == (r.Some? && r.value.loading)
    && (state.level == BELOW_LOW <==> IsShort(cfg, r))
    && (state.level == ABOVE_HIGH <==> IsAhead(cfg, r))
    && state.level <= BELOW_LOW
  }

  ghost predicate KeepsUsage(cfg: Config, level: nat, u: Option<Usage>) {
    && (level == BELOW_LOW <==> HasRoom(cfg, u))
    && (level == ABOVE_HIGH <==> IsFull(cfg, u))
    && level <= BELOW_LOW
  }

  ghost predicate Keeps(c: Control, reports: map<LoaderId, Option<Report>>, shares: map<LoaderId, nat>,
                        u: Option<Usage>) {
    && c.loaders.Keys == reports.Keys == shares.Keys
    && (forall l :: l in reports ==> KeepsReport(c.cfg, c.loaders[l], reports[l]))
    && (forall l :: l in shares && l in c.loaders ==> c.loaders[l].contribution == shares[l])
    && KeepsUsage(c.cfg, c.bufferLevel, u)
  }

  lemma LevelsKeep(cfg: Config, contribution: nat, r: Report, target: int)
    ensures var state := LoaderState(contribution, LoaderLevel(cfg, r.playbackUs, r.next), r.loading, r.next);
            KeepsReport(cfg, state, Some(r))
    ensures KeepsUsage(cfg, BufferLevel(cfg, r.inUse, target), Some(Usage(r.inUse, target)))
  {
  }

  /** Levels decide as watermarks do. */
  lemma FillingIsFills(c: Control, reports: map<LoaderId, Option<Report>>, shares: map<LoaderId, nat>, u: Option<Usage>)
    requires Keeps(c, reports, shares, u)
    ensures Filling(c) <==> Fills(c.cfg, reports, u, c.filling)
    ensures AnyLoading(c.loaders) <==> SomeLoading(reports)
  {
    assert AnyLoading(c.loaders) <==> SomeLoading(reports);
    assert AnyPosition(c.loaders) <==> SomePositioned(reports);
    assert AnyAtLevel(c.loaders, BELOW_LOW) <==> exists l :: l in reports && IsShort(c.cfg, reports[l]);
    assert HighestLevel(c.bufferLevel, c.loaders) == BELOW_LOW <==> Needy(c.cfg, reports, u);
    assert HighestLevel(c.bufferLevel, c.loaders) == ABOVE_HIGH <==> Sated(c.cfg, reports, u);
  }

  // ----- Runs -----------------------------------------------------------------------

  /** `c'` is `c1` with filling and announcements decided afresh. */
  ghost predicate Decides(c1: Control, c': Control) {
    && Settled(c') && c'.cfg == c1.cfg && c'.loaders == c1.loaders && c'.target == c1.target
    && c'.bufferLevel == c1.bufferLevel && c'.filling == Filling(c1)
    && c'.notified == (Filling(c1) || (c1.notified && AnyLoading(c1.loaders)))
  }

  lemma RecomputeDecides(c1: Control)
    ensures Decides(c1, Recompute(c1))
  {
    RecomputeSettles(c1);
  }

  /** An update that changes nothing has nothing to decide. */
  lemma UpdateDecides(c: Control, l: LoaderId, r: Report)
    requires Settled(c) && l in c.loaders
    ensures Decides(Note(c, l, r), Update(c, l, r))
  {
    var c1 := Note(c, l, r);
    RecomputeDecides(c1);
    if c1.loaders[l] == c.loaders[l] && c1.bufferLevel == c.bufferLevel {
      assert c1.loaders == c.loaders;
      assert c1 == c;
    }
  }

  ghost predicate Follows(cfg: Config, c: Control, calls: seq<Call>, i: nat)
    requires i <= |calls|
  {
    && c.cfg == cfg && Settled(c) && c.target == Target(calls, i)
    && Keeps(c, Reports(calls, i), Shares(calls, i), LastUsage(calls, i))
    && c.filling == IsFilling(cfg, calls, i) && c.notified == IsAnnounced(cfg, calls, i)
  }

  lemma DecidedFollows(cfg: Config, c1: Control, c': Control, calls: seq<Call>, i: nat)
    requires i < |calls| && !calls[i].CallRegister? && Decides(c1, c') && c1.cfg == cfg
    requires c1.target == Target(calls, i + 1)
    requires Keeps(c1, Reports(calls, i + 1), Shares(calls, i + 1), LastUsage(calls, i + 1))
    requires c1.filling == IsFilling(cfg, calls, i) && c1.notified == IsAnnounced(cfg, calls, i)
    ensures Follows(cfg, c', calls, i + 1)
  {
    FillingIsFills(c1, Reports(calls, i + 1), Shares(calls, i + 1), LastUsage(calls, i + 1));
  }

  lemma RegisterFollows(cfg: Config, c: Control, calls: seq<Call>, i: nat)
    requires i < |calls| && calls[i].CallRegister? && CallOk(c, calls[i]) && Follows(cfg, c, calls, i)
    ensures Follows(cfg, Perform(c, calls[i], false), calls, i + 1)
  {
    RegisterIsNeutral(c, calls[i].loader, calls[i].contribution);
  }

  lemma UnregisterFollows(cfg: Config, c: Control, calls: seq<Call>, i: nat)
    requires i < |calls| && calls[i].CallUnregister? && CallOk(c, calls[i]) && Follows(cfg, c, calls, i)
    ensures Follows(cfg, Perform(c, calls[i], false), calls, i + 1)
  {
    var l := calls[i].loader;
    var c1 := c.(loaders := c.loaders - {l}, target := c.target - c.loaders[l].contribution);
    RecomputeDecides(c1);
    DecidedFollows(cfg, c1, Unregister(c, l), calls, i);
  }

  lemma NoteKeeps(c: Control, l: LoaderId, r: Report, reports: map<LoaderId, Option<Report>>,
                  shares: map<LoaderId, nat>, u: Option<Usage>)
    requires l in c.loaders && Keeps(c, reports, shares, u)
    ensures Keeps(Note(c, l, r), reports[l := Some(r)], shares, Some(Usage(r.inUse, c.target)))
  {
    LevelsKeep(c.cfg, c.loaders[l].contribution, r, c.target);
  }

  lemma UpdateFollows(cfg: Config, c: Control, calls: seq<Call>, i: nat)
    requires i < |calls| && calls[i].CallUpdate? && CallOk(c, calls[i]) && Follows(cfg, c, calls, i)
    ensures Follows(cfg, Perform(c, calls[i], false), calls, i + 1)
  {
    var l, r := calls[i].loader, calls[i].report;
    NoteKeeps(c, l, r, Reports(calls, i), Shares(calls, i), LastUsage(calls, i));
    UpdateDecides(c, l, r);
    DecidedFollows(cfg, Note(c, l, r), Update(c, l, r), calls, i);
  }

  lemma {:induction false} RunFollows(cfg: Config, states: seq<Control>, calls: seq<Call>, i: nat)
    requires IsRun(cfg, states, calls) && i < |states|
    ensures Follows(cfg, states[i], calls, i)
  {
    if i == 0 {
      InitialSettled(cfg);
    } else {
      RunFollows(cfg, states, calls, i - 1);
      StepFollows(cfg, states[i - 1], states[i], calls, i - 1);
    }
  }

  lemma StepFollows(cfg: Config, c: Control, c': Control, calls: seq<Call>, i: nat)
    requires i < |calls| && StepsTo(c, calls[i], c') && Follows(cfg, c, calls, i)
    ensures Follows(cfg, c', calls, i + 1)
  {
    match calls[i]
    case CallRegister(_, _) => RegisterFollows(cfg, c, calls, i);
    case CallUnregister(_) => UnregisterFollows(cfg, c, calls, i);
    case CallUpdate(_, _) => UpdateFollows(cfg, c, calls, i);
  }

  /** After every call of every run, the control fills and has announced exactly as the reports say. In
      particular, after a report or when a loader has left: it fills if some loader with a position
      is below the low watermark; it does not if every one is above the high watermark and the
      buffer is over its limit; and if neither the buffer nor any loader is low, and not all are
      high, it goes on as it was, unless no loader is busy or has a position. */
  lemma FillingFollowsWatermarks(cfg: Config, states: seq<Control>, calls: seq<Call>, i: nat)
    requires IsRun(cfg, states, calls) && 0 < i < |states|
    ensures states[i].filling <==> IsFilling(cfg, calls, i)
    ensures states[i].notified <==> IsAnnounced(cfg, calls, i)
    ensures !calls[i - 1].CallRegister? ==>
              var reports, u := Reports(calls, i), LastUsage(calls, i);
              && ((exists l :: l in reports && IsShort(cfg, reports[l])) ==> states[i].filling)
              && (Sated(cfg, reports, u) ==> !states[i].filling)
              && (&& !Needy(cfg, reports, u) && !Sated(cfg, reports, u)
                  && (SomeLoading(reports) || SomePositioned(reports))
                  ==> states[i].filling == states[i - 1].filling)
    ensures calls[i - 1].CallRegister? ==> states[i].filling == states[i - 1].filling
  {
    RunFollows(cfg, states, calls, i - 1);
    RunFollows(cfg, states, calls, i);
  }

  /** No registered loader with a position is behind, and positions are not negative. */
  ghost predicate IsLeastReport(reports: map<LoaderId, Option<Report>>, r: Report) {
    forall l :: l in reports && Positioned(reports[l]) ==> r.next <= reports[l].value.next
  }

  ghost predicate NonNegative(reports: map<LoaderId, Option<Report>>) {
    forall l :: l in reports && Positioned(reports[l]) ==> reports[l].value.next >= 0
  }

  /** In every run a report is granted if and only if the control fills, the bytes in use are below the
      sum of contributions, and no loader is behind. */
  lemma GrantsFollowReports(cfg: Config, states: seq<Control>, calls: seq<Call>, i: nat)
    requires IsRun(cfg, states, calls) && i < |calls| && calls[i].CallUpdate? && calls[i].report.next >= 0
    requires NonNegative(Reports(calls, i))
    ensures Granted(states[i + 1], calls[i].report) <==>
              && IsFilling(cfg, calls, i + 1) && calls[i].report.inUse < Target(calls, i + 1)
              && IsLeastReport(Reports(calls, i + 1), calls[i].report)
  {
    RunFollows(cfg, states, calls, i);
    RunFollows(cfg, states, calls, i + 1);
    StepGrants(states[i], calls[i], states[i + 1], Reports(calls, i), Reports(calls, i + 1));
  }

  lemma StepGrants(c: Control, call: Call, c': Control, reports: map<LoaderId, Option<Report>>,
                   reports': map<LoaderId, Option<Report>>)
    requires StepsTo(c, call, c') && call.CallUpdate? && call.report.next >= 0 && Settled(c) && NonNegative(reports)
    requires c.loaders.Keys == reports.Keys && c'.loaders.Keys == reports'.Keys
    requires forall l :: l in reports ==> KeepsReport(c.cfg, c.loaders[l], reports[l])
    requires forall l :: l in reports' ==> KeepsReport(c'.cfg, c'.loaders[l], reports'[l])
    ensures Granted(c', call.report) <==>
              c'.filling && call.report.inUse < c'.target && IsLeastReport(reports', call.report)
  {
    assert forall k :: HasPosition(c.loaders, k) <==> k in reports && Positioned(reports[k]);
    assert forall k :: HasPosition(c'.loaders, k) <==> k in reports' && Positioned(reports'[k]);
    GrantIffLeast(c, call.loader, call.report);
  }
}
