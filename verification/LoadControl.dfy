/** The load control as a class, proved against module `LoadScheduling`. */
module LoadControls {
  import opened LoadScheduling

  class LoadControl {
    const cfg: Config
    var loaders: set<LoaderId>
    var states: map<LoaderId, LoaderState>
    var targetBufferSize: int
    var maxLoadStartPositionUs: int
    var bufferState: nat
    var fillingBuffers: bool
    var lastLoadingNotify: bool
    var notes: seq<bool>

    ghost predicate Valid()
      reads this
    {
      && loaders == states.Keys
      && bufferState <= BELOW_LOW
      && forall l :: l in states ==> states[l].level <= BELOW_LOW
    }

    ghost function Model(): Control
      reads this
    {
      Control(cfg, states, targetBufferSize, maxLoadStartPositionUs, bufferState,
              fillingBuffers, lastLoadingNotify, notes)
    }

    constructor (cfg: Config)
      ensures Valid()
      ensures Model() == Initial(cfg)
    {
      this.cfg := cfg;
      loaders, states := {}, map[];
      targetBufferSize, maxLoadStartPositionUs, bufferState := 0, 0, 0;
      fillingBuffers, lastLoadingNotify, notes := false, false, [];
    }

    method Register(loader: LoaderId, contribution: nat)
      requires Valid()
      modifies this
      ensures Valid()
      ensures Model() == LoadScheduling.Register(old(Model()), loader, contribution)
    {
      loaders := loaders + {loader};
      states := states[loader := LoaderState(contribution, ABOVE_HIGH, false, NO_POSITION)];
      targetBufferSize := targetBufferSize + contribution;
    }

    method Unregister(loader: LoaderId)
      requires Valid() && loader in loaders
      modifies this
      ensures Valid()
      ensures Model() == LoadScheduling.Unregister(old(Model()), loader)
    {
      loaders := loaders - {loader};
      targetBufferSize := targetBufferSize - states[loader].contribution;
      states := states - {loader};
      UpdateControlState();
    }

    method Update(loader: LoaderId, playbackUs: int, next: int, loading: bool, inUse: nat) returns (granted: bool)
      requires Valid() && loader in loaders
      modifies this
      ensures Valid()
      ensures var r := Report(playbackUs, next, loading, inUse);
              && Model() == LoadScheduling.Update(old(Model()), loader, r)
              && granted == Granted(Model(), r)
    {
      var changed := Store(loader, Report(playbackUs, next, loading, inUse));
      if changed {
        UpdateControlState();
      }
      granted := inUse < targetBufferSize && next != NO_POSITION && next <= maxLoadStartPositionUs;
    }

    /** Stores a report, and says whether the loader's state or the buffer's level changed. */
    method Store(loader: LoaderId, r: Report) returns (changed: bool)
      requires Valid() && loader in loaders
      modifies this`states, this`bufferState
      ensures Valid() && Model() == Note(old(Model()), loader, r)
      ensures changed == (states[loader] != old(states)[loader] || bufferState != old(bufferState))
    {
      var level := LoaderLevel(cfg, r.playbackUs, r.next);
      var state := states[loader];
      var loaderStateChanged := state.level != level || state.next != r.next || state.loading != r.loading;
      if loaderStateChanged {
        states := states[loader := state.(level := level, next := r.next, loading := r.loading)];
      }
      assert states == old(states)[loader := LoaderState(state.contribution, level, r.loading, r.next)];
      var newBufferState := BufferLevel(cfg, r.inUse, targetBufferSize);
      var bufferStateChanged := bufferState != newBufferState;
      if bufferStateChanged {
        bufferState := newBufferState;
      }
      changed := loaderStateChanged || bufferStateChanged;
    }

    /** Summarises the loaders: whether one is loading, whether one has a position, and the
        most urgent level, starting from the buffer's. */
    method Survey() returns (loading: bool, havePosition: bool, highest: nat)
      requires Valid()
      ensures loading == AnyLoading(states)
      ensures havePosition == AnyPosition(states)
      ensures highest == HighestLevel(bufferState, states)
    {
      loading, havePosition, highest := false, false, bufferState;
      var todo := loaders;
      while todo != {}
        invariant todo <= loaders
        invariant loading <==> exists l :: l in states && l !in todo && states[l].loading
        invariant havePosition <==> exists l :: l in states && l !in todo && HasPosition(states, l)
        invariant bufferState <= highest <= BELOW_LOW
        invariant forall l :: l in states && l !in todo ==> states[l].level <= highest
        invariant highest == bufferState || exists l :: l in states && l !in todo && states[l].level == highest
        decreases todo
      {
        var l :| l in todo;
        loading := loading || states[l].loading;
        havePosition := havePosition || states[l].next != NO_POSITION;
        highest := if highest < states[l].level then states[l].level else highest;
        assert havePosition ==> exists k :: k in states && k !in todo - {l} && HasPosition(states, k) by {
          assert states[l].next != NO_POSITION ==> HasPosition(states, l);
        }
        todo := todo - {l};
      }
    }

    /** The least position among the loaders that have one. */
    method FindLeast() returns (least: int)
      requires Valid()
      ensures least == LeastPosition(states)
    {
      least := NO_POSITION;
      var todo := loaders;
      while todo != {}
        invariant todo <= loaders
        invariant least == NO_POSITION ==> forall l :: HasPosition(states, l) ==> l in todo
        invariant least != NO_POSITION ==>
                    && (exists l :: HasPosition(states, l) && states[l].next == least)
                    && forall l :: HasPosition(states, l) && l !in todo ==> least <= states[l].next
        decreases todo
      {
        var l :| l in todo;
        var time := states[l].next;
        if time != NO_POSITION && (least == NO_POSITION || time < least) {
          assert HasPosition(states, l);
          least := time;
        }
        todo := todo - {l};
      }
      if least != NO_POSITION {
        assert IsLeast(states, least);
      }
    }

    method UpdateControlState()
      requires Valid()
      modifies this`fillingBuffers, this`lastLoadingNotify, this`notes, this`maxLoadStartPositionUs
      ensures Valid()
      ensures Model() == Recompute(old(Model()))
    {
      var loading, havePosition, highest := Survey();
      fillingBuffers := loaders != {} && (loading || havePosition) &&
                        (highest == BELOW_LOW || (highest == BETWEEN && fillingBuffers));
      if fillingBuffers && !lastLoadingNotify {
        lastLoadingNotify := true;
        notes := notes + [true];
      } else if !fillingBuffers && lastLoadingNotify && !loading {
        lastLoadingNotify := false;
        notes := notes + [false];
      }
      maxLoadStartPositionUs := NO_POSITION;
      if fillingBuffers {
        maxLoadStartPositionUs := FindLeast();
      }
    }
  }
}
