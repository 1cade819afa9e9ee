/**
 * run_engine itself (main.py, lines 38-205): the engine object whose two
 * fields are the closure variables `current_set_name` and `current_state`,
 * its channel, the poll loop, the clean-up, and the whole run from the
 * library scan to the final fade.  Every method is proved to agree with
 * the pure functions of StateMachine and Polling.
 */
module Engine {
  import opened Wrappers
  import opened SetLibrary
  import opened Playback
  import opened StateMachine
  import opened Polling

  class Engine {
    /** `music_sets`, fixed once loaded. */
    const lib: Library
    /** Whether an `on_step` callback was supplied. */
    const notify: bool
    /** `pygame.mixer.Channel(0)`. */
    const channel: Channel
    /** `current_set_name`. */
    var currentSet: Option<string>
    /** `current_state`: 1 = default, 2 = intense, 3 = vocals. */
    var state: int
    /** Everything the engine has issued to the channel or notified, in
        order. */
    var trace: seq<Event>

    /** The engine's state as the pure model sees it. */
    function CurrentMachine(): Machine
      reads this, channel
    {
      Machine(currentSet, state, channel.busy)
    }

    ghost predicate Valid()
      reads this, channel
    {
      Inv(lib, CurrentMachine()) && channel.log == IssuedOps(trace)
    }

    /** Lines 101-103: no set yet, state 1, a fresh channel. */
    constructor (lib: Library, notify: bool, busy: bool)
      requires WellFormed(lib) && |lib.names| > 0
      ensures Valid() && fresh(channel)
      ensures this.lib == lib && this.notify == notify
      ensures CurrentMachine() == Machine(None, 1, busy) && trace == []
    {
      this.lib := lib;
      this.notify := notify;
      channel := new Channel(busy);
      currentSet := None;
      state := 1;
      trace := [];
    }

    /** `play_loop_sound`, recording what it issues. */
    method PlayLoopSound(s: Sound)
      requires Valid()
      modifies this, channel
      ensures Valid()
      ensures currentSet == old(currentSet) && state == old(state) && channel.busy
      ensures trace == old(trace) + Issue(CrossfadeOps(old(channel.busy), s))
    {
      var ops := CrossfadeOps(channel.busy, s);
      channel.PlayLoop(s);
      IssueFaithful(ops);
      IssuedOpsAppend(trace, Issue(ops));
      trace := trace + Issue(ops);
    }

    /** `play_current_state`.  The index is always in range, so the branch
        for an invalid state is dead. */
    method PlayCurrentState()
      requires Valid()
      modifies this, channel
      ensures Valid()
      ensures var s := StateMachine.PlayCurrentState(lib, old(CurrentMachine()));
              CurrentMachine() == s.machine && trace == old(trace) + s.events
    {
      if currentSet.None? {
        return;
      }
      var sounds := lib.sets[currentSet.value];
      var index := state - 1;
      if 0 <= index < |sounds| {
        PlayLoopSound(sounds[index]);
      } else {
        assert false;
      }
    }

    /** `start_set`. */
    method StartSet(name: string)
      requires Valid() && name in lib.sets
      modifies this, channel
      ensures Valid()
      ensures var s := StateMachine.StartSet(lib, old(CurrentMachine()), name);
              CurrentMachine() == s.machine && trace == old(trace) + s.events
    {
      currentSet := Some(name);
      state := 1;
      PlayCurrentState();
    }

    /** `advance_state`.  The state is always 1, 2 or 3, so the defensive
        reset branch is dead. */
    method Advance(draw: nat)
      requires Valid() && DrawFits(lib, CurrentMachine(), draw)
      modifies this, channel
      ensures Valid()
      ensures var s := AdvanceState(lib, notify, old(CurrentMachine()), draw);
              CurrentMachine() == s.machine && trace == old(trace) + s.events
    {
      if currentSet.None? {
        return;
      }
      if state == 1 {
        state := 2;
        PlayCurrentState();
      } else if state == 2 {
        state := 3;
        PlayCurrentState();
      } else if state == 3 {
        var next := ChooseRandomSet(lib.names, currentSet, draw);
        StartSet(next);
      } else {
        assert false;
      }
      if notify {
        IssuedOpsAppend(trace, [OnStep]);
        trace := trace + [OnStep];
      }
    }

    /** The `while True` loop over a finite run of samples; `stopped` says
        whether the stop flag ended it. */
    method PollLoop(samples: seq<Sample>) returns (stopped: bool, advances: nat)
      requires Valid() && DrawsFit(lib, samples)
      modifies this, channel
      ensures Valid()
      ensures var p := Poll(lib, notify, old(CurrentMachine()), false, samples);
              && CurrentMachine() == p.machine && trace == old(trace) + p.events
              && stopped == p.stopped && advances == p.advances
    {
      ghost var whole := Poll(lib, notify, CurrentMachine(), false, samples);
      assert samples[0..] == samples;
      ghost var done: seq<Event> := [];
      ghost var t0 := trace;
      var keyHeld := false;
      var i := 0;
      stopped, advances := false, 0;
      while i < |samples|
        invariant 0 <= i <= |samples|
        invariant Valid() && trace == t0 + done
        invariant DrawsFit(lib, samples[i..])
        invariant whole == After(done, advances, Poll(lib, notify, CurrentMachine(), keyHeld, samples[i..]))
      {
        var sample := samples[i];
        ghost var m := CurrentMachine();
        PollPass(lib, notify, m, keyHeld, samples, i, done, advances);
        if sample.stop {
          stopped := true;
          break;
        }
        if sample.pressed {
          if !keyHeld {
            ghost var s := AdvanceState(lib, notify, m, sample.draw);
            Advance(sample.draw);
            done := done + s.events;
            advances := advances + 1;
            keyHeld := true;
          }
        } else {
          keyHeld := false;
        }
        i := i + 1;
      }
      PollPass(lib, notify, CurrentMachine(), keyHeld, samples, i, done, advances);
    }

    /** The `finally` clean-up (lines 200-204). */
    method Shutdown()
      requires Valid()
      modifies this, channel
      ensures Valid()
      ensures currentSet == old(currentSet) && state == old(state) && !channel.busy
      ensures trace == old(trace) + Issue(ShutdownOps(old(channel.busy)))
    {
      var ops := ShutdownOps(channel.busy);
      channel.Shutdown();
      IssueFaithful(ops);
      IssuedOpsAppend(trace, Issue(ops));
      trace := trace + Issue(ops);
    }
  }

  // ---------------------------------------------------------------------
  // The whole run
  // ---------------------------------------------------------------------

  /** How a run ends: it never starts, the stop flag ended it, or the
      samples ran out with the engine still looping. */
  datatype RunOutcome = Fatal(error: LoadError) | Stopped(final: Machine) | StillRunning(final: Machine)

  datatype Run = Run(outcome: RunOutcome, events: seq<Event>)

  /** The random draws are in range: the start draw for the whole library,
      every later draw for a pool without the current set. */
  predicate DrawsAdmissible(root: Option<seq<Folder>>, startDraw: nat, samples: seq<Sample>)
  {
    match Load(root)
    case Failure(_) => true
    case Success(lib) => startDraw < |lib.names| && DrawsFit(lib, samples)
  }

  /** The reference run: load, start a random set, poll, and clean up when
      stopped.  `busy` is the channel's busy flag when the engine takes it. */
  function EngineRun(root: Option<seq<Folder>>, notify: bool, busy: bool, startDraw: nat, samples: seq<Sample>): Run
    requires DrawsAdmissible(root, startDraw, samples)
  {
    match Load(root)
    case Failure(e) => Run(Fatal(e), [])
    case Success(lib) =>
      var first := ChooseRandomSet(lib.names, None, startDraw);
      var s := StateMachine.StartSet(lib, Machine(None, 1, busy), first);
      StartSetPlaysFirstTrack(lib, Machine(None, 1, busy), first);
      var p := Poll(lib, notify, s.machine, false, samples);
      if p.stopped then
        Run(Stopped(p.machine.(busy := false)), s.events + p.events + Issue(ShutdownOps(p.machine.busy)))
      else
        Run(StillRunning(p.machine), s.events + p.events)
  }

  /** `run_engine` (main.py, lines 38-205). */
  method RunEngine(root: Option<seq<Folder>>, notify: bool, busy: bool, startDraw: nat, samples: seq<Sample>)
    returns (r: Run)
    requires DrawsAdmissible(root, startDraw, samples)
    ensures r == EngineRun(root, notify, busy, startDraw, samples)
  {
    var loaded := LoadLibrary(root);
    if loaded.Failure? {
      return Run(Fatal(loaded.error), []);
    }
    var lib := loaded.value;
    assert startDraw < |lib.names| && DrawsFit(lib, samples);
    var first := ChooseRandomSet(lib.names, None, startDraw);
    var engine := new Engine(lib, notify, busy);
    engine.StartSet(first);
    ghost var s := StateMachine.StartSet(lib, Machine(None, 1, busy), first);
    StartSetPlaysFirstTrack(lib, Machine(None, 1, busy), first);
    assert engine.trace == s.events;
    var stopped, _ := engine.PollLoop(samples);
    ghost var p := Poll(lib, notify, s.machine, false, samples);
    assert engine.CurrentMachine() == p.machine && engine.trace == s.events + p.events && stopped == p.stopped;
    if stopped {
      engine.Shutdown();
      r := Run(Stopped(engine.CurrentMachine()), engine.trace);
    } else {
      r := Run(StillRunning(engine.CurrentMachine()), engine.trace);
    }
  }

  // ---------------------------------------------------------------------
  // What a run does
  // ---------------------------------------------------------------------

  /** The engine never starts when the sets root is missing or no folder
      qualifies, and then it plays nothing and notifies nobody. */
  lemma FatalRunIsSilent(root: Option<seq<Folder>>, notify: bool, busy: bool, startDraw: nat, samples: seq<Sample>)
    requires DrawsAdmissible(root, startDraw, samples)
    ensures var r := EngineRun(root, notify, busy, startDraw, samples);
            && (r.outcome.Fatal? <==>
                  root.None? || forall i :: 0 <= i < |root.value| ==> !FolderOutcomeOf(root.value[i]).Admitted?)
            && (r.outcome.Fatal? ==> r.events == [])
  {
  }

  /** A run that starts first crossfades to track 1 of the drawn set, with
      no `on_step`; then `on_step` is called once per rising edge of the
      key before the stop flag (when a callback is given), and the final
      state is always 1, 2 or 3 on a set of the library. */
  lemma RunNotifiesOncePerEdge(root: Option<seq<Folder>>, notify: bool, busy: bool, startDraw: nat, samples: seq<Sample>)
    requires DrawsAdmissible(root, startDraw, samples) && Load(root).Success?
    ensures var lib := Load(root).value;
            var r := EngineRun(root, notify, busy, startDraw, samples);
            var first := ChooseRandomSet(lib.names, None, startDraw);
            && !r.outcome.Fatal?
            && |r.events| >= |CrossfadeOps(busy, lib.sets[first][0])|
            && r.events[..|CrossfadeOps(busy, lib.sets[first][0])|] == Issue(CrossfadeOps(busy, lib.sets[first][0]))
            && CountOnSteps(r.events) == (if notify then EdgesBefore(samples, FirstStop(samples)) else 0)
            && Inv(lib, r.outcome.final) && r.outcome.final.current.Some?
            && (r.outcome.Stopped? <==> exists i :: 0 <= i < |samples| && samples[i].stop)
  {
    var lib := Load(root).value;
    var first := ChooseRandomSet(lib.names, None, startDraw);
    var m0 := Machine(None, 1, busy);
    StartSetPlaysFirstTrack(lib, m0, first);
    var s := StateMachine.StartSet(lib, m0, first);
    var p := Poll(lib, notify, s.machine, false, samples);
    PollCountsEdges(lib, notify, s.machine, samples);
    PollNotifiesPerAdvance(lib, notify, s.machine, false, samples);
    IssuedOpsAppend(s.events, p.events);
    var shut := Issue(ShutdownOps(p.machine.busy));
    IssueFaithful(ShutdownOps(p.machine.busy));
    IssuedOpsAppend(s.events + p.events, shut);
    IssueFaithful(CrossfadeOps(busy, lib.sets[first][0]));
  }

  /** A stopped run ends with the shutdown fade-out: the channel is busy
      from the first crossfade on, so the clean-up always fades. */
  lemma StoppedRunFadesOut(root: Option<seq<Folder>>, notify: bool, busy: bool, startDraw: nat, samples: seq<Sample>)
    requires DrawsAdmissible(root, startDraw, samples)
    requires EngineRun(root, notify, busy, startDraw, samples).outcome.Stopped?
    ensures var r := EngineRun(root, notify, busy, startDraw, samples);
            && |r.events| > 0 && r.events[|r.events| - 1] == Issued(FadeOut(ShutdownFadeMs))
            && !r.outcome.final.busy
  {
    var lib := Load(root).value;
    var first := ChooseRandomSet(lib.names, None, startDraw);
    var m0 := Machine(None, 1, busy);
    StartSetPlaysFirstTrack(lib, m0, first);
    var s := StateMachine.StartSet(lib, m0, first);
    PollStaysBusy(lib, notify, s.machine, false, samples);
    IssueFaithful(ShutdownOps(true));
  }

  /** Once a track plays, the channel stays busy through any polling. */
  lemma {:induction false} PollStaysBusy(lib: Library, notify: bool, m: Machine, held: bool, samples: seq<Sample>)
    requires Inv(lib, m) && m.busy && DrawsFit(lib, samples)
    ensures Poll(lib, notify, m, held, samples).machine.busy
    decreases |samples|
  {
    if samples != [] && !samples[0].stop {
      if samples[0].pressed && !held {
        AdvanceKeepsInv(lib, notify, m, samples[0].draw);
        var s := AdvanceState(lib, notify, m, samples[0].draw);
        if m.current.Some? {
          AdvanceMoves(lib, notify, m, samples[0].draw);
        }
        PollStaysBusy(lib, notify, s.machine, true, samples[1..]);
      } else {
        PollStaysBusy(lib, notify, m, samples[0].pressed, samples[1..]);
      }
    }
  }
}
