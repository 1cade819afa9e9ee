/**
 * The state machine of run_engine as pure functions: the engine's two
 * closure variables (current set, current state) plus the channel's busy
 * flag, and what `play_current_state`, `start_set`, `choose_random_set` and
 * `advance_state` do to them (main.py, lines 101-169).  The Engine class
 * runs these steps in place and is proved to agree with them.
 */
module StateMachine {
  import opened Wrappers
  import opened SetLibrary
  import opened Playback

  /** What the engine's observer sees: an operation issued to the channel,
      or a call of the `on_step` callback. */
  datatype Event = Issued(op: ChannelOp) | OnStep

  /** `current_set_name`, `current_state`, and the channel's busy flag. */
  datatype Machine = Machine(current: Option<string>, state: int, busy: bool)

  /** One step: the machine afterwards and the events it produced. */
  datatype Step = Step(machine: Machine, events: seq<Event>)

  // ---------------------------------------------------------------------
  // Events
  // ---------------------------------------------------------------------

  function Issue(ops: seq<ChannelOp>): seq<Event>
  {
    if ops == [] then [] else [Issued(ops[0])] + Issue(ops[1..])
  }

  /** The channel operations among the events, in order. */
  function IssuedOps(events: seq<Event>): seq<ChannelOp>
  {
    if events == [] then []
    else (if events[0].Issued? then [events[0].op] else []) + IssuedOps(events[1..])
  }

  /** The number of `on_step` calls among the events. */
  function CountOnSteps(events: seq<Event>): nat
  {
    if events == [] then 0
    else (if events[0].OnStep? then 1 else 0) + CountOnSteps(events[1..])
  }

  lemma {:induction false} IssuedOpsAppend(a: seq<Event>, b: seq<Event>)
    ensures IssuedOps(a + b) == IssuedOps(a) + IssuedOps(b)
    ensures CountOnSteps(a + b) == CountOnSteps(a) + CountOnSteps(b)
  {
    if a != [] {
      assert (a + b)[1..] == a[1..] + b;
      IssuedOpsAppend(a[1..], b);
    } else {
      assert a + b == b;
    }
  }

  /** Issuing operations adds exactly those operations and no `on_step`. */
  lemma {:induction false} IssueFaithful(ops: seq<ChannelOp>)
    ensures IssuedOps(Issue(ops)) == ops
    ensures CountOnSteps(Issue(ops)) == 0
    ensures |Issue(ops)| == |ops|
    ensures forall i :: 0 <= i < |ops| ==> Issue(ops)[i] == Issued(ops[i])
  {
    if ops != [] {
      IssueFaithful(ops[1..]);
      IssuedOpsAppend([Issued(ops[0])], Issue(ops[1..]));
    }
  }

  // ---------------------------------------------------------------------
  // Choosing the next set
  // ---------------------------------------------------------------------

  /** `list.remove`: drop the first occurrence of `x`. */
  function RemoveFirst(names: seq<string>, x: string): (r: seq<string>)
    requires x in names
    ensures |r| == |names| - 1
    ensures forall n :: n in r ==> n in names
    ensures forall n :: n in names && n != x ==> n in r
    ensures Distinct(names) ==> Distinct(r) && x !in r
  {
    if names[0] == x then
      assert names == [names[0]] + names[1..];
      names[1..]
    else
      assert Distinct(names) ==> Distinct(names[1..]) && names[0] !in names[1..];
      [names[0]] + RemoveFirst(names[1..], x)
  }

  /** The names `choose_random_set` draws from: all set names, without
      `exclude` when it is one of them and there is more than one. */
  function Pool(names: seq<string>, exclude: Option<string>): (r: seq<string>)
    ensures |r| == if exclude.Some? && exclude.value in names && |names| > 1 then |names| - 1 else |names|
  {
    if exclude.Some? && exclude.value in names && |names| > 1 then RemoveFirst(names, exclude.value)
    else names
  }

  /** `choose_random_set(exclude)` with the random draw supplied as an
      index into the pool. */
  function ChooseRandomSet(names: seq<string>, exclude: Option<string>, draw: nat): (r: string)
    requires draw < |Pool(names, exclude)|
    ensures r in names
    ensures Distinct(names) && |names| > 1 && exclude.Some? ==> r != exclude.value
    ensures |names| == 1 ==> r == names[0]
  {
    Pool(names, exclude)[draw]
  }

  /** Every name other than the excluded one (or the only one) is drawn by
      some index: the pool is exactly the eligible names. */
  lemma EveryEligibleSetReachable(names: seq<string>, exclude: Option<string>, n: string)
    requires Distinct(names) && n in names
    requires |names| > 1 && exclude.Some? ==> n != exclude.value
    ensures exists draw: nat :: draw < |Pool(names, exclude)| && ChooseRandomSet(names, exclude, draw) == n
  {
    var pool := Pool(names, exclude);
    assert n in pool;
    var d :| 0 <= d < |pool| && pool[d] == n;
    assert ChooseRandomSet(names, exclude, d) == n;
  }

  // ---------------------------------------------------------------------
  // The steps
  // ---------------------------------------------------------------------

  /** The machine names a set of the library, if any. */
  predicate InLibrary(lib: Library, m: Machine)
  {
    m.current.Some? ==> m.current.value in lib.sets
  }

  /** The engine invariant: a well-formed non-empty library, a state of
      1, 2 or 3, and a current set (once there is one) from the library. */
  ghost predicate Inv(lib: Library, m: Machine)
  {
    && WellFormed(lib) && |lib.names| > 0
    && 1 <= m.state <= 3
    && InLibrary(lib, m)
  }

  /** `play_current_state` (main.py, lines 111-123). */
  function PlayCurrentState(lib: Library, m: Machine): Step
    requires InLibrary(lib, m)
  {
    if m.current.None? then Step(m, [])
    else
      var sounds := lib.sets[m.current.value];
      var index := m.state - 1;
      if 0 <= index < |sounds| then
        Step(m.(busy := true), Issue(CrossfadeOps(m.busy, sounds[index])))
      else
        Step(m, [])
  }

  /** `start_set` (main.py, lines 131-136). */
  function StartSet(lib: Library, m: Machine, name: string): Step
    requires name in lib.sets
  {
    PlayCurrentState(lib, m.(current := Some(name), state := 1))
  }

  /** The random draw an advance may consume is in range for the pool it
      would draw from. */
  predicate DrawFits(lib: Library, m: Machine, draw: nat)
  {
    m.current.Some? && m.state == 3 ==> draw < |Pool(lib.names, m.current)|
  }

  /** `advance_state` (main.py, lines 138-169); `notify` says whether an
      `on_step` callback was given. */
  function AdvanceState(lib: Library, notify: bool, m: Machine, draw: nat): Step
    requires WellFormed(lib) && InLibrary(lib, m) && DrawFits(lib, m, draw)
  {
    if m.current.None? then Step(m, [])
    else
      var t :=
        if m.state == 1 then PlayCurrentState(lib, m.(state := 2))
        else if m.state == 2 then PlayCurrentState(lib, m.(state := 3))
        else if m.state == 3 then StartSet(lib, m, ChooseRandomSet(lib.names, m.current, draw))
        else PlayCurrentState(lib, m.(state := 1));
      Step(t.machine, t.events + (if notify then [OnStep] else []))
  }

  // ---------------------------------------------------------------------
  // What the steps do
  // ---------------------------------------------------------------------

  /** Starting a set selects it at state 1 and crossfades to its first
      track; it never calls `on_step`. */
  lemma StartSetPlaysFirstTrack(lib: Library, m: Machine, name: string)
    requires WellFormed(lib) && name in lib.sets
    ensures StartSet(lib, m, name).machine == Machine(Some(name), 1, true)
    ensures StartSet(lib, m, name).events == Issue(CrossfadeOps(m.busy, lib.sets[name][0]))
    ensures CountOnSteps(StartSet(lib, m, name).events) == 0
  {
    IssueFaithful(CrossfadeOps(m.busy, lib.sets[name][0]));
  }

  /** Before a set is chosen an advance changes nothing and calls no
      callback. */
  lemma AdvanceBeforeStartIsNoOp(lib: Library, notify: bool, m: Machine, draw: nat)
    requires WellFormed(lib) && m.current.None?
    ensures AdvanceState(lib, notify, m, draw) == Step(m, [])
  {
  }

  /** An advance on a started engine: 1 goes to 2 and 2 to 3 on the same
      set; 3 goes to 1 on the set drawn with the current one excluded.  It
      keeps the invariant, crossfades to the new state's track, and then,
      last, calls `on_step` once when there is a callback. */
  lemma AdvanceMoves(lib: Library, notify: bool, m: Machine, draw: nat)
    requires Inv(lib, m) && m.current.Some? && DrawFits(lib, m, draw)
    ensures var s := AdvanceState(lib, notify, m, draw);
      && Inv(lib, s.machine) && s.machine.current.Some? && s.machine.busy
      && (m.state < 3 ==> s.machine.current == m.current && s.machine.state == m.state + 1)
      && (m.state == 3 ==> s.machine.state == 1 &&
                           s.machine.current == Some(ChooseRandomSet(lib.names, m.current, draw)))
      && s.events == Issue(CrossfadeOps(m.busy, lib.sets[s.machine.current.value][s.machine.state - 1]))
                     + (if notify then [OnStep] else [])
  {
  }

  /** Completing state 3 moves to a different set whenever there is more
      than one. */
  lemma AdvanceSwitchesSet(lib: Library, notify: bool, m: Machine, draw: nat)
    requires Inv(lib, m) && m.current.Some? && m.state == 3 && DrawFits(lib, m, draw)
    requires |lib.names| > 1
    ensures AdvanceState(lib, notify, m, draw).machine.current != m.current
    ensures AdvanceState(lib, notify, m, draw).machine.state == 1
  {
  }

  /** Every advance on a started engine calls `on_step` exactly once when
      a callback is given, and never otherwise. */
  lemma AdvanceNotifiesOnce(lib: Library, notify: bool, m: Machine, draw: nat)
    requires Inv(lib, m) && m.current.Some? && DrawFits(lib, m, draw)
    ensures CountOnSteps(AdvanceState(lib, notify, m, draw).events) == if notify then 1 else 0
  {
    AdvanceMoves(lib, notify, m, draw);
    var s := AdvanceState(lib, notify, m, draw);
    var ops := CrossfadeOps(m.busy, lib.sets[s.machine.current.value][s.machine.state - 1]);
    IssueFaithful(ops);
    IssuedOpsAppend(Issue(ops), if notify then [OnStep] else []);
  }

  /** With a single set, three advances from state 1 come back to state 1
      on that same set. */
  lemma SingleSetCycles(lib: Library, notify: bool, m: Machine)
    requires Inv(lib, m) && m.current.Some? && m.state == 1 && |lib.names| == 1
    ensures var m1 := AdvanceState(lib, notify, m, 0).machine;
            var m2 := AdvanceState(lib, notify, m1, 0).machine;
            var m3 := AdvanceState(lib, notify, m2, 0).machine;
            m1.state == 2 && m2.state == 3 && m3 == Machine(m.current, 1, true)
  {
    AdvanceMoves(lib, notify, m, 0);
    var m1 := AdvanceState(lib, notify, m, 0).machine;
    AdvanceMoves(lib, notify, m1, 0);
    var m2 := AdvanceState(lib, notify, m1, 0).machine;
    AdvanceMoves(lib, notify, m2, 0);
    assert m.current.value in lib.names;
  }

  /** Two sets A and B, started on A: four advances, the third drawing the
      only other set, go (A,2), (A,3), (B,1), (B,2) and call `on_step` four
      times. */
  lemma TwoSetScenario(busy: bool)
    ensures
      var a := [Sound("A", "1.wav"), Sound("A", "2.wav"), Sound("A", "3.wav")];
      var b := [Sound("B", "1.ogg"), Sound("B", "2.ogg"), Sound("B", "3.ogg")];
      var lib := Library(["A", "B"], map["A" := a, "B" := b]);
      var s0 := StartSet(lib, Machine(None, 1, busy), "A");
      var s1 := AdvanceState(lib, true, s0.machine, 0);
      var s2 := AdvanceState(lib, true, s1.machine, 0);
      var s3 := AdvanceState(lib, true, s2.machine, 0);
      var s4 := AdvanceState(lib, true, s3.machine, 0);
      && s1.machine == Machine(Some("A"), 2, true)
      && s2.machine == Machine(Some("A"), 3, true)
      && s3.machine == Machine(Some("B"), 1, true)
      && s4.machine == Machine(Some("B"), 2, true)
      && CountOnSteps(s0.events + s1.events + s2.events + s3.events + s4.events) == 4
  {
    var a := [Sound("A", "1.wav"), Sound("A", "2.wav"), Sound("A", "3.wav")];
    var b := [Sound("B", "1.ogg"), Sound("B", "2.ogg"), Sound("B", "3.ogg")];
    var lib := Library(["A", "B"], map["A" := a, "B" := b]);
    assert Distinct(lib.names);
    assert WellFormed(lib);
    var m0 := Machine(None, 1, busy);
    StartSetPlaysFirstTrack(lib, m0, "A");
    var s0 := StartSet(lib, m0, "A");
    assert Pool(lib.names, Some("A")) == ["B"];
    AdvanceNotifiesOnce(lib, true, s0.machine, 0);
    var s1 := AdvanceState(lib, true, s0.machine, 0);
    AdvanceNotifiesOnce(lib, true, s1.machine, 0);
    var s2 := AdvanceState(lib, true, s1.machine, 0);
    AdvanceNotifiesOnce(lib, true, s2.machine, 0);
    var s3 := AdvanceState(lib, true, s2.machine, 0);
    AdvanceNotifiesOnce(lib, true, s3.machine, 0);
    var s4 := AdvanceState(lib, true, s3.machine, 0);
    IssuedOpsAppend(s0.events, s1.events);
    IssuedOpsAppend(s0.events + s1.events, s2.events);
    IssuedOpsAppend(s0.events + s1.events + s2.events, s3.events);
    IssuedOpsAppend(s0.events + s1.events + s2.events + s3.events, s4.events);
  }
}
