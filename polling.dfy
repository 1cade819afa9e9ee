/**
 * The edge-triggered poll loop of run_engine (main.py, lines 180-195) as a
 * pure function over a finite run of samples.  Each sample is one pass of
 * the loop: whether the stop flag was set, whether the trigger key was
 * down, and the random draw that pass would use if it advanced from state
 * 3 into a new set.
 */
module Polling {
  import opened Wrappers
  import opened SetLibrary
  import opened StateMachine

  datatype Sample = Sample(stop: bool, pressed: bool, draw: nat)

  /** The result of polling: the final machine, the events produced, whether
      the stop flag ended the loop, and how many times `advance_state` was
      called. */
  datatype Polled = Polled(machine: Machine, events: seq<Event>, stopped: bool, advances: nat)

  /** The size of the pool a set switch draws from (the current set is
      always in the library, so it is excluded whenever there is another). */
  function ChoiceBound(lib: Library): nat
  {
    if |lib.names| > 1 then |lib.names| - 1 else 1
  }

  predicate DrawsFit(lib: Library, samples: seq<Sample>)
  {
    forall i :: 0 <= i < |samples| ==> samples[i].draw < ChoiceBound(lib)
  }

  /** An advance with an in-range draw keeps the invariant. */
  lemma AdvanceKeepsInv(lib: Library, notify: bool, m: Machine, draw: nat)
    requires Inv(lib, m) && draw < ChoiceBound(lib)
    ensures DrawFits(lib, m, draw)
    ensures Inv(lib, AdvanceState(lib, notify, m, draw).machine)
    ensures m.current.Some? ==> AdvanceState(lib, notify, m, draw).machine.current.Some?
  {
    if m.current.Some? {
      assert m.current.value in lib.names;
      AdvanceMoves(lib, notify, m, draw);
    }
  }

  /** The loop from one pass on, with `held` the `key_held` latch. */
  function Poll(lib: Library, notify: bool, m: Machine, held: bool, samples: seq<Sample>): Polled
    requires Inv(lib, m) && DrawsFit(lib, samples)
    decreases |samples|
  {
    if samples == [] then Polled(m, [], false, 0)
    else if samples[0].stop then Polled(m, [], true, 0)
    else if samples[0].pressed then
      if !held then
        AdvanceKeepsInv(lib, notify, m, samples[0].draw);
        var s := AdvanceState(lib, notify, m, samples[0].draw);
        var rest := Poll(lib, notify, s.machine, true, samples[1..]);
        Polled(rest.machine, s.events + rest.events, rest.stopped, rest.advances + 1)
      else
        Poll(lib, notify, m, true, samples[1..])
    else
      Poll(lib, notify, m, false, samples[1..])
  }

  /** The rest of a poll, preceded by the events and advances of the
      passes already made. */
  function After(done: seq<Event>, advances: nat, p: Polled): Polled
  {
    Polled(p.machine, done + p.events, p.stopped, advances + p.advances)
  }

  /** One pass of the loop on sample i, as the imperative loop takes it:
      a stop ends the loop, a fresh press advances, anything else only
      sets the latch to the key state. */
  lemma PollPass(lib: Library, notify: bool, m: Machine, held: bool, samples: seq<Sample>, i: nat,
                 done: seq<Event>, advances: nat)
    requires Inv(lib, m) && DrawsFit(lib, samples) && i <= |samples|
    ensures DrawsFit(lib, samples[i..])
    ensures i == |samples| ==>
              After(done, advances, Poll(lib, notify, m, held, samples[i..])) == Polled(m, done, false, advances)
    ensures i < |samples| && samples[i].stop ==>
              After(done, advances, Poll(lib, notify, m, held, samples[i..])) == Polled(m, done, true, advances)
    ensures i < |samples| && !samples[i].stop && samples[i].pressed && !held ==>
              && DrawFits(lib, m, samples[i].draw) && DrawsFit(lib, samples[i + 1..])
              && var s := AdvanceState(lib, notify, m, samples[i].draw);
              && Inv(lib, s.machine)
              && After(done, advances, Poll(lib, notify, m, held, samples[i..])) ==
                   After(done + s.events, advances + 1, Poll(lib, notify, s.machine, true, samples[i + 1..]))
    ensures i < |samples| && !samples[i].stop && !(samples[i].pressed && !held) ==>
              && DrawsFit(lib, samples[i + 1..])
              && After(done, advances, Poll(lib, notify, m, held, samples[i..])) ==
                   After(done, advances, Poll(lib, notify, m, samples[i].pressed, samples[i + 1..]))
  {
    if i < |samples| {
      assert samples[i..][0] == samples[i] && samples[i..][1..] == samples[i + 1..];
      AdvanceKeepsInv(lib, notify, m, samples[i].draw);
      var s := AdvanceState(lib, notify, m, samples[i].draw);
      if !samples[i].stop && samples[i].pressed && !held {
        var rest := Poll(lib, notify, s.machine, true, samples[i + 1..]);
        assert done + (s.events + rest.events) == (done + s.events) + rest.events;
      }
    } else {
      assert samples[i..] == [];
    }
  }

  // ---------------------------------------------------------------------
  // An independent account of the edges
  // ---------------------------------------------------------------------

  /** The index of the first sample with the stop flag, or the number of
      samples when there is none. */
  function FirstStop(samples: seq<Sample>): (k: nat)
    ensures k <= |samples|
    ensures k < |samples| ==> samples[k].stop
    ensures forall i :: 0 <= i < k ==> !samples[i].stop
  {
    if samples == [] then 0
    else if samples[0].stop then 0
    else 1 + FirstStop(samples[1..])
  }

  /** Sample i sees the key down where the previous sample (or the start,
      before any sample) saw it up. */
  predicate RisingEdgeAt(samples: seq<Sample>, i: nat)
    requires i < |samples|
  {
    samples[i].pressed && (i == 0 || !samples[i - 1].pressed)
  }

  /** The number of rising edges among the first n samples. */
  function EdgesBefore(samples: seq<Sample>, n: nat): nat
    requires n <= |samples|
  {
    if n == 0 then 0
    else EdgesBefore(samples, n - 1) + (if RisingEdgeAt(samples, n - 1) then 1 else 0)
  }

  lemma {:induction false} PollCountsEdgesFrom(lib: Library, notify: bool, m: Machine, samples: seq<Sample>, k: nat)
    requires Inv(lib, m) && DrawsFit(lib, samples)
    requires k <= FirstStop(samples)
    ensures DrawsFit(lib, samples[k..])
    ensures var p := Poll(lib, notify, m, k > 0 && samples[k - 1].pressed, samples[k..]);
            && EdgesBefore(samples, k) + p.advances == EdgesBefore(samples, FirstStop(samples))
            && (p.stopped <==> FirstStop(samples) < |samples|)
    decreases |samples| - k
  {
    var held := k > 0 && samples[k - 1].pressed;
    if k < |samples| && !samples[k].stop {
      var rest := samples[k..];
      assert rest[0] == samples[k] && rest[1..] == samples[k + 1..];
      if samples[k].pressed && !held {
        AdvanceKeepsInv(lib, notify, m, samples[k].draw);
        var s := AdvanceState(lib, notify, m, samples[k].draw);
        PollCountsEdgesFrom(lib, notify, s.machine, samples, k + 1);
      } else {
        PollCountsEdgesFrom(lib, notify, m, samples, k + 1);
      }
    }
  }

  /** `advance_state` is called once per released-to-pressed transition
      among the samples before the first stop flag (the latch starts
      released), and the loop reports a stop exactly when some sample
      carries the flag. */
  lemma PollCountsEdges(lib: Library, notify: bool, m: Machine, samples: seq<Sample>)
    requires Inv(lib, m) && DrawsFit(lib, samples)
    ensures Poll(lib, notify, m, false, samples).advances == EdgesBefore(samples, FirstStop(samples))
    ensures Poll(lib, notify, m, false, samples).stopped <==> exists i :: 0 <= i < |samples| && samples[i].stop
  {
    PollCountsEdgesFrom(lib, notify, m, samples, 0);
    assert samples[0..] == samples;
  }

  /** Once the stop flag is seen no later sample is looked at: the loop
      behaves the same on the samples up to and including the first stop. */
  lemma {:induction false} PollIgnoresAfterStop(lib: Library, notify: bool, m: Machine, held: bool, samples: seq<Sample>)
    requires Inv(lib, m) && DrawsFit(lib, samples)
    requires FirstStop(samples) < |samples|
    ensures DrawsFit(lib, samples[..FirstStop(samples) + 1])
    ensures Poll(lib, notify, m, held, samples) == Poll(lib, notify, m, held, samples[..FirstStop(samples) + 1])
    decreases |samples|
  {
    var k := FirstStop(samples);
    var cut := samples[..k + 1];
    if !samples[0].stop {
      assert cut[0] == samples[0] && cut[1..] == samples[1..][..FirstStop(samples[1..]) + 1];
      if samples[0].pressed && !held {
        AdvanceKeepsInv(lib, notify, m, samples[0].draw);
        var s := AdvanceState(lib, notify, m, samples[0].draw);
        PollIgnoresAfterStop(lib, notify, s.machine, true, samples[1..]);
      } else {
        PollIgnoresAfterStop(lib, notify, m, samples[0].pressed, samples[1..]);
      }
    }
  }

  /** A started engine stays started, keeps its invariant, and calls
      `on_step` once per advance when a callback is given. */
  lemma {:induction false} PollNotifiesPerAdvance(lib: Library, notify: bool, m: Machine, held: bool, samples: seq<Sample>)
    requires Inv(lib, m) && m.current.Some? && DrawsFit(lib, samples)
    ensures var p := Poll(lib, notify, m, held, samples);
            && Inv(lib, p.machine) && p.machine.current.Some?
            && CountOnSteps(p.events) == (if notify then p.advances else 0)
    decreases |samples|
  {
    if samples != [] && !samples[0].stop {
      if samples[0].pressed && !held {
        AdvanceKeepsInv(lib, notify, m, samples[0].draw);
        AdvanceNotifiesOnce(lib, notify, m, samples[0].draw);
        var s := AdvanceState(lib, notify, m, samples[0].draw);
        PollNotifiesPerAdvance(lib, notify, s.machine, true, samples[1..]);
        IssuedOpsAppend(s.events, Poll(lib, notify, s.machine, true, samples[1..]).events);
      } else {
        PollNotifiesPerAdvance(lib, notify, m, samples[0].pressed, samples[1..]);
      }
    }
  }

  /** Holding the key down across any number of samples, starting after a
      release or at the first sample, adds exactly one edge. */
  lemma {:induction false} HeldKeyAdvancesOnce(samples: seq<Sample>, j: nat, n: nat)
    requires 0 < n && j + n <= |samples|
    requires j == 0 || !samples[j - 1].pressed
    requires forall i :: j <= i < j + n ==> samples[i].pressed
    ensures EdgesBefore(samples, j + n) == EdgesBefore(samples, j) + 1
  {
    if n > 1 {
      HeldKeyAdvancesOnce(samples, j, n - 1);
    }
  }
}
