/**
 * The playback controller: the one mixer channel the engine plays through
 * (main.py, lines 103-109 and 200-204).  Audio decoding and the fade
 * timelines belong to the mixer; the model keeps the channel's busy flag
 * and the log of the operations issued to it.
 */
module Playback {
  import opened SetLibrary

  /** Length of the crossfade between two tracks, in milliseconds. */
  const CrossfadeMs: nat := 250
  /** Length of the final fade-out when the engine stops, in milliseconds. */
  const ShutdownFadeMs: nat := 500
  /** The mixer's loop count meaning "repeat forever". */
  const LoopForever: int := -1

  /** An operation issued to the channel. */
  datatype ChannelOp =
    | FadeOut(ms: nat)
    | Play(sound: Sound, loops: int, fadeMs: nat)

  /** What `play_loop_sound` issues on a channel whose busy flag is `busy`:
      a crossfade-length fade-out only when something is playing, and then
      always the new sound, looping forever and fading in over the same
      length. */
  function CrossfadeOps(busy: bool, s: Sound): (ops: seq<ChannelOp>)
    ensures |ops| == (if busy then 2 else 1)
    ensures ops[|ops| - 1] == Play(s, LoopForever, CrossfadeMs)
    ensures FadeOut(CrossfadeMs) in ops <==> busy
    ensures forall i :: 0 <= i < |ops| - 1 ==> ops[i] == FadeOut(CrossfadeMs)
  {
    (if busy then [FadeOut(CrossfadeMs)] else []) + [Play(s, LoopForever, CrossfadeMs)]
  }

  /** What the engine's final clean-up issues: a long fade-out when
      something is playing, nothing otherwise. */
  function ShutdownOps(busy: bool): (ops: seq<ChannelOp>)
    ensures |ops| == if busy then 1 else 0
    ensures forall op :: op in ops ==> op == FadeOut(ShutdownFadeMs)
  {
    if busy then [FadeOut(ShutdownFadeMs)] else []
  }

  /** The mixer channel. */
  class Channel {
    /** `get_busy()`: whether a sound is playing or fading on the channel. */
    var busy: bool
    /** Every operation issued to the channel, oldest first. */
    ghost var log: seq<ChannelOp>

    constructor (busy: bool)
      ensures this.busy == busy && log == []
    {
      this.busy := busy;
      log := [];
    }

    /** `fadeout(ms)`: the fade runs on the mixer's own timeline, so the
        channel stays busy while it lasts. */
    method FadeOut(ms: nat)
      modifies this
      ensures busy == old(busy)
      ensures log == old(log) + [ChannelOp.FadeOut(ms)]
    {
      log := log + [ChannelOp.FadeOut(ms)];
    }

    /** `play(sound, loops, fade_ms)`: the new sound supersedes the old one;
        the channel is busy afterwards. */
    method Play(s: Sound, loops: int, fadeMs: nat)
      modifies this
      ensures busy
      ensures log == old(log) + [ChannelOp.Play(s, loops, fadeMs)]
    {
      log := log + [ChannelOp.Play(s, loops, fadeMs)];
      busy := true;
    }

    /** `play_loop_sound` (main.py, lines 105-109). */
    method PlayLoop(s: Sound)
      modifies this
      ensures busy
      ensures log == old(log) + CrossfadeOps(old(busy), s)
    {
      if busy {
        FadeOut(CrossfadeMs);
      }
      Play(s, LoopForever, CrossfadeMs);
    }

    /** The clean-up on exit (main.py, lines 202-204): when busy, fade out
        over the shutdown length and wait that long, after which the
        channel is silent.  A second call finds the channel idle and issues
        nothing. */
    method Shutdown()
      modifies this
      ensures !busy
      ensures log == old(log) + ShutdownOps(old(busy))
    {
      if busy {
        FadeOut(ShutdownFadeMs);
        busy := false;  // the wait of the fade's length has elapsed
      }
    }
  }
}
