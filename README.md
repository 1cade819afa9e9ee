# Ambient music engine — Dafny model

This project models `run_engine` in `main.py`, the core of a background-music
engine for games. The engine scans a `sets` folder. A sub-folder becomes a
*set* when the first three of its `.wav`/`.ogg` files, in sorted order, all
load. Those three files are the tracks for states 1 (default), 2 (intense) and
3 (vocals). The engine starts a random set at state 1. It polls a trigger key,
and on each fresh press it advances 1 → 2 → 3. After state 3 it switches to a
randomly drawn set at state 1: a different set when there is more than one.
Each change crossfades on the one mixer channel. After each advance the engine
calls the host's `on_step` callback. When the stop flag is set, it fades out
and returns.

Modules, following the engine's parts:

- `wrappers.dfy` (`Wrappers`): `Option` and `Result`.
- `library.dfy` (`SetLibrary`): the set-library scan. The sets root is an
  input listing: `None` when the root is missing, otherwise one `Folder` per
  entry, each with its `(name, loads)` entries. Contents: the audio-file
  filter, the sort by file name, the loop over the first three files, and the
  loop that fills the library.
- `playback.dfy` (`Playback`): the channel, as a class with a `busy` flag and
  a ghost log of the `FadeOut`/`Play` operations issued to it.
- `machine.dfy` (`StateMachine`): pure reference functions for
  `play_current_state`, `start_set`, `choose_random_set` and
  `advance_state`, plus the lemmas about them.
- `polling.dfy` (`Polling`): the `key_held` poll loop as a pure function over
  a finite sequence of samples, and an independent count of rising edges.
- `engine.dfy` (`Engine`): the engine as a class. Its fields are the closure
  variables `current_set_name` and `current_state`, the channel, and a trace
  of what was issued and notified. Its methods are proved to agree with the
  pure functions. Also here: `RunEngine` (the whole run) and lemmas about
  complete runs.

The random draw of `random.choice` is an index supplied by the caller. The
index must be in range for the pool it draws from. Each sample carries the
draw that its advance would use if it switches sets.

## Model

| member | source | states |
|---|---|---|
| `SetLibrary.AudioEntries` | main.py:69-72 | the kept entries are exactly the folder's entries whose name ends in `.wav` or `.ogg`, compared case-insensitively |
| `SetLibrary.AudioEntriesExact` | main.py:69-72 | each audio entry is kept exactly as many times as the folder lists it and no other entry is kept, so the filter fixes the number of audio files that admission counts |
| `SetLibrary.IsAudio` | main.py:71 | the reference definition of the audio-file test: the lower-cased name ends in `.wav` or `.ogg`; `AudioEntries` states what the filter keeps |
| `SetLibrary.SortByName` | main.py:76 | the result is ordered by file name (Python string order) and is a permutation of the input |
| `SetLibrary.NameLe` | main.py:76 | the reference definition of Python's string order (code point by code point, a proper prefix first); `NameLeTotal` and `NameLeTransitive` prove it total and transitive |
| `SetLibrary.SortedPairwise` | main.py:76 | in the sorted list every earlier name is at most every later one, not just its neighbour |
| `SetLibrary.FirstThree` | main.py:79 | the reference definition of `files[:3]`: at most the first three entries; its use is stated by `AdmittedIff` |
| `SetLibrary.LoadedSounds` | main.py:78-86 | the reference definition of the load loop: one sound per file that loads, in order; `LoadedSoundsCount` states its properties |
| `SetLibrary.LoadedSoundsCount` | main.py:78-86 | loading skips failures: at most one sound per file, one for every file exactly when all load, and then sound i comes from file i |
| `SetLibrary.FolderOutcomeOf` | main.py:66-92 | the reference definition of scanning one folder; `AdmittedIff`, `AdmittedTrackOrder` and `RejectedCount` state its properties, and `LoadFolder` is proved equal to it |
| `SetLibrary.AdmittedIff` | main.py:69-92 | a folder becomes a set iff it is a directory with at least three audio files and the first three in sorted order all load; a failure among them rejects the folder even if a fourth file exists |
| `SetLibrary.AdmittedTrackOrder` | main.py:76-88 | an admitted set's tracks come from the first, second and third sorted audio files, in that order |
| `SetLibrary.RejectedCount` | main.py:73-92 | a rejected folder is a directory with audio files, and fewer than three of its first three loaded; folders without audio files are skipped separately |
| `SetLibrary.LoadFolder` | main.py:66-92 | the per-folder loop computes exactly the reference outcome (not a directory, no audio, rejected with count, admitted with tracks) |
| `SetLibrary.Admit` | main.py:88 | the reference definition of `music_sets[folder] = sounds`: a new name goes last, an existing name keeps its place; `LibraryOfWellFormed` and `LibraryTracks` state its effect |
| `SetLibrary.LibraryOf` | main.py:64-92 | the reference definition of the library built from a listing; `LibraryOfWellFormed`, `LibraryMembership` and `LibraryTracks` state its properties, and `LoadLibrary` is proved to compute it |
| `SetLibrary.LibraryOfWellFormed` | main.py:58-88 | the library lists each set name once, its names are exactly its keys, and every set has exactly three tracks |
| `SetLibrary.LibraryMembership` | main.py:64-92 | a name is a set iff some folder of that name in the listing was admitted |
| `SetLibrary.LibraryTracks` | main.py:87-88 | a set's tracks are those of the last admitted folder of that name |
| `SetLibrary.Load` | main.py:58-96 | fails with RootNotFound iff the root is missing, fails with NoSetsFound iff no folder is admitted, and otherwise returns the non-empty well-formed library |
| `SetLibrary.LoadLibrary` | main.py:60-96 | the scan loop over the root's folders computes `Load` |
| `Playback.CrossfadeOps` | main.py:105-109 | a crossfade-length fade-out is issued iff the channel is busy, then always a play of the new sound that loops forever with a 250 ms fade-in |
| `Playback.ShutdownOps` | main.py:202-203 | the exit clean-up issues exactly one 500 ms fade-out when the channel is busy, and nothing otherwise |
| `Playback.Channel.constructor` | main.py:103 | a channel with the given busy flag and an empty log |
| `Playback.Channel.FadeOut` | main.py:108 | appends one fade-out to the log; the channel stays busy while the fade runs |
| `Playback.Channel.Play` | main.py:109 | appends one play to the log; the channel is busy afterwards |
| `Playback.Channel.PlayLoop` | main.py:105-109 | appends the crossfade operations for the old busy flag; busy afterwards |
| `Playback.Channel.Shutdown` | main.py:200-204 | appends the shutdown operations for the old busy flag; afterwards the channel is idle, so a second call issues nothing |
| `StateMachine.RemoveFirst` | main.py:127-128 | removing one name shortens the list by one, keeps all other names, and on a duplicate-free list drops the name entirely |
| `StateMachine.Pool` | main.py:126-128 | the draw pool has one name fewer exactly when the excluded name is a set and there is more than one set |
| `StateMachine.ChooseRandomSet` | main.py:125-129 | the chosen name is a set; it differs from the excluded name when there is more than one set; with a single set it is that set |
| `StateMachine.EveryEligibleSetReachable` | main.py:125-129 | every set other than the excluded one (or the only set) is chosen by some draw |
| `StateMachine.PlayCurrentState` | main.py:111-123 | the reference definition of `play_current_state`; `StartSetPlaysFirstTrack` and `AdvanceMoves` state what it produces, and `Engine.Engine.PlayCurrentState` is proved equal to it |
| `StateMachine.StartSet` | main.py:131-136 | the reference definition of `start_set`; `StartSetPlaysFirstTrack` states its properties |
| `StateMachine.AdvanceState` | main.py:138-169 | the reference definition of `advance_state`; `AdvanceBeforeStartIsNoOp`, `AdvanceMoves`, `AdvanceSwitchesSet`, `AdvanceNotifiesOnce`, `SingleSetCycles` and `TwoSetScenario` state its properties |
| `StateMachine.StartSetPlaysFirstTrack` | main.py:131-136 | starting a set selects it at state 1 and crossfades to its first track, with no `on_step` |
| `StateMachine.AdvanceBeforeStartIsNoOp` | main.py:142-143 | before a set is chosen an advance changes nothing and produces no event |
| `StateMachine.AdvanceMoves` | main.py:145-169 | 1→2 and 2→3 on the same set; 3→1 on the drawn set; the invariant (state in 1..3, set in the library) is kept; the events are the crossfade to the new state's track followed by one `on_step` when a callback is given |
| `StateMachine.AdvanceSwitchesSet` | main.py:155-158 | completing state 3 moves to a different set whenever the library has more than one |
| `StateMachine.AdvanceNotifiesOnce` | main.py:164-169 | every advance on a started engine calls `on_step` exactly once when a callback is given, never otherwise |
| `StateMachine.SingleSetCycles` | main.py:145-158 | with a single set, three advances from state 1 return to state 1 on that same set |
| `StateMachine.TwoSetScenario` | main.py:131-169 | sets A and B, started on A: four presses give (A,2), (A,3), (B,1), (B,2) and four `on_step` calls |
| `Polling.AdvanceKeepsInv` | main.py:145-162 | an advance with an in-range draw keeps the engine invariant, and a started engine stays started |
| `Polling.Poll` | main.py:180-195 | the reference definition of the poll loop; `PollPass`, `PollCountsEdges`, `PollIgnoresAfterStop` and `PollNotifiesPerAdvance` state its properties, and `Engine.Engine.PollLoop` is proved equal to it |
| `Polling.FirstStop` | main.py:185-186 | the index of the first sample with the stop flag: no earlier sample has the flag |
| `Polling.PollPass` | main.py:183-195 | one pass of the loop: the stop flag ends it first; a press with the latch released advances; anything else only sets the latch to the key state |
| `Polling.PollCountsEdgesFrom` | main.py:180-195 | from any pass before the first stop, the advances still to come plus the edges already seen equal all edges before the stop |
| `Polling.PollCountsEdges` | main.py:180-195 | starting with the latch released, `advance_state` is called once per released→pressed transition before the first stop flag; the loop stops iff some sample has the flag |
| `Polling.PollIgnoresAfterStop` | main.py:183-186 | samples after the first stop flag have no effect on the result |
| `Polling.PollNotifiesPerAdvance` | main.py:164-191 | during polling the invariant holds and `on_step` is called once per advance (never without a callback) |
| `Polling.HeldKeyAdvancesOnce` | main.py:188-193 | a key held down across any number of samples, starting after a release or at the first sample, adds exactly one edge |
| `Engine.Engine.constructor` | main.py:101-103 | no set yet, state 1, a fresh channel, empty trace, and the invariant holds |
| `Engine.Engine.PlayLoopSound` | main.py:105-109 | the trace grows by the crossfade operations; set and state are unchanged |
| `Engine.Engine.PlayCurrentState` | main.py:111-123 | agrees with the reference `play_current_state`; the invalid-index branch is proved dead |
| `Engine.Engine.StartSet` | main.py:131-136 | agrees with the reference `start_set` and keeps the invariant |
| `Engine.Engine.Advance` | main.py:138-169 | agrees with the reference `advance_state`; the reset branch for a state outside 1..3 is proved unreachable |
| `Engine.Engine.PollLoop` | main.py:180-195 | the latch loop computes the reference poll: same final state, trace, stop verdict and advance count |
| `Engine.Engine.Shutdown` | main.py:200-204 | the trace grows by the shutdown operations and the channel ends idle |
| `Engine.EngineRun` | main.py:38-205 | the reference definition of a whole run; `FatalRunIsSilent`, `RunNotifiesOncePerEdge` and `StoppedRunFadesOut` state its properties, and `RunEngine` is proved equal to it |
| `Engine.RunEngine` | main.py:38-205 | the whole run computes the reference run: load, start a random set, poll, and clean up if stopped |
| `Engine.FatalRunIsSilent` | main.py:60-96 | the engine never starts iff the root is missing or no folder is admitted, and then nothing is played or notified |
| `Engine.RunNotifiesOncePerEdge` | main.py:172-195 | a started run begins with the crossfade to track 1 of the drawn set; `on_step` fires once per rising edge before the stop flag; the final state is 1..3 on a library set; the run stops iff a stop flag occurs |
| `Engine.PollStaysBusy` | main.py:105-195 | once a track plays, the channel stays busy through any polling |
| `Engine.StoppedRunFadesOut` | main.py:200-204 | a stopped run's last event is the 500 ms shutdown fade-out, and the channel ends idle |

## Left out

- pygame mixer initialisation and the `SDL_AUDIODRIVER` setting (main.py:49-52): audio-library set-up. The channel's starting busy flag is an input.
- Audio decoding (main.py:82): whether a file loads is an input per entry. A `Sound` only records the folder and file it came from.
- Fade timelines: fades run on the mixer's clock. The model records the operation only. After `Shutdown`'s 500 ms wait (main.py:204) the channel counts as idle.
- `os.path.isdir`, `os.listdir`, `os.path.join`, `resource_path` and the PyInstaller `_MEIPASS` lookup (main.py:13-23, 30, 60-71): file-system and environment access. These are replaced by the input listing.
- `random.choice` (main.py:129): randomness. It is a caller-supplied index, and the callers must keep it in range.
- `keyboard.is_pressed`, `time.sleep(0.02)` and the `threading.Event` (main.py:183-195): input, timing and cross-thread signalling. Each sample is one loop pass with the stop flag and key state that pass sees. The sample sequence is finite. A run whose samples end without a stop flag is reported as still running, with no clean-up.
- `KeyboardInterrupt` (main.py:197-198): the model treats it like the stop flag, at the top of a pass. An interrupt in the middle of `advance_state` is not modelled.
- The `on_step` callback's own behaviour: it is foreign code. The engine catches its exceptions and only prints them (main.py:166-169), so the call is recorded as one event and no engine state depends on it.
- `AudioEntries`: folds only ASCII letters to lower case, where Python's `str.lower` folds all of Unicode.
- All `print` logging (main.py:54-55, 61, 85, 90-92, 95, 98, 120, 123, 135, 147, 152, 157, 174-177, 198, 205): diagnostics only.
- The `__main__` stand-alone entry (main.py:212-217) and all of app.py: the GUI, wallpaper and animation code, which is presentation only.
- The mixer is never quit on exit: the code only fades out and waits (main.py:202-204), and the model does the same.
