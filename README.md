# Beechwood Mix: a Dafny model of the crossfade mix engine

Beechwood Mix turns an ordered playlist into one continuous DJ-style mix.
Every track plays at a common target tempo, by scaling its playback rate
with pitch correction. Consecutive tracks are crossfaded over a fade window
of a few seconds. This project models the engine that drives the two players
and the small pure helpers around it, and proves properties of both.

- `MixEngine` (mix_engine.dfy) is the class `MixEngine` of src/utils/MixEngine.js.
  It holds the fields `currentPlayer`, `nextPlayer` and `isCrossfading`, and its
  methods change them in place. `MixHandler` is the status callback that
  `startMix` registers, together with what its closure captures: the songs, the
  tempo, the fade, which callbacks exist, the player it listens to and the
  mutable `currentIndex`.
- `Audio` (audio.dfy) is an abstract playback handle standing in for expo-av's
  `Audio.Sound`. It records loaded, playing, volume, rate, position and how often
  it was unloaded.
- `MixSession` (mix_session.dfy) gives the handler's effect on the control state
  as a step function, and runs that function over sequences of status snapshots.
  `OnStatus` is proved against it.
- `Crossfade` (crossfade.dfy) is the 21-iteration volume ramp. `StartCrossfade`
  returns the steps it took and is proved equal to it.
- `Tempo`, `SongList`, `Playlist`, `Timeline`, `Header` and `Controls` are the
  pure computations: the playback rate, the synced duration, the three App.js
  playlist operations, the timeline's total and blocks, the input clamps, and
  the seek, clock and progress expressions.
- `JsMath`, `Text` and `Wrappers` give JavaScript's `Math.max`, `Math.min`,
  `Math.floor`, `%`, number-to-string and `padStart`, plus an `Option` type.

Numbers are exact reals and integers. Callers supply the ids from `Date.now()`
and the random draw in `[0, 1)` behind the tempo estimate `120 + Math.random() * 40`.
They also supply whether `parseInt` produced a number (`Option<int>`), and the
status snapshots the platform would deliver.

## Model

| member | source | states |
|---|---|---|
| `Playlist.NextStartTime` | App.js:22-25 | no contract of its own: `max(0, prev.startTime + prev.duration - fade)` for the last song, 0 for an empty list; `AddSong` states its result |
| `Playlist.AddSong` | App.js:21-34 | appends exactly one song and keeps every earlier one; the new song has the given id, name, uri and duration, a tempo in [120, 160), start 0 when the list was empty, otherwise `max(0, prev.startTime + prev.duration - fade)`, so never negative |
| `Playlist.AddSongStartsNoEarlier` | App.js:22-25 | if the fade is no longer than the previous song, the new song starts no earlier than the previous one |
| `Playlist.AddSongKeepsInvariants` | App.js:22-33 | adding keeps all start times non-negative, and keeps the start-time chain of one fade length |
| `Playlist.RemoveSong` | App.js:36-38 | the result holds only songs of the input, none with the removed id, and every input song with another id |
| `Playlist.RemoveSongConcat` | App.js:37 | removal distributes over concatenation, so the kept songs stay in their original order |
| `Playlist.RemoveSongAbsent` | App.js:37 | removing an id no song has leaves the list unchanged |
| `Playlist.RemoveSongIdempotent` | App.js:37 | removing twice equals removing once |
| `Playlist.RemoveUndoesAdd` | App.js:27-37 | removing the id just given to a new song restores the list, provided no older song shares it |
| `Playlist.UpdateSongStartTime` | App.js:40-44 | same length; each song with the id gets the new start time and keeps its other fields; every other song is unchanged |
| `Playlist.UpdateThenRemove` | App.js:37-43 | the songs an update touches are exactly those a removal of the same id drops |
| `Playlist.UpdateTwice` | App.js:40-44 | a second update of the same id overrides the first |
| `Tempo.PlaybackRate` | src/utils/MixEngine.js:21 | the rate is the factor that takes the original tempo to the target tempo: `rate * originalBPM == targetBPM` (the same expression is SongList.js:41) |
| `Tempo.RateIsOneIffSameTempo` | src/utils/MixEngine.js:21 | the rate `targetBPM / originalBPM` is 1 exactly when the two tempos are equal |
| `Tempo.RatePositive` | src/utils/MixEngine.js:21 | positive tempos give a positive rate |
| `SongList.SyncedDuration` | src/components/SongList.js:40-43 | the synced duration equals `duration * originalBPM / targetBPM`, and multiplied by the playback rate gives back the natural duration |
| `SongList.SyncedAtOwnTempo` | src/components/SongList.js:40-43 | at the song's own tempo, the synced duration is the natural one |
| `SongList.SyncedPositive` | src/components/SongList.js:40-43 | a positive duration and positive tempos give a positive synced duration |
| `SongList.FasterTargetNeverLonger` | src/components/SongList.js:41-42 | a higher target tempo never gives a longer synced duration |
| `Header.OrFallback` | src/components/Header.js:17 | `parseInt(text) \|\| fallback` gives the fallback for NaN and for 0, and the parsed number otherwise |
| `Header.TargetBPMFromInput` | src/components/Header.js:16-19 | the stored tempo is always in [60, 200]; it is 128 for unparsable or zero input, the input itself when in range, and 60 or 200 when out of range |
| `Header.FadeFromInput` | src/components/Header.js:29-32 | the stored fade is always in [2, 20]; it is 8 for unparsable or zero input, the input itself when in range, and 2 or 20 when out of range |
| `Header.TargetBPMIdempotent` | src/components/Header.js:15-18 | entering the displayed tempo again stores the same tempo; clamping twice equals clamping once |
| `Header.FadeIdempotent` | src/components/Header.js:28-31 | entering the displayed fade again stores the same fade; clamping twice equals clamping once |
| `Controls.SeekAmount` | src/components/Controls.js:87 | no contract of its own: 10 for the direction `"forward"`, -10 for any other; `SeekTarget` and `SeekMonotone` state its effect |
| `Controls.SeekTarget` | src/components/Controls.js:85-90 | the seek position is never negative and never past a non-negative duration; an in-range `currentTime ± 10` passes through unchanged; a target past the end lands exactly on the duration, and one before the start (or any target when the duration is negative) exactly on 0 |
| `Controls.SeekMonotone` | src/components/Controls.js:87-88 | from inside the track, seeking forward never lowers the position and seeking backward never raises it |
| `Controls.FormatTime` | src/components/Controls.js:92-96 | no contract of its own: `floor(s / 60)`, a colon, and `floor(s % 60)` padded to two digits with JavaScript's truncating `%`; `FormatTimeFields` states its meaning |
| `Controls.FormatTimeFields` | src/components/Controls.js:92-96 | for non-negative seconds the clock is minutes, a colon and two digits `ss` with `0 <= ss <= 59`, and `mins * 60 + ss == floor(seconds)` |
| `Controls.Progress` | src/components/Controls.js:99-101 | the progress is 0 when the duration is not positive, lies in [0, 100] when `0 <= currentTime <= duration`, and is 100 at the end |
| `Timeline.ReduceStep` | src/components/Timeline.js:16-19 | no contract of its own: the reducer, giving the first song's duration at index 0 and `acc + duration - fade` after it |
| `Timeline.ReduceFrom` | src/components/Timeline.js:16-19 | no contract of its own: `reduce` resumed at a position; `ReduceFromSum` gives its closed form |
| `Timeline.TotalDuration` | src/components/Timeline.js:16-19 | no contract of its own: the reduce from the start with initial value 0; `TotalDurationOverlaps` and `TotalDurationSingle` state its value |
| `Timeline.ReduceFromSum` | src/components/Timeline.js:16-19 | resuming the reduce at position k with the overlapped sum of the first k songs yields the overlapped sum of all songs |
| `Timeline.TotalDurationOverlaps` | src/components/Timeline.js:16-19 | for n >= 1 songs, the reduce gives the sum of the durations minus `(n - 1) * fade` |
| `Timeline.TotalDurationSingle` | src/components/Timeline.js:16-17 | for one song, the total is that song's duration |
| `Timeline.ChainedStartsClosedForm` | App.js:22-31 | in a list built by `addSong` with one fade no longer than any song but the last, song k starts at the sum of the earlier durations minus `k * fade`, which is never negative |
| `Timeline.MixEndsWithLastSong` | src/components/Timeline.js:16-19 | for such a list, the last song's start plus its duration equals the timeline's total |
| `Timeline.ChainedStartsNonDecreasing` | App.js:23-25 | for such a list, the start times never decrease |
| `Timeline.Render` | src/components/Timeline.js:4-58 | no songs give the empty-state view; otherwise the title is the clock as written over the total, and there is one block per song, numbered from 1, coloured `colors[i % 5]`, highlighted exactly when `i` is the current index, with a fade indicator on every block but the last and the width `duration / total * 600`; the current block is drawn at opacity 1 with a border of 3, every other at opacity 0.6 with none, and each is labelled with its duration floored to whole seconds |
| `Timeline.OneHighlightedBlock` | src/components/Timeline.js:32-43 | at most one block is highlighted, and exactly one when the current index names a song |
| `Timeline.NeighboursDifferInColour` | src/components/Timeline.js:13-41 | neighbouring blocks never share a colour |
| `Timeline.EqualDurationsEqualWidths` | src/components/Timeline.js:31 | songs of equal duration get blocks of equal width |
| `Timeline.WidthsWithinTimeline` | src/components/Timeline.js:31 | in a playlist whose other songs are each at least one fade long, a song of positive length gets a block whose width is defined, positive and at most 600 |
| `Timeline.SumCoversOneSong` | src/components/Timeline.js:16-19 | when every song but song i is at least one fade long, the overlapped total is at least song i's length |
| `Timeline.SumAtLeastFades` | src/components/Timeline.js:16-19 | songs each at least one fade long add up to at least one fade per song |
| `Timeline.TitleClockAsWritten` | src/components/Timeline.js:23 | no contract of its own: the title exactly as written, `floor(total / 60)`, a colon, and `(total % 60).toFixed(0)` padded to two digits; `TitleClockShowsSixty` exhibits its flaw |
| `Timeline.TitleClock` | src/components/Timeline.js:23 | no contract of its own: the corrected title, rounding the whole total to seconds before splitting it; `TitleClockFields` states its meaning |
| `Timeline.TitleClockShowsSixty` | src/components/Timeline.js:23 | the title as written shows "1:60" for a total of 119.6 s |
| `Timeline.TitleClockFields` | src/components/Timeline.js:23 | the corrected title has a two-digit seconds field below 60, and minutes and seconds add up to the total rounded to whole seconds |
| `Crossfade.Ramp` | src/utils/MixEngine.js:107-125 | no contract of its own: the 21 volume steps of the loop; `RampShape`, `RampMonotone` and `RampLasts` state their properties |
| `Crossfade.RampShape` | src/utils/MixEngine.js:107-125 | the ramp has 21 steps; at step i the outgoing volume is `1 - i/20` and the incoming `i/20`; both lie in [0, 1] and add up to 1; the ramp starts at (1, 0), ends at (0, 1), and every wait is `fade * 1000 / 20` ms |
| `Crossfade.RampMonotone` | src/utils/MixEngine.js:111-122 | the outgoing volume never rises and the incoming volume never falls |
| `Crossfade.RampLasts` | src/utils/MixEngine.js:108-125 | the 21 waits add up to `fade * 1050` ms, which is 21/20 of the fade |
| `MixSession.Step` | src/utils/MixEngine.js:52-92 | no contract of its own: the handler's effect on the control state for one snapshot; the lemmas below state each branch, and `MixHandler.OnStatus` is proved to follow it |
| `MixSession.Run` | src/utils/MixEngine.js:52-92 | no contract of its own: `Step` folded over a sequence of snapshots, collecting the crossfades with the index each started from, the updates and the completions |
| `MixSession.IgnoresUnloaded` | src/utils/MixEngine.js:53 | a snapshot that is not loaded changes nothing and emits no update |
| `MixSession.UpdateCarriesPreState` | src/utils/MixEngine.js:55-67 | a loaded snapshot emits an update exactly when `onUpdate` exists; the update carries the index and the crossfading flag from before the step, and the time and duration in seconds |
| `MixSession.CrossfadeGuard` | src/utils/MixEngine.js:70-73 | a crossfade starts exactly when `duration - currentTime <= fade`, no crossfade is running and a later song exists, so never on the last or only song; the next slot is then filled and the flag set |
| `MixSession.FinishPromotes` | src/utils/MixEngine.js:76-85 | a finish with songs left moves next to current, empties the next slot, clears the flag and adds exactly 1 to the index; with no next player, no current player remains |
| `MixSession.FinishLastStops` | src/utils/MixEngine.js:86-89 | a finish on the last song leaves the stopped state, keeps the index, and reports completion exactly when `onComplete` exists |
| `MixSession.StepKeepsInv` | src/utils/MixEngine.js:52-92 | one snapshot keeps the index on a song, keeps a running crossfade headed for an existing song, never lowers the index, and uses one unit of the transition budget per crossfade |
| `MixSession.RunKeepsInv` | src/utils/MixEngine.js:52-92 | over any snapshot sequence the invariant holds throughout; the number of crossfades is bounded by the index advance, plus one for a crossfade still running at the end; the indices crossfades start from strictly increase and each has a later song |
| `MixSession.RunUpdatesOrdered` | src/utils/MixEngine.js:55-85 | over any snapshot sequence the indices the updates report never decrease and lie between the starting and the final index |
| `MixSession.MixCrossfadesAtMostOncePerTransition` | src/utils/MixEngine.js:70-85 | after `startMix` on a fresh engine, any snapshot sequence starts at most one crossfade from each song and none from the last: the start indices strictly increase and stay below n - 1, so there are at most n - 1 crossfades (none for one song); the reported indices never decrease and stay below n |
| `MixEngine.AddSongKeepsPlayable` | App.js:30 | songs added by `addSong` have a tempo the rate computation can divide by |
| `MixEngine.MixEngine.constructor` | src/utils/MixEngine.js:4-8 | a new engine holds no players and is not crossfading |
| `MixEngine.MixEngine.LoadSong` | src/utils/MixEngine.js:20-35 | returns a fresh, loaded, paused handle for the uri at volume 1, at rate `targetBPM / originalBPM`, positioned at `startPosition * 1000` ms |
| `MixEngine.MixEngine.StartMix` | src/utils/MixEngine.js:37-50 | an empty list returns at once and changes nothing; otherwise the first song is loaded into the current slot and playing, the handler starts at index 0 and listens to that player, and the next slot and the flag are untouched |
| `MixEngine.MixEngine.StartCrossfade` | src/utils/MixEngine.js:95-126 | the next slot gets a fresh handle for the next song at its rate, playing, ending at volume 1; the current player ends at volume 0; a handle the next slot held before is overwritten but left untouched; the steps taken are exactly the ramp |
| `MixEngine.MixEngine.Pause` | src/utils/MixEngine.js:128-135 | each player the engine holds stops playing, and nothing else changes |
| `MixEngine.MixEngine.Resume` | src/utils/MixEngine.js:137-144 | each player the engine holds plays again, and nothing else changes |
| `MixEngine.MixEngine.Stop` | src/utils/MixEngine.js:146-158 | each held player is stopped and unloaded once; both slots end empty and the flag false; an engine already stopped is left unchanged |
| `MixEngine.MixEngine.Seek` | src/utils/MixEngine.js:160-164 | only the current player moves, to `position * 1000` ms, without clamping; with no current player nothing happens |
| `MixEngine.StopTwice` | src/utils/MixEngine.js:146-158 | two stops in a row unload each held player once, the same as a single stop |
| `MixEngine.MixHandler.OnStatus` | src/utils/MixEngine.js:52-92 | the control state, the update and the completion follow `Step`; the incoming player is loaded for the next song and faded in while the outgoing one is faded out; on a finish with songs left the old current player is unloaded once and replaced; on the last finish every held player is released once |

## Left out

- `initialize` (MixEngine.js:10-18) only sets the platform audio mode. It is I/O and is not modelled.
- expo-av itself is not modelled. `Audio.Sound` is an abstract handle with no failure modes. Load, play and unload errors, pitch correction and decoding are outside the model.
- async/await, `setTimeout` pacing and status-callback delivery are not modelled. Each snapshot is handled to completion before the next, and the crossfade ramp runs inside the step that starts it. Callbacks that interleave with a running ramp are not modelled. Each wait appears only as a duration in the returned ramp.
- Snapshots are inputs. The model records that the handler listens only to the mix's first player (`MixHandler.watched`). It does not derive the snapshots from that player's state. After the first promotion that player is unloaded. Because any sequence of snapshots is allowed, including repeated finish snapshots, the model cannot prove that `onComplete` fires only once per mix. `Run` counts the completions but bounds them by nothing.
- Division by zero (JavaScript's `Infinity`/`NaN`) is not modelled. The rate and synced duration require non-zero tempos. A timeline block over a zero total has no width (`None`). Floating-point rounding is not modelled either: all arithmetic is exact.
- The `onUpdate` and `onComplete` callbacks are flags saying whether each was given. The handler returns the update it would send and whether it would call `onComplete`.
- The default export (`new MixEngine()`, a module-wide singleton) is the constructor.
- `Date.now()` and `Math.random()` in `addSong` are parameters.
- The string parsing inside `parseInt` is left out. Its result is an `Option<int>`.
- `pickSong` (SongList.js:7-38) is file picking and duration probing, which are I/O.
- src/components/WaveformView.js is random and trigonometric rendering, with nothing to verify.
- The Controls handlers `playMix`, `pauseMix`, `resumeMix` and `stopMix`, haptics, alerts, React state setters, JSX layout and styles are UI glue. The clamp that `handleSeek` computes is modelled; its call into the engine is the engine's `Seek`.
- The timeline's fade label text and the song list's `toFixed(0)` labels are presentation only.
- `MixEngine.MixHandler.OnStatus`: when a crossfade starts in the same snapshot that reports the finish, the contract does not state what becomes of a next player the crossfade overwrote.

## Where the code and the intended design differ

The model follows the code in each of these cases:

- `startMix` on an empty list returns silently. It raises no error.
- On completion `currentIndex` is not reset to 0. The handler's index stays at the last song.
- The engine's `seek` does not clamp. Only the Controls component clamps the position into `[0, duration]` before calling it.
- The crossfade loop runs 21 times (`i <= 20`) and waits after each step, so a transition lasts 21/20 of the fade.
- The fade is not checked against the song durations.
- A finish with no pending next player leaves no current player.
- `startMix` leaves `nextPlayer` and `isCrossfading` as they were.
- `startMix` overwrites a current player the engine already holds, without stopping or unloading it.
- A crossfade that starts while the next slot holds a player overwrites that player without stopping or unloading it.
- The timeline's title uses the clock as written, which can show a seconds field of 60 (see Findings). `Timeline.Render` uses that clock. The corrected clock is `Timeline.TitleClock`.

## Findings

| source | as written | input that shows it | evidently intended | confidence | as-written member | corrected member |
|---|---|---|---|---|---|---|
| src/components/Timeline.js:23 | the title's seconds field is `(total % 60).toFixed(0)`, rounded separately from `Math.floor(total / 60)` | a total of 119.6 s is titled "1:60" | round the total to whole seconds first, then split it into minutes and a two-digit seconds field below 60 | not executed | `Timeline.TitleClockAsWritten`, `Timeline.TitleClockShowsSixty` | `Timeline.TitleClock`, `Timeline.TitleClockFields` |
