# Tone generator lifecycle, automation and pulse, in Dafny

This project models the core of `app.js`, a single-oscillator Web Audio tone
generator. The core has four parts:

- **Play/stop lifecycle.** The module-level variables (`audioContext`,
  `oscillator`, `gainNode`, `analyser`, `animationFrame`, `lastDraw`,
  `sweepActive`, `targetVolume`) become the fields of one class,
  `ToneGenerator.ToneApp`. Each oscillator gets a graph id from a counter when
  it is created, and that id stands for the object's identity (`oscillator ===
  oscRef`). The event loop's pending callbacks are an explicit queue of `Task`
  values. There are three kinds: the 200 ms hard-stop timer, which holds the id
  it captured; the 12 s sweep-end timer; and the oscillator's ended event.
  Environment steps (`FireStopTimer`, `FireSweepTimer`, `FireEnded`,
  `FireFrame`) run one of them at a time, in any order. The model therefore
  covers every interleaving the real delays allow.
- **Parameter automation.** `frequencyEvents` and `gainEvents` are append-only
  logs of the calls the app makes on an AudioParam: `Cancel(t)`,
  `SetValue(v, t)`, `LinearRamp(v, t)` and `Target(v, t, tau)`. The model
  keeps one piece of the audio engine's timeline rule, because the app depends
  on it: `cancelScheduledValues(t)` removes every event scheduled at time `t`
  or later (`Automation.Surviving`). `Surviving` lists the remaining events in
  the order they were issued, not in time order. Interpolation is not
  modelled.
- **Redraw rate limit.** In `drawFrame`, a frame is drawn only when at least
  16 ms have passed since the last drawn frame (`Redraw`).
- **Loudness pulse.** The pulse is the mean absolute deviation of a 512-byte
  snapshot from its centre 128, mapped to the scale `1 + min(3·avg, 0.7)`. It
  is computed over exact reals (`Pulse`).

`ToneApp.Valid()` is the invariant that every operation and environment step
keeps:

- The three nodes exist together, and only once the context exists.
- The live oscillator carries the newest id.
- Without a graph, nothing is stopping, sweeping or animating.
- Every hard-stop timer names a graph that has existed.
- An ended event is pending, exactly once, exactly when the live oscillator has
  been stopped.
- `pulseScale` stays in [1, 1.7].

## Behaviour as written

The model follows the code in each of these cases, including where a reader
might expect something else.

- **Stopping twice.** `isPlaying` is `Boolean(oscillator)` and stays true while
  the tone fades out. A second click on the play button therefore calls
  `stopTone` again. That call issues the fade again and queues a second timer
  for the same oscillator.
  `StaleStopTimerScenario` shows that the id guard keeps this leftover timer
  from stopping the next graph.
- **Gain floor on start.** `startTone` issues `SetValue(0, now)` on the gain.
  The `setVolume` call right after it then issues `Cancel(now)`, which removes
  that event, because a cancel drops events at its own time. So when the reads
  of `currentTime` at app.js:120 and app.js:60 return the same time, the gain
  is not 0 at `now`; only the approach to the volume survives
  (`StartGainFloorCancelled`).
- **Setting the frequency.** `setFrequency` issues only `SetValue(v, now)`. It
  does not cancel pending frequency automation, and it does not clear
  `sweepActive`. Of the two ways the frequency is set, only the frequency
  control's input handler (app.js:250-253) clears the flag. A value set
  during a sweep cancels none of the sweep's points: all of them, the 200 Hz
  peak included, stay scheduled together with the new value
  (`SetValueKeepsSweep`).
- **The sweep-end timer has no guard.** A timer left over from an earlier
  sweep clears the flag of a newer sweep (`StaleSweepTimerScenario`). It is
  modelled as written.
- **A square-wave snapshot.** A snapshot alternating 0 and 255 averages
  255/256, not 1, because 255 lies only 127 above the centre. The pulse scale
  is still the capped 1.7 (`AlternatingSnapshot`).

## Model

| member | source | states |
|---|---|---|
| `ToneGenerator.ToneApp.constructor` | app.js:15-22 | at load nothing is playing, no timer is pending, `lastDraw` is 0, `sweepActive` is false and `targetVolume` is the volume control's value / 100 |
| `ToneGenerator.ToneApp.IsPlaying` | app.js:36 | under the invariant, "an oscillator is held" is the same as "gain node, analyser and context all exist" |
| `ToneGenerator.ToneApp.EnsureAudioContext` | app.js:26-34 | a context exists afterwards |
| `ToneGenerator.ToneApp.SetFrequency` | app.js:47-53 | appends `SetValue(v, now)` to the frequency log only when an oscillator exists; otherwise nothing changes |
| `ToneGenerator.ToneApp.SetVolume` | app.js:55-64 | always sets `targetVolume = v/100`; appends `Cancel(now)` and then `Target(v/100, now, 0.08)` only when a gain node and a context exist |
| `ToneGenerator.ToneApp.SetWaveform` | app.js:66-70 | changes the oscillator type only when an oscillator exists |
| `ToneGenerator.ToneApp.ClearAudioGraph` | app.js:72-87 | oscillator, gain node and analyser are all gone and `sweepActive` is false |
| `ToneGenerator.ToneApp.StopTone` | app.js:89-107 | with no oscillator or no context nothing changes; otherwise it logs `Cancel(now)` and then `Target(0, now, 0.08)` on the gain, clears `sweepActive` and queues exactly one hard-stop timer holding the live id; the graph stays in place and the invariant is kept |
| `ToneGenerator.ToneApp.StopOscillator` | app.js:104 | the oscillator is stopped; the first stop queues its ended event and a repeated stop queues nothing |
| `ToneGenerator.ToneApp.StopTimerFired` | app.js:101-106 | stops the oscillator only if the captured id is the live one; a stale timer changes nothing |
| `ToneGenerator.ToneApp.OscillatorEnded` | app.js:131-139 | while its oscillator is live, the handler drops all three nodes, clears `sweepActive` and the frame request, and resets the pulse to 1; a detached handler changes nothing |
| `ToneGenerator.ToneApp.DrawFrame` | app.js:146-170 | with no analyser nothing changes and no frame is requested; otherwise the next frame is requested before the rate check; it draws iff `timestamp - lastDraw >= 16`, and only then moves `lastDraw` to the timestamp and sets the pulse from the analyser snapshot |
| `ToneGenerator.ToneApp.CreateGraph` | app.js:115-118 | three fresh nodes under a newly minted id, with empty automation, type "sine" and a silent analyser; the invariant is kept |
| `ToneGenerator.ToneApp.BuildGraph` | app.js:115-125 | the gain log is `SetValue(0, now)`, `Cancel(now)`, `Target(volume/100, now, 0.08)`, in that order; the frequency log is `SetValue(frequency, now)`; the type is the selected shape |
| `ToneGenerator.ToneApp.StartTone` | app.js:109-144 | when a graph exists nothing changes (idempotent, id unchanged); otherwise a new graph gets the next id, is built as in BuildGraph and has the frame loop running; the call at timestamp 0 never draws |
| `ToneGenerator.ToneApp.RunSweep` | app.js:205-237 | a graph exists afterwards, `sweepActive` is set, the frequency log gains exactly the sweep schedule after whatever startTone issued, one sweep-end timer is queued and the frequency control shows the engine's current frequency; on an existing graph the gain log, stop state, shape, volume intent, snapshot and frame loop are unchanged, and a new graph is built from the controls exactly as by startTone |
| `ToneGenerator.ToneApp.ScheduleSweep` | app.js:211-236 | on the live oscillator, the frequency log gains exactly the sweep schedule at `now`, `sweepActive` is set and one sweep-end timer is queued |
| `ToneGenerator.ToneApp.SweepUpdate` | app.js:221-229 | while the sweep is tracked on a live oscillator, the frequency control takes the oscillator's current frequency and another tick is requested; otherwise nothing changes and the loop ends |
| `ToneGenerator.ToneApp.OnFrequencyInput` | app.js:250-253 | the control's value is stored, `sweepActive` is cleared and the frequency is applied as by setFrequency |
| `ToneGenerator.ToneApp.OnVolumeInput` | app.js:255-257 | the control's value is stored and applied as by setVolume |
| `ToneGenerator.ToneApp.OnWaveformChange` | app.js:259-261 | the selection is stored and applied as by setWaveform |
| `ToneGenerator.ToneApp.OnToggleClick` | app.js:240-246 | while an oscillator is held, even one fading out, it stops: the graph, its frequency log, shape, snapshot, volume intent and display are kept, the fade to 0 is logged, `sweepActive` is cleared and one more hard-stop timer is queued; otherwise it starts a graph with the next id built from the controls (gain and frequency logs, shape, volume intent, frame loop requested) with the queue unchanged |
| `ToneGenerator.ToneApp.AdvanceClock` | app.js:93 | the context clock moves forward to the given time |
| `ToneGenerator.ToneApp.RenderAudio` | app.js:161 | the analyser's snapshot is replaced by 512 new bytes |
| `ToneGenerator.ToneApp.FireStopTimer` | app.js:102-106 | running a pending hard-stop timer removes it, stops the oscillator and queues its ended event only if the captured id is live and not yet stopped, and otherwise leaves every other field as it was |
| `ToneGenerator.ToneApp.FireSweepTimer` | app.js:234-236 | running a pending sweep-end timer removes it and clears `sweepActive`, without checking which sweep it belongs to |
| `ToneGenerator.ToneApp.FireEnded` | app.js:131-139 | a pending ended event always belongs to the live oscillator, so running it always tears down the graph, and no ended event is left pending |
| `ToneGenerator.ToneApp.FireFrame` | app.js:151-170 | a requested frame requests the next one; it draws iff 16 ms have passed, a drawn frame lies at least 16 ms after the previous one, and only a drawn frame sets the pulse from the analyser snapshot |
| `ToneGenerator.ToneApp.FireFrames` | app.js:151-170 | over a run of frames the object draws exactly the timestamps `Redraw.AcceptedFrames` accepts and `lastDraw` ends at `Redraw.LastDrawAfter`, so the spacing of `Redraw.AcceptedFramesSpaced` holds of the frames drawn; the pulse is unchanged if none is drawn and otherwise comes from the snapshot |
| `ToneGenerator.StartGainFloorCancelled` | app.js:120-124 | of the start-up gain automation, `SetValue(0, now)` does not survive the `Cancel(now)` issued after it; only `Target(volume, now, 0.08)` remains |
| `ToneGenerator.GainChangeSupersedes` | app.js:59-63 | after a gain change at `now` (setVolume, or stopTone's fade to 0), the only automation at or after `now` is that change's `Target` |
| `ToneGenerator.ClickTwice` | app.js:240-246 | two clicks while a tone plays both stop, queueing two hard-stop timers for the same live, unstopped oscillator |
| `ToneGenerator.StopTwiceThenTearDown` | app.js:240-246 | two clicks while fading queue two timers for the same graph; the first stops it and its ended event tears it down, leaving one timer for the dead graph |
| `ToneGenerator.StopThenTearDown` | app.js:101-106 | one click, its timer and the ended event tear the graph down and leave the rest of the queue as it was |
| `ToneGenerator.SweepThenTearDown` | app.js:205-237 | a sweep from silence followed by a stop, its timer and the ended event leaves no graph and exactly one sweep-end timer more than before |
| `ToneGenerator.StaleStopTimerScenario` | app.js:101-106 | the leftover timer for graph 0 fires after graph 1 has started; graph 1 stays live and unstopped |
| `ToneGenerator.StaleSweepTimerScenario` | app.js:233-236 | a stale sweep-end timer clears the flag while the second sweep is playing and its own timer is still pending |
| `Automation.Before` | app.js:61 | exactly the events scheduled before a time, nothing else |
| `Automation.Surviving` | app.js:95-96 | what remains scheduled after a log is issued contains no cancels and only events from the log |
| `Automation.CancelThenSchedule` | app.js:61-62 | after `Cancel(t)` and then calls without cancels, the surviving timeline is the earlier events before `t` followed by exactly those calls, so curves never stack |
| `Automation.SweepSchedule` | app.js:211-219 | cancel at `now`, then 20 Hz at `now`, 200 Hz at `now+6` and 20 Hz at `now+12`; every value lies in [20, 200] and the times never decrease |
| `Automation.SetValueKeepsSweep` | app.js:47-53 | a `SetValue` issued after a sweep cancels none of the sweep's points: all of them, the 200 Hz peak included, stay scheduled together with the new value |
| `Automation.SweepReplacesPending` | app.js:216-219 | after a sweep is issued, every frequency event at or after `now` is one of the sweep's three points, within [20, 200] |
| `Pulse.Deviation` | app.js:166-167 | each term `|v/128 − 1|` lies in [0, 1], is 0 exactly at 128 and is 1 exactly at 0 |
| `Pulse.DeviationSum` | app.js:164-168 | the fold of the terms lies in [0, n] |
| `Pulse.AverageDeviation` | app.js:164-168 | the average lies in [0, 1] |
| `Pulse.PulseScale` | app.js:170 | at most 1.7; at least 1 for a non-negative average; exactly 1.7 when 3·avg reaches 0.7 |
| `Pulse.DeviationSumConcat` | app.js:165-167 | the fold is additive over a split of the snapshot |
| `Pulse.DeviationSumZero` | app.js:164-168 | the sum is 0 exactly when every sample is 128 |
| `Pulse.SilentSnapshot` | app.js:164-170 | the pulse scale is 1 exactly on a silent snapshot |
| `Pulse.AlternatingSnapshot` | app.js:164-170 | the alternating 0/255 snapshot averages 255/256 and gives the capped scale 1.7 |
| `Redraw.AcceptedFrames` | app.js:154-157 | the frames the limiter accepts are a selection of the given timestamps |
| `Redraw.AcceptedFramesSpaced` | app.js:154-157 | accepted frames are at least 16 ms apart, the first at least 16 ms after the starting `lastDraw`, and `lastDraw` ends at the last accepted frame |

## Left out

- DOM lookups, label text (`textContent`, `Math.round`, `toFixed`), the toggle button's text and the listener wiring (app.js:4-13, 38-45, 98, 137-142, 263-265). These are UI output.
- Canvas waveform drawing (app.js:179-202) and the label updates inside `drawFrame` (app.js:173-177). These are output to the page.
- The frequency label that `sweepUpdate` writes (app.js:228). It is UI output; the write to the frequency control is modelled by `SweepUpdate`.
- `ToneGenerator.ToneApp.SweepUpdate`: the ticks after the first are not in the queue of pending callbacks; each is a separate step, and the current frequency is a parameter because interpolation is not modelled.
- Audio rendering: how oscillators sound and how ramps and `setTargetAtTime` interpolate. `Surviving` keeps only the cancel rule.
- Node connections (`connect`, `disconnect`). These are modelled only as the nodes existing or not.
- `ensureAudioContext`'s `await resume()`, and context creation failure. The context is a created flag and `startTone` runs as one step. As a result the `!oscillator` return in `runSweep` (app.js:207-209) cannot be reached in the model.
- The context clock advancing inside one handler. Every read of `currentTime` within a call sees the same value; the clock moves only between calls (`AdvanceClock`).
- Real timer delays (200 ms, 12 s). Pending callbacks fire in any order, which includes every order the delays allow.
- An oscillator ending for any reason other than `stop()`.
- `ToneGenerator.ToneApp.StopOscillator`: a second `stop()` on an oscillator that has already been stopped is taken to have no effect. The audio engine's exact behaviour here is not part of the source.
- The `animationFrame` handle is a flag meaning "a frame is requested and has not run yet".
- `Number(value)` conversion of control values. Controls deliver reals.
- IEEE floating point. Volumes, times and averages are exact reals.
- `ToneGenerator.ToneApp.DrawFrame` and `ToneGenerator.ToneApp.FireFrame` require a non-negative timestamp, as animation-frame timestamps are.
- An empty snapshot is never averaged, because the analyser's size is fixed at 512.
