/** The play/stop lifecycle of the tone generator: the module-level state of
    app.js as one object, its operations as methods, and the event loop's
    pending callbacks as an explicit queue that environment steps fire one at
    a time, in any order. */
module ToneGenerator {
  import opened Automation
  import opened Pulse
  import opened Redraw

  datatype Option<T> = None | Some(value: T)

  /** A callback the event loop holds for later. Graphs are named by the id
      minted when their oscillator was created, which stands for the
      oscillator object's identity. */
  datatype Task =
    | HardStop(captured: nat)  // stopTone's 200 ms timer, holding the oscillator it saw
    | SweepEnd                 // runSweep's 12 s timer that clears sweepActive
    | Ended(node: nat)         // the ended event of a stopped oscillator

  function Silence(): (s: seq<Byte>)
    ensures |s| == FFT_SIZE && forall i :: 0 <= i < |s| ==> s[i] == CENTER
  {
    seq(FFT_SIZE, _ => CENTER)
  }

  class ToneApp {
    // The audio context and its clock (currentTime, in seconds).
    var contextCreated: bool
    var currentTime: real
    // The controls' current values, read when a tone starts.
    var frequencySlider: real
    var volumeSlider: real
    var waveformSelect: string
    // The signal graph: oscillator -> gain node -> analyser.
    var oscillator: Option<nat>
    var oscillatorStopped: bool  // stop() has been called on the current oscillator
    var gainNode: bool
    var analyser: bool
    var frequencyEvents: seq<Event>  // automation issued on oscillator.frequency
    var gainEvents: seq<Event>       // automation issued on gainNode.gain
    var waveform: string             // oscillator.type
    var analyserData: seq<Byte>      // the analyser's latest time-domain snapshot
    // The remaining module-level variables.
    var sweepActive: bool
    var targetVolume: real
    var lastDraw: real
    var animationFrame: bool         // an animation frame is requested and not yet run
    var pulseScale: real             // the scale shown by the pulse indicator
    // The event loop.
    var nextGraphId: nat
    var pending: seq<Task>

    ghost predicate Valid()
      reads this
    {
      GraphWired() && TasksConsistent() && DisplayInRange()
    }

    /** The three nodes exist together, only with a context, and the live one
        carries the newest id; without a graph nothing is stopping, sweeping or
        animating. */
    ghost predicate GraphWired()
      reads this`oscillator, this`gainNode, this`analyser, this`contextCreated, this`nextGraphId,
            this`oscillatorStopped, this`sweepActive, this`animationFrame, this`analyserData
    {
      && (oscillator.Some? <==> gainNode) && (oscillator.Some? <==> analyser)
      && (oscillator.Some? ==> contextCreated && oscillator.value + 1 == nextGraphId)
      && (oscillator.None? ==> !oscillatorStopped && !sweepActive && !animationFrame)
      && |analyserData| == FFT_SIZE
    }

    /** Every timer names a graph that has existed, and an ended event is
        pending, once, exactly when the live oscillator has been stopped. */
    ghost predicate TasksConsistent()
      reads this`pending, this`oscillator, this`oscillatorStopped, this`nextGraphId
    {
      && (forall t | t in pending :: t.HardStop? ==> t.captured < nextGraphId)
      && (forall t | t in pending :: t.Ended? ==> oscillator == Some(t.node))
      && (oscillator.Some? ==>
            multiset(pending)[Ended(oscillator.value)] == if oscillatorStopped then 1 else 0)
    }

    ghost predicate DisplayInRange()
      reads this`lastDraw, this`pulseScale
    {
      0.0 <= lastDraw && 1.0 <= pulseScale <= 1.0 + PULSE_CAP
    }

    /** What startTone leaves when it had to build a graph: fresh nodes under
        the next id and a silent analyser, the gain floor followed by the
        approach to the volume control's level, the shape of the waveform
        control, and the frame loop requested with the display as it was. */
    twostate predicate BuiltFromControls()
      reads this
    {
      && oscillator == Some(old(nextGraphId)) && nextGraphId == old(nextGraphId) + 1
      && gainNode && analyser && !oscillatorStopped && analyserData == Silence()
      && gainEvents == [SetValue(0.0, currentTime), Cancel(currentTime),
                        Target(volumeSlider / 100.0, currentTime, VOLUME_RAMP)]
      && waveform == waveformSelect
      && targetVolume == volumeSlider / 100.0
      && animationFrame && lastDraw == old(lastDraw) && pulseScale == old(pulseScale)
    }

    /** Page load: nothing is playing and the volume intent is read from the
        volume control. */
    constructor (frequency: real, volume: real, shape: string)
      ensures Valid()
      ensures frequencySlider == frequency && volumeSlider == volume && waveformSelect == shape
      ensures targetVolume == volume / 100.0
      ensures !contextCreated && currentTime == 0.0 && oscillator.None?
      ensures !sweepActive && lastDraw == 0.0 && pending == [] && nextGraphId == 0
    {
      contextCreated, currentTime := false, 0.0;
      frequencySlider, volumeSlider, waveformSelect := frequency, volume, shape;
      oscillator, oscillatorStopped, gainNode, analyser := None, false, false, false;
      frequencyEvents, gainEvents, waveform, analyserData := [], [], "sine", Silence();
      sweepActive, targetVolume, lastDraw := false, volume / 100.0, 0.0;
      animationFrame, pulseScale := false, 1.0;
      nextGraphId, pending := 0, [];
    }

    /** isPlaying: an oscillator reference is held, which stays true while
        the tone is fading out. */
    predicate IsPlaying(): (playing: bool)
      reads this
      ensures Valid() ==> (playing <==> gainNode && analyser && contextCreated)
    {
      oscillator.Some?
    }

    method EnsureAudioContext()
      modifies this`contextCreated
      ensures contextCreated
    {
      contextCreated := true;
    }

    method SetFrequency(value: real)
      requires Valid()
      modifies this`frequencyEvents
      ensures Valid()
      ensures frequencyEvents ==
        if oscillator.Some? then old(frequencyEvents) + [SetValue(value, currentTime)]
        else old(frequencyEvents)
    {
      if oscillator.Some? {
        frequencyEvents := frequencyEvents + [SetValue(value, currentTime)];
      }
    }

    method SetVolume(value: real)
      requires Valid()
      modifies this`targetVolume, this`gainEvents
      ensures Valid()
      ensures targetVolume == value / 100.0
      ensures gainEvents ==
        if gainNode && contextCreated
        then old(gainEvents) + [Cancel(currentTime), Target(value / 100.0, currentTime, VOLUME_RAMP)]
        else old(gainEvents)
    {
      var normalized := value / 100.0;
      targetVolume := normalized;
      if gainNode && contextCreated {
        var now := currentTime;
        gainEvents := gainEvents + [Cancel(now), Target(normalized, now, VOLUME_RAMP)];
      }
    }

    method SetWaveform(shape: string)
      requires Valid()
      modifies this`waveform
      ensures Valid()
      ensures waveform == if oscillator.Some? then shape else old(waveform)
    {
      if oscillator.Some? {
        waveform := shape;
      }
    }

    /** Drops the three nodes (disconnecting them and detaching the ended
        handler) and clears sweepActive. */
    method ClearAudioGraph()
      requires oscillator.None? ==> !oscillatorStopped
      modifies this`oscillator, this`oscillatorStopped, this`gainNode, this`analyser, this`sweepActive
      ensures oscillator.None? && !oscillatorStopped && !gainNode && !analyser && !sweepActive
    {
      if oscillator.Some? {
        oscillator, oscillatorStopped := None, false;
      }
      if gainNode {
        gainNode := false;
      }
      if analyser {
        analyser := false;
      }
      sweepActive := false;
    }

    /** Fades the gain out and arms the deferred hard stop against the
        oscillator that is live now. The graph itself stays in place. */
    method StopTone()
      requires Valid()
      modifies this`gainEvents, this`sweepActive, this`pending
      ensures Valid()
      ensures !(old(oscillator).Some? && contextCreated) ==> unchanged(this)
      ensures old(oscillator).Some? && contextCreated ==>
        && gainEvents == old(gainEvents) + [Cancel(currentTime), Target(0.0, currentTime, VOLUME_RAMP)]
        && !sweepActive
        && pending == old(pending) + [HardStop(oscillator.value)]
    {
      if oscillator.None? || !contextCreated {
        return;
      }
      var now := currentTime;
      if gainNode {
        gainEvents := gainEvents + [Cancel(now), Target(0.0, now, VOLUME_RAMP)];
      }
      sweepActive := false;
      var oscRef := oscillator.value;
      pending := pending + [HardStop(oscRef)];
    }

    /** oscillator.stop(): the first call makes the audio engine dispatch an
        ended event later; a repeated call has no further effect. */
    method StopOscillator()
      requires oscillator.Some?
      modifies this`oscillatorStopped, this`pending
      ensures oscillatorStopped
      ensures pending ==
        if old(oscillatorStopped) then old(pending) else old(pending) + [Ended(oscillator.value)]
    {
      if !oscillatorStopped {
        oscillatorStopped := true;
        pending := pending + [Ended(oscillator.value)];
      }
    }

    /** The hard-stop timer's body: stop the captured oscillator only if it
        is still the live one. A stale timer changes nothing. */
    method StopTimerFired(captured: nat)
      modifies this`oscillatorStopped, this`pending
      ensures oscillator != Some(captured) ==> unchanged(this)
      ensures oscillator == Some(captured) ==>
        && oscillatorStopped
        && pending == if old(oscillatorStopped) then old(pending) else old(pending) + [Ended(captured)]
    {
      if oscillator == Some(captured) {
        StopOscillator();
      }
    }

    /** The oscillator's onended handler, which runs only while the handler
        is still attached, i.e. while that oscillator is the live one. */
    method OscillatorEnded(node: nat)
      modifies this`oscillator, this`oscillatorStopped, this`gainNode, this`analyser,
               this`sweepActive, this`animationFrame, this`pulseScale
      ensures old(oscillator) != Some(node) ==> unchanged(this)
      ensures old(oscillator) == Some(node) ==>
        && oscillator.None? && !oscillatorStopped && !gainNode && !analyser
        && !sweepActive && !animationFrame && pulseScale == 1.0
    {
      if oscillator == Some(node) {
        ClearAudioGraph();
        if animationFrame {
          animationFrame := false;
        }
        pulseScale := 1.0;
      }
    }

    /** One animation frame. Without an analyser the loop ends; otherwise the
        next frame is requested first, then the rate limit decides whether
        this frame samples the analyser and updates the pulse. */
    method DrawFrame(timestamp: real) returns (drawn: bool)
      requires Valid() && 0.0 <= timestamp
      modifies this`animationFrame, this`lastDraw, this`pulseScale
      ensures Valid()
      ensures !old(analyser) ==> !drawn && unchanged(this)
      ensures analyser ==> animationFrame
      ensures drawn == (analyser && DueForRedraw(old(lastDraw), timestamp))
      ensures lastDraw == if drawn then timestamp else old(lastDraw)
      ensures pulseScale == if drawn then PulseScale(AverageDeviation(analyserData)) else old(pulseScale)
    {
      if !analyser {
        return false;
      }
      animationFrame := true;
      if !DueForRedraw(lastDraw, timestamp) {
        return false;
      }
      lastDraw := timestamp;
      var average := AverageDeviation(analyserData);
      pulseScale := PulseScale(average);
      drawn := true;
    }

    /** createOscillator, createGain and createAnalyser: three fresh nodes
        under a newly minted id, with empty automation, the default "sine"
        shape and a silent analyser. */
    method CreateGraph()
      requires Valid() && oscillator.None? && contextCreated
      modifies this`oscillator, this`oscillatorStopped, this`nextGraphId, this`gainNode,
               this`analyser, this`frequencyEvents, this`gainEvents, this`waveform, this`analyserData
      ensures Valid()
      ensures oscillator == Some(old(nextGraphId)) && nextGraphId == old(nextGraphId) + 1
      ensures gainNode && analyser && !oscillatorStopped
      ensures frequencyEvents == [] && gainEvents == [] && waveform == "sine"
      ensures analyserData == Silence()
    {
      assert forall t | t in pending :: !t.Ended?;
      oscillator, oscillatorStopped := Some(nextGraphId), false;
      nextGraphId := nextGraphId + 1;
      gainNode, analyser := true, true;
      frequencyEvents, gainEvents, waveform, analyserData := [], [], "sine", Silence();
    }

    /** The body of startTone once it knows no graph exists: fresh nodes,
        the gain set to 0 at the current time, then the controls' frequency,
        volume and waveform applied to them. */
    method BuildGraph()
      requires Valid() && oscillator.None? && contextCreated
      modifies this`oscillator, this`oscillatorStopped, this`nextGraphId, this`gainNode,
               this`analyser, this`frequencyEvents, this`gainEvents, this`waveform,
               this`analyserData, this`targetVolume
      ensures Valid()
      ensures oscillator == Some(old(nextGraphId)) && nextGraphId == old(nextGraphId) + 1
      ensures gainNode && analyser && !oscillatorStopped
      ensures gainEvents == [SetValue(0.0, currentTime), Cancel(currentTime),
                             Target(volumeSlider / 100.0, currentTime, VOLUME_RAMP)]
      ensures frequencyEvents == [SetValue(frequencySlider, currentTime)]
      ensures waveform == waveformSelect && analyserData == Silence()
      ensures targetVolume == volumeSlider / 100.0
    {
      CreateGraph();
      var now := currentTime;
      gainEvents := [SetValue(0.0, now)];
      SetFrequency(frequencySlider);
      SetVolume(volumeSlider);
      SetWaveform(waveformSelect);
    }

    /** startTone: builds a new graph unless one exists, then starts the
        frame loop with a direct drawFrame() call. */
    method StartTone()
      requires Valid()
      modifies this`contextCreated, this`oscillator, this`oscillatorStopped, this`nextGraphId,
               this`gainNode, this`analyser, this`frequencyEvents, this`gainEvents, this`waveform,
               this`analyserData, this`targetVolume, this`animationFrame, this`lastDraw, this`pulseScale
      ensures Valid() && contextCreated
      ensures old(oscillator).Some? ==> unchanged(this)
      ensures old(oscillator).None? ==>
        BuiltFromControls() && frequencyEvents == [SetValue(frequencySlider, currentTime)]
    {
      EnsureAudioContext();
      if oscillator.Some? {
        return;
      }
      BuildGraph();
      // drawFrame() runs with timestamp 0, which never passes the rate limit
      assert !DueForRedraw(lastDraw, 0.0);
      var drawn := DrawFrame(0.0);
    }

    /** Starts a tone if needed and schedules a 12 s sweep 20 Hz -> 200 Hz
        -> 20 Hz on the oscillator's frequency, plus the timer that clears
        sweepActive when it is over; the first tick of the sweep's slider
        mirror runs at once, with `current` the oscillator's frequency as the
        audio engine reports it. */
    method RunSweep(current: real)
      requires Valid()
      modifies this`frequencySlider, this`contextCreated, this`oscillator, this`oscillatorStopped, this`nextGraphId,
               this`gainNode, this`analyser, this`frequencyEvents, this`gainEvents, this`waveform,
               this`analyserData, this`targetVolume, this`animationFrame, this`lastDraw,
               this`pulseScale, this`sweepActive, this`pending
      ensures Valid()
      ensures oscillator.Some? && sweepActive
      ensures oscillator == if old(oscillator).Some? then old(oscillator) else Some(old(nextGraphId))
      ensures frequencyEvents ==
        (if old(oscillator).Some? then old(frequencyEvents) else [SetValue(old(frequencySlider), currentTime)])
        + SweepSchedule(currentTime)
      ensures pending == old(pending) + [SweepEnd]
      ensures old(oscillator).Some? ==>
        unchanged(this`gainEvents, this`oscillatorStopped, this`nextGraphId, this`waveform,
                  this`targetVolume, this`analyserData, this`animationFrame, this`lastDraw,
                  this`pulseScale)
      ensures old(oscillator).None? ==> BuiltFromControls()
      ensures frequencySlider == current
    {
      StartTone();
      if oscillator.None? {
        return;
      }
      ScheduleSweep();
      var again := SweepUpdate(current);
    }

    /** The sweep proper, on the live oscillator: the frequency automation
        from now on, the tracking flag, and the timer that ends it. */
    method ScheduleSweep()
      requires Valid() && oscillator.Some?
      modifies this`sweepActive, this`frequencyEvents, this`pending
      ensures Valid() && sweepActive
      ensures frequencyEvents == old(frequencyEvents) + SweepSchedule(currentTime)
      ensures pending == old(pending) + [SweepEnd]
    {
      var now := currentTime;
      sweepActive := true;
      frequencyEvents := frequencyEvents + SweepSchedule(now);
      pending := pending + [SweepEnd];
    }

    /** One tick of the sweep's own frame loop: while the sweep is tracked
        on a live oscillator, the frequency control is moved to the
        oscillator's current frequency `current` (as the audio engine reports
        it) and another tick is requested; otherwise the loop ends. */
    method SweepUpdate(current: real) returns (again: bool)
      modifies this`frequencySlider
      ensures again == (sweepActive && oscillator.Some?)
      ensures frequencySlider == if again then current else old(frequencySlider)
    {
      if !sweepActive || oscillator.None? {
        return false;
      }
      frequencySlider := current;
      again := true;
    }

    // The handlers of the controls.

    /** The frequency control's input handler: a manual change ends the
        sweep's tracking before the frequency is applied. */
    method OnFrequencyInput(value: real)
      requires Valid()
      modifies this`frequencySlider, this`sweepActive, this`frequencyEvents
      ensures Valid()
      ensures frequencySlider == value && !sweepActive
      ensures frequencyEvents ==
        if oscillator.Some? then old(frequencyEvents) + [SetValue(value, currentTime)]
        else old(frequencyEvents)
    {
      frequencySlider := value;
      sweepActive := false;
      SetFrequency(value);
    }

    method OnVolumeInput(value: real)
      requires Valid()
      modifies this`volumeSlider, this`targetVolume, this`gainEvents
      ensures Valid()
      ensures volumeSlider == value && targetVolume == value / 100.0
      ensures gainEvents ==
        if gainNode && contextCreated
        then old(gainEvents) + [Cancel(currentTime), Target(value / 100.0, currentTime, VOLUME_RAMP)]
        else old(gainEvents)
    {
      volumeSlider := value;
      SetVolume(value);
    }

    method OnWaveformChange(shape: string)
      requires Valid()
      modifies this`waveformSelect, this`waveform
      ensures Valid()
      ensures waveformSelect == shape
      ensures waveform == if oscillator.Some? then shape else old(waveform)
    {
      waveformSelect := shape;
      SetWaveform(shape);
    }

    /** The play button: stop while an oscillator is held (even one already
        fading out), start otherwise. */
    method OnToggleClick()
      requires Valid()
      modifies this`contextCreated, this`oscillator, this`oscillatorStopped, this`nextGraphId,
               this`gainNode, this`analyser, this`frequencyEvents, this`gainEvents, this`waveform,
               this`analyserData, this`targetVolume, this`animationFrame, this`lastDraw,
               this`pulseScale, this`sweepActive, this`pending
      ensures Valid()
      ensures old(oscillator).Some? ==>
        && oscillator == old(oscillator) && oscillatorStopped == old(oscillatorStopped)
        && nextGraphId == old(nextGraphId) && !sweepActive
        && gainEvents == old(gainEvents) + [Cancel(currentTime), Target(0.0, currentTime, VOLUME_RAMP)]
        && pending == old(pending) + [HardStop(oscillator.value)]
        && unchanged(this`frequencyEvents, this`waveform, this`targetVolume, this`analyserData,
                     this`animationFrame, this`lastDraw, this`pulseScale)
      ensures old(oscillator).None? ==>
        && BuiltFromControls() && frequencyEvents == [SetValue(frequencySlider, currentTime)]
        && !sweepActive && pending == old(pending)
    {
      if IsPlaying() {
        StopTone();
      } else {
        StartTone();
      }
    }

    // Environment steps: the clock, the audio thread and the event loop.

    method AdvanceClock(t: real)
      requires contextCreated && currentTime <= t
      modifies this`currentTime
      ensures currentTime == t
    {
      currentTime := t;
    }

    /** The audio thread refreshes the analyser's snapshot. */
    method RenderAudio(snapshot: seq<Byte>)
      requires Valid() && analyser && |snapshot| == FFT_SIZE
      modifies this`analyserData
      ensures Valid() && analyserData == snapshot
    {
      analyserData := snapshot;
    }

    /** The event loop runs the pending hard-stop timer at index i. */
    method FireStopTimer(i: nat)
      requires Valid() && i < |pending| && pending[i].HardStop?
      modifies this`oscillatorStopped, this`pending
      ensures Valid()
      ensures var captured := old(pending[i].captured);
              var rest := old(pending[..i] + pending[i + 1..]);
        if oscillator == Some(captured) && !old(oscillatorStopped)
        then oscillatorStopped && pending == rest + [Ended(captured)]
        else oscillatorStopped == old(oscillatorStopped) && pending == rest
    {
      var task := pending[i];
      assert pending == pending[..i] + [task] + pending[i + 1..];
      pending := pending[..i] + pending[i + 1..];
      StopTimerFired(task.captured);
    }

    /** The event loop runs the pending sweep-end timer at index i. It does
        not check which sweep it belonged to. */
    method FireSweepTimer(i: nat)
      requires Valid() && i < |pending| && pending[i].SweepEnd?
      modifies this`sweepActive, this`pending
      ensures Valid()
      ensures !sweepActive && pending == old(pending[..i] + pending[i + 1..])
    {
      assert pending == pending[..i] + [pending[i]] + pending[i + 1..];
      pending := pending[..i] + pending[i + 1..];
      sweepActive := false;
    }

    /** The audio engine dispatches the pending ended event at index i. Its
        oscillator is always the live one, so the graph is always torn down. */
    method FireEnded(i: nat)
      requires Valid() && i < |pending| && pending[i].Ended?
      modifies this`oscillator, this`oscillatorStopped, this`gainNode, this`analyser,
               this`sweepActive, this`animationFrame, this`pulseScale, this`pending
      ensures Valid()
      ensures oscillator.None? && !gainNode && !analyser && !sweepActive && !animationFrame
      ensures pulseScale == 1.0
      ensures pending == old(pending[..i] + pending[i + 1..])
      ensures forall t | t in pending :: !t.Ended?
    {
      var task := pending[i];
      assert pending == pending[..i] + [task] + pending[i + 1..];
      pending := pending[..i] + pending[i + 1..];
      OscillatorEnded(task.node);
    }

    /** The browser runs the requested animation frame. */
    method FireFrame(timestamp: real) returns (drawn: bool)
      requires Valid() && animationFrame && 0.0 <= timestamp
      modifies this`animationFrame, this`lastDraw, this`pulseScale
      ensures Valid() && animationFrame
      ensures drawn == DueForRedraw(old(lastDraw), timestamp)
      ensures lastDraw == if drawn then timestamp else old(lastDraw)
      ensures drawn ==> lastDraw - old(lastDraw) >= FRAME_INTERVAL
      ensures pulseScale == if drawn then PulseScale(AverageDeviation(analyserData)) else old(pulseScale)
    {
      animationFrame := false;
      drawn := DrawFrame(timestamp);
    }

    /** The browser runs a series of animation frames at `stamps`, each one
        requested by the one before. The frames drawn are exactly those
        AcceptedFrames picks, and lastDraw ends where LastDrawAfter says, so
        the spacing proved of those functions holds of the frames this object
        draws; the pulse moves only if some frame is drawn. */
    method FireFrames(stamps: seq<real>) returns (drawnStamps: seq<real>)
      requires Valid() && animationFrame
      requires forall i :: 0 <= i < |stamps| ==> 0.0 <= stamps[i]
      modifies this`animationFrame, this`lastDraw, this`pulseScale
      ensures Valid() && animationFrame
      ensures lastDraw == LastDrawAfter(old(lastDraw), stamps)
      ensures drawnStamps == AcceptedFrames(old(lastDraw), stamps)
      ensures pulseScale ==
        if drawnStamps == [] then old(pulseScale) else PulseScale(AverageDeviation(analyserData))
    {
      drawnStamps := [];
      var k := 0;
      while k < |stamps|
        invariant 0 <= k <= |stamps|
        invariant Valid() && animationFrame
        invariant LastDrawAfter(lastDraw, stamps[k..]) == LastDrawAfter(old(lastDraw), stamps)
        invariant drawnStamps + AcceptedFrames(lastDraw, stamps[k..]) == AcceptedFrames(old(lastDraw), stamps)
        invariant pulseScale ==
          if drawnStamps == [] then old(pulseScale) else PulseScale(AverageDeviation(analyserData))
      {
        assert stamps[k..][1..] == stamps[k + 1..];
        var drawn := FireFrame(stamps[k]);
        if drawn {
          drawnStamps := drawnStamps + [stamps[k]];
        }
        k := k + 1;
      }
      assert stamps[k..] == [];
    }
  }

  /** Of the gain automation startTone issues, the click-avoiding 0 at `now`
      does not survive: the Cancel(now) of the setVolume call that follows
      drops it, and only the approach to the volume remains. */
  lemma StartGainFloorCancelled(now: real, volume: real)
    ensures Surviving([SetValue(0.0, now), Cancel(now), Target(volume, now, VOLUME_RAMP)])
         == [Target(volume, now, VOLUME_RAMP)]
  {
    var floor := [SetValue(0.0, now)];
    assert floor + [Cancel(now)] + [Target(volume, now, VOLUME_RAMP)]
        == [SetValue(0.0, now), Cancel(now), Target(volume, now, VOLUME_RAMP)];
    assert Surviving(floor) == floor by {
      assert floor[..0] == [];
    }
    assert Before(floor, now) == [];
    CancelThenSchedule(floor, now, [Target(volume, now, VOLUME_RAMP)]);
  }

  /** A gain change (setVolume, or the fade of stopTone with target 0) issued
      at `now` supersedes every earlier gain automation from `now` on. */
  lemma GainChangeSupersedes(log: seq<Event>, now: real, target: real)
    ensures var r := Surviving(log + [Cancel(now), Target(target, now, VOLUME_RAMP)]);
      && r == Before(Surviving(log), now) + [Target(target, now, VOLUME_RAMP)]
      && forall e :: e in r && e.time >= now ==> e == Target(target, now, VOLUME_RAMP)
  {
    assert log + [Cancel(now), Target(target, now, VOLUME_RAMP)]
        == log + [Cancel(now)] + [Target(target, now, VOLUME_RAMP)];
    CancelThenSchedule(log, now, [Target(target, now, VOLUME_RAMP)]);
  }

  /** Two clicks on the play button while a tone plays: the second comes
      while the tone fades out (isPlaying is still true), so both stop, and
      two hard-stop timers capture the same oscillator. */
  method ClickTwice(app: ToneApp)
    requires app.Valid() && app.oscillator.Some? && !app.oscillatorStopped
    modifies app
    ensures app.Valid() && app.oscillator == old(app.oscillator) && !app.oscillatorStopped
    ensures app.nextGraphId == old(app.nextGraphId)
    ensures app.pending == old(app.pending) + [HardStop(old(app.oscillator).value), HardStop(old(app.oscillator).value)]
  {
    app.OnToggleClick();
    app.OnToggleClick();
  }

  /** Two stopping clicks, then the first hard-stop timer and the ended
      event it causes: the graph is gone and one timer capturing it
      is left over. */
  method StopTwiceThenTearDown(app: ToneApp)
    requires app.Valid() && app.oscillator.Some? && !app.oscillatorStopped
    modifies app
    ensures app.Valid() && app.oscillator.None? && app.nextGraphId == old(app.nextGraphId)
    ensures app.pending == old(app.pending) + [HardStop(old(app.oscillator).value)]
  {
    var p, id := app.pending, app.oscillator.value;
    ClickTwice(app);
    app.FireStopTimer(|p|);
    assert app.pending == p + [HardStop(id), Ended(id)];
    app.FireEnded(|p| + 1);
    assert app.pending == p + [HardStop(id)];
  }

  /** One click on the play button, the hard-stop timer and the ended event:
      the graph is gone and nothing else is pending. */
  method StopThenTearDown(app: ToneApp)
    requires app.Valid() && app.oscillator.Some? && !app.oscillatorStopped
    modifies app
    ensures app.Valid() && app.oscillator.None? && app.nextGraphId == old(app.nextGraphId)
    ensures app.pending == old(app.pending)
  {
    var p, id := app.pending, app.oscillator.value;
    app.OnToggleClick();
    assert app.pending == p + [HardStop(id)];
    app.FireStopTimer(|p|);
    assert app.pending == p + [Ended(id)];
    app.FireEnded(|p|);
    assert app.pending == p;
  }

  /** A sweep from silence, then one click on the play button, the
      hard-stop timer and the ended event: the graph is gone and only the
      sweep's timer is left behind. */
  method SweepThenTearDown(app: ToneApp)
    requires app.Valid() && app.oscillator.None?
    modifies app
    ensures app.Valid() && app.oscillator.None? && app.nextGraphId == old(app.nextGraphId) + 1
    ensures app.pending == old(app.pending) + [SweepEnd]
  {
    var p := app.pending;
    app.RunSweep(MIN_FREQUENCY);
    assert app.pending == p + [SweepEnd];
    StopThenTearDown(app);
  }

  /** The stale-timer race: two hard-stop timers capture graph 0; the first
      tears it down, a click builds graph 1, then the leftover timer fires,
      finds graph 1 live and leaves it playing. */
  method StaleStopTimerScenario() returns (live: Option<nat>, stopped: bool, leftOver: nat)
    ensures live == Some(1) && !stopped && leftOver == 0
  {
    var app := new ToneApp(440.0, 50.0, "sine");
    app.OnToggleClick();  // start: graph 0
    StopTwiceThenTearDown(app);
    assert app.pending == [HardStop(0)];
    app.OnToggleClick();  // start: graph 1
    app.FireStopTimer(0);
    live, stopped, leftOver := app.oscillator, app.oscillatorStopped, |app.pending|;
  }

  /** The unguarded sweep timer: a sweep runs, the tone is stopped and torn
      down, and a second sweep starts before the first sweep's timer fires.
      That timer then clears the flag of the second sweep, which is still
      running, while the second sweep's own timer is still pending. */
  method StaleSweepTimerScenario() returns (playing: bool, sweeping: bool, sweepTimers: nat)
    ensures playing && !sweeping && sweepTimers == 1
  {
    var app := new ToneApp(440.0, 50.0, "sine");
    SweepThenTearDown(app);  // graph 0, first sweep
    assert app.pending == [SweepEnd];
    app.RunSweep(MIN_FREQUENCY);  // graph 1, second sweep
    assert app.pending == [SweepEnd, SweepEnd] && app.sweepActive;
    app.FireSweepTimer(0);
    playing, sweeping, sweepTimers := app.IsPlaying(), app.sweepActive, |app.pending|;
  }
}
