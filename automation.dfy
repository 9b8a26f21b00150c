/** Automation calls the tone generator issues on an AudioParam (the
    oscillator's frequency, the gain node's gain), recorded as an append-only
    log, and the one piece of the audio engine's timeline rule the app relies
    on: a cancel removes every event scheduled at or after its time. How the
    engine interpolates between events is not modelled, and the surviving
    events are listed in the order they were issued, not sorted by time as
    the engine's timeline keeps them. */
module Automation {

  const MIN_FREQUENCY: real := 20.0
  const MAX_FREQUENCY: real := 200.0
  /** Time constant of every gain change, in seconds. */
  const VOLUME_RAMP: real := 0.08
  /** Length of a frequency sweep, in seconds. */
  const SWEEP_DURATION: real := 12.0

  /** One automation call, in the order the app issues them. */
  datatype Event =
    | Cancel(time: real)                                   // cancelScheduledValues(time)
    | SetValue(value: real, time: real)                    // setValueAtTime(value, time)
    | LinearRamp(value: real, time: real)                  // linearRampToValueAtTime(value, time)
    | Target(value: real, time: real, timeConstant: real)  // setTargetAtTime(value, time, tau)

  predicate NoCancel(s: seq<Event>) {
    forall i :: 0 <= i < |s| ==> !s[i].Cancel?
  }

  /** Every value-carrying event lies in [lo, hi]. */
  predicate ValuesWithin(s: seq<Event>, lo: real, hi: real) {
    forall i :: 0 <= i < |s| && !s[i].Cancel? ==> lo <= s[i].value <= hi
  }

  predicate TimesNondecreasing(s: seq<Event>) {
    forall i, j :: 0 <= i < j < |s| ==> s[i].time <= s[j].time
  }

  /** The events of `s` scheduled strictly before `t`, in order. */
  function Before(s: seq<Event>, t: real): (r: seq<Event>)
    ensures |r| <= |s|
    ensures forall i :: 0 <= i < |r| ==> r[i].time < t && r[i] in s
    ensures forall e :: e in s && e.time < t ==> e in r
  {
    if s == [] then []
    else (if s[0].time < t then [s[0]] else []) + Before(s[1..], t)
  }

  /** The events still on the parameter's timeline after the whole log has
      been issued: each Cancel(t) drops everything issued before it whose
      time is t or later. */
  function Surviving(log: seq<Event>): (r: seq<Event>)
    ensures NoCancel(r)
    ensures forall e :: e in r ==> e in log
  {
    if log == [] then []
    else
      var prev := Surviving(log[..|log| - 1]);
      var e := log[|log| - 1];
      if e.Cancel? then Before(prev, e.time) else prev + [e]
  }

  /** Cancel-then-schedule: whatever was issued before a Cancel(t) survives
      only if it lies before t, and the calls issued after the cancel are the
      only automation from t on, so curves never stack. */
  lemma {:induction false} CancelThenSchedule(log: seq<Event>, t: real, tail: seq<Event>)
    requires NoCancel(tail)
    ensures Surviving(log + [Cancel(t)] + tail) == Before(Surviving(log), t) + tail
    decreases |tail|
  {
    var whole := log + [Cancel(t)] + tail;
    if tail == [] {
      assert whole[..|whole| - 1] == log;
    } else {
      var init := tail[..|tail| - 1];
      CancelThenSchedule(log, t, init);
      assert whole[..|whole| - 1] == log + [Cancel(t)] + init;
      assert init + [tail[|tail| - 1]] == tail;
    }
  }

  /** The frequency automation of a sweep that starts at `now`. */
  function SweepSchedule(now: real): (r: seq<Event>)
    ensures |r| == 4 && r[0] == Cancel(now) && NoCancel(r[1..])
    ensures ValuesWithin(r, MIN_FREQUENCY, MAX_FREQUENCY)
    ensures TimesNondecreasing(r)
    ensures r[1] == SetValue(MIN_FREQUENCY, now)
    ensures r[2].value == MAX_FREQUENCY && r[2].time == now + SWEEP_DURATION / 2.0
    ensures r[3].value == MIN_FREQUENCY && r[3].time == now + SWEEP_DURATION
  {
    [ Cancel(now),
      SetValue(MIN_FREQUENCY, now),
      LinearRamp(MAX_FREQUENCY, now + SWEEP_DURATION / 2.0),
      LinearRamp(MIN_FREQUENCY, now + SWEEP_DURATION) ]
  }

  /** After a sweep is issued at `now`, nothing scheduled earlier survives at
      or after `now`: from then on the timeline is exactly the sweep's three
      points, each within [MIN_FREQUENCY, MAX_FREQUENCY]. */
  lemma SweepReplacesPending(log: seq<Event>, now: real)
    ensures var r := Surviving(log + SweepSchedule(now));
      && r == Before(Surviving(log), now) + SweepSchedule(now)[1..]
      && forall e :: e in r && e.time >= now ==>
           e in SweepSchedule(now)[1..] && MIN_FREQUENCY <= e.value <= MAX_FREQUENCY
  {
    var s := SweepSchedule(now);
    assert log + s == log + [Cancel(now)] + s[1..];
    CancelThenSchedule(log, now, s[1..]);
  }

  /** A plain SetValue issued after a sweep cancels none of the sweep's
      points: all of them, the 200 Hz peak included, stay scheduled together
      with the new value (listed in issue order; on the engine's timeline the
      new value sits at its own time among them). */
  lemma SetValueKeepsSweep(log: seq<Event>, t0: real, v: real, now: real)
    ensures var r := Surviving(log + SweepSchedule(t0) + [SetValue(v, now)]);
      && r == Before(Surviving(log), t0) + SweepSchedule(t0)[1..] + [SetValue(v, now)]
      && LinearRamp(MAX_FREQUENCY, t0 + SWEEP_DURATION / 2.0) in r
  {
    var s := SweepSchedule(t0);
    var tail := s[1..] + [SetValue(v, now)];
    assert log + s + [SetValue(v, now)] == log + [Cancel(t0)] + tail;
    CancelThenSchedule(log, t0, tail);
    assert s[2] in tail;
  }
}
