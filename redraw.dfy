/** The redraw rate limit of the animation-frame loop, as functions of a run
    of frame timestamps; ToneGenerator.ToneApp.FireFrames shows that the
    object's own frames follow them. */
module Redraw {

  /** Minimum spacing of accepted frames, in milliseconds (about 60 per second). */
  const FRAME_INTERVAL: real := 16.0

  /** A frame at `timestamp` is drawn when at least FRAME_INTERVAL has passed
      since the last drawn one. */
  predicate DueForRedraw(lastDraw: real, timestamp: real) {
    timestamp - lastDraw >= FRAME_INTERVAL
  }

  /** The timestamps the limiter accepts from a run of frame callbacks, in
      order, starting from `lastDraw`. */
  function AcceptedFrames(lastDraw: real, stamps: seq<real>): (r: seq<real>)
    ensures |r| <= |stamps|
    ensures forall i :: 0 <= i < |r| ==> r[i] in stamps
    decreases |stamps|
  {
    if stamps == [] then []
    else if DueForRedraw(lastDraw, stamps[0]) then [stamps[0]] + AcceptedFrames(stamps[0], stamps[1..])
    else AcceptedFrames(lastDraw, stamps[1..])
  }

  /** The last timestamp drawn after the run. */
  function LastDrawAfter(lastDraw: real, stamps: seq<real>): real
    decreases |stamps|
  {
    if stamps == [] then lastDraw
    else LastDrawAfter(if DueForRedraw(lastDraw, stamps[0]) then stamps[0] else lastDraw, stamps[1..])
  }

  /** Consecutive accepted frames are at least FRAME_INTERVAL apart, the first
      at least FRAME_INTERVAL after the starting `lastDraw`, and `lastDraw`
      ends at the last accepted frame. */
  lemma {:induction false} AcceptedFramesSpaced(lastDraw: real, stamps: seq<real>)
    ensures var r := AcceptedFrames(lastDraw, stamps);
      && (|r| > 0 ==> r[0] - lastDraw >= FRAME_INTERVAL)
      && (forall i :: 0 < i < |r| ==> r[i] - r[i - 1] >= FRAME_INTERVAL)
      && LastDrawAfter(lastDraw, stamps) == (if r == [] then lastDraw else r[|r| - 1])
    decreases |stamps|
  {
    if stamps != [] {
      var next := if DueForRedraw(lastDraw, stamps[0]) then stamps[0] else lastDraw;
      AcceptedFramesSpaced(next, stamps[1..]);
    }
  }
}
