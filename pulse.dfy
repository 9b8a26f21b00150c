/** The loudness proxy behind the pulsing indicator: the mean absolute
    deviation of a time-domain byte snapshot from its centre value 128, and
    the bounded scale factor derived from it. Arithmetic is over exact reals. */
module Pulse {

  /** A time-domain sample as the analyser reports it. */
  type Byte = x: int | 0 <= x < 256

  /** Samples per snapshot: the analyser's fftSize. */
  const FFT_SIZE: nat := 512
  const CENTER: Byte := 128
  const PULSE_GAIN: real := 3.0
  const PULSE_CAP: real := 0.7

  function Abs(x: real): real { if x < 0.0 then -x else x }

  function Min(a: real, b: real): real { if a <= b then a else b }

  /** |v / 128 - 1|: how far one sample lies from silence, as a fraction of
      full scale. */
  function Deviation(v: Byte): (d: real)
    ensures 0.0 <= d <= 1.0
    ensures d == 0.0 <==> v == CENTER
    ensures d == 1.0 <==> v == 0
  {
    Abs(v as real / 128.0 - 1.0)
  }

  /** The running sum of the reduce, folded from the first sample on. */
  function DeviationSum(s: seq<Byte>): (r: real)
    ensures 0.0 <= r <= |s| as real
  {
    if s == [] then 0.0 else DeviationSum(s[..|s| - 1]) + Deviation(s[|s| - 1])
  }

  /** The mean absolute deviation over the snapshot. */
  function AverageDeviation(s: seq<Byte>): (avg: real)
    requires |s| > 0
    ensures 0.0 <= avg <= 1.0
  {
    var n := |s| as real;
    var sum := DeviationSum(s);
    assert sum / n <= 1.0 by {
      assert sum <= n;
    }
    sum / n
  }

  /** 1 + min(3 * avg, 0.7). */
  function PulseScale(avg: real): (p: real)
    ensures p <= 1.0 + PULSE_CAP
    ensures avg >= 0.0 ==> p >= 1.0
    ensures p == 1.0 + PULSE_CAP <==> avg * PULSE_GAIN >= PULSE_CAP
  {
    1.0 + Min(avg * PULSE_GAIN, PULSE_CAP)
  }

  /** The fold is additive over a split of the snapshot, so its order does
      not matter to the result. */
  lemma {:induction false} DeviationSumConcat(a: seq<Byte>, b: seq<Byte>)
    ensures DeviationSum(a + b) == DeviationSum(a) + DeviationSum(b)
    decreases |b|
  {
    if b == [] {
      assert a + b == a;
    } else {
      var init := b[..|b| - 1];
      DeviationSumConcat(a, init);
      assert (a + b)[..|a + b| - 1] == a + init;
    }
  }

  /** The sum is zero exactly when every sample sits at the centre. */
  lemma {:induction false} DeviationSumZero(s: seq<Byte>)
    ensures DeviationSum(s) == 0.0 <==> forall i :: 0 <= i < |s| ==> s[i] == CENTER
    decreases |s|
  {
    if s != [] {
      var init := s[..|s| - 1];
      DeviationSumZero(init);
      assert forall i :: 0 <= i < |init| ==> init[i] == s[i];
    }
  }

  /** The indicator rests at scale 1 exactly on a silent snapshot. */
  lemma SilentSnapshot(s: seq<Byte>)
    requires |s| > 0
    ensures PulseScale(AverageDeviation(s)) == 1.0 <==>
            forall i :: 0 <= i < |s| ==> s[i] == CENTER
  {
    DeviationSumZero(s);
  }

  /** Samples alternating 0, 255, n pairs of them. */
  function Alternating(n: nat): (s: seq<Byte>)
    ensures |s| == 2 * n
    ensures forall i :: 0 <= i < |s| ==> s[i] == if i % 2 == 0 then 0 else 255
  {
    if n == 0 then [] else Alternating(n - 1) + [0, 255]
  }

  lemma {:induction false} AlternatingSum(n: nat)
    ensures DeviationSum(Alternating(n)) == n as real * (255.0 / 128.0)
  {
    if n > 0 {
      AlternatingSum(n - 1);
      DeviationSumConcat(Alternating(n - 1), [0, 255]);
      assert [0, 255][..1] == [0];
    }
  }

  /** A full-scale square wave 0, 255, 0, 255, ... averages 255/256, not 1,
      because 255 lies only 127 above the centre; the pulse is still capped
      at 1.7. */
  lemma AlternatingSnapshot(n: nat)
    requires n > 0
    ensures AverageDeviation(Alternating(n)) == 255.0 / 256.0
    ensures PulseScale(AverageDeviation(Alternating(n))) == 1.0 + PULSE_CAP
  {
    AlternatingSum(n);
    var total := n as real * (255.0 / 128.0);
    var count := |Alternating(n)| as real;
    assert count == 2.0 * n as real;
    assert (255.0 / 256.0) * count == total;
    QuotientOf(total, count, 255.0 / 256.0);
  }

  lemma QuotientOf(a: real, b: real, q: real)
    requires b > 0.0 && q * b == a
    ensures a / b == q
  {
  }
}
