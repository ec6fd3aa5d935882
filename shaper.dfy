/** WaveShaper: table lookup with linear interpolation, and the per-curve
    output stage InstanceProcess applies after it. */
module Shaper {
  import opened Numerics
  import opened Geometry
  import opened Params

  /** index = floor(sample*STEPS) + STEPS, then wxMin with 2*STEPS-1 and wxMax with 0. */
  function ShaperIndex(x: real): (index: int)
    ensures 0 <= index <= 2 * STEPS - 1
  {
    var raw := (x * STEPS as real).Floor + STEPS;
    var capped := if raw < 2 * STEPS - 1 then raw else 2 * STEPS - 1;
    if capped > 0 then capped else 0
  }

  /** xOffset = (1 + sample)*STEPS - index, then wxMax with 0 and wxMin with 1. */
  function ShaperOffset(x: real, index: int): (offset: real)
    ensures 0.0 <= offset <= 1.0
  {
    var raw := ((1.0 + x) * STEPS as real) - index as real;
    var floored := if raw > 0.0 then raw else 0.0;
    if floored < 1.0 then floored else 1.0
  }

  /** y = y0 + (y1 - y0)*(x - x0) between the two entries around x. */
  function Interpolate(t: seq<real>, x: real): real
    requires |t| == TABLESIZE
  {
    var index := ShaperIndex(x);
    t[index] + (t[index + 1] - t[index]) * ShaperOffset(x, index)
  }

  lemma ScaleBetween(a: real, b: real, o: real)
    requires 0.0 <= o <= 1.0
    ensures a <= b ==> a <= a + (b - a) * o <= b
    ensures b <= a ==> b <= a + (b - a) * o <= a
  {
    var d := b - a;
    var p := d * o;
    assert d * (1.0 - o) == d - p;
    if a <= b {
      MulNonNegative(d, o);
      MulNonNegative(d, 1.0 - o);
    } else {
      MulNonNegative(-d, o);
      MulNonNegative(-d, 1.0 - o);
      assert (-d) * o == -p;
      assert (-d) * (1.0 - o) == -(d - p);
    }
  }

  /** The lookup never leaves the table, and its result lies between the
      two neighbouring entries it interpolates. */
  lemma InterpolateBetween(t: seq<real>, x: real)
    requires |t| == TABLESIZE
    ensures var i := ShaperIndex(x);
      0 <= i && i + 1 < TABLESIZE &&
      ((t[i] <= t[i + 1] && t[i] <= Interpolate(t, x) <= t[i + 1]) ||
       (t[i + 1] <= t[i] && t[i + 1] <= Interpolate(t, x) <= t[i]))
  {
    var i := ShaperIndex(x);
    ScaleBetween(t[i], t[i + 1], ShaperOffset(x, i));
  }

  /** Interpolation is exact at the knots: input Level(k) returns entry k,
      including the last knot, input 1, which returns entry 2*STEPS. */
  lemma InterpolateAtKnot(t: seq<real>, k: int)
    requires |t| == TABLESIZE && 0 <= k <= 2 * STEPS
    ensures Interpolate(t, Level(k)) == t[k]
  {
    var x := Level(k);
    assert x * STEPS as real == (k - STEPS) as real;
    assert (x * STEPS as real).Floor == k - STEPS;
    assert (1.0 + x) * STEPS as real == k as real;
  }

  /** Out-of-range input is flattened to the table's end entries. */
  lemma InterpolateSaturates(t: seq<real>, x: real)
    requires |t| == TABLESIZE
    ensures 1.0 <= x ==> Interpolate(t, x) == t[2 * STEPS]
    ensures x <= -1.0 ==> Interpolate(t, x) == t[0]
  {
    if 1.0 <= x {
      assert (1.0 * STEPS as real).Floor <= (x * STEPS as real).Floor;
    } else if x <= -1.0 {
      assert (x * STEPS as real).Floor <= (-1.0 * STEPS as real).Floor;
    }
  }

  /** Through the identity table the shaper is the identity on [-1, 1]. */
  lemma InterpolateRamp(x: real)
    requires -1.0 <= x <= 1.0
    ensures Interpolate(Ramp(), x) == x
  {
    var t := Ramp();
    var i := ShaperIndex(x);
    var f := (x * STEPS as real).Floor;
    assert f as real <= x * STEPS as real < f as real + 1.0;
    assert (-1.0 * STEPS as real).Floor <= f <= (1.0 * STEPS as real).Floor;
    var o := ShaperOffset(x, i);
    assert o == ((1.0 + x) * STEPS as real) - i as real;
    assert t[i + 1] - t[i] == 1.0 / STEPS as real;
    assert (1.0 / STEPS as real) * o == o / STEPS as real;
  }

  /** Only HardClip scales its input, by 1 + param1/100, before the lookup. */
  function PreGain(p: Params, sample: real): (x: real)
    ensures p.tableChoice != HardClip ==> x == sample
    ensures p.tableChoice == HardClip && 0.0 <= p.param1 && 0.0 <= sample ==> sample <= x
    ensures p.tableChoice == HardClip && 0.0 <= p.param1 && sample <= 0.0 ==> x <= sample
  {
    if p.tableChoice == HardClip then sample * (1.0 + p.param1 / 100.0) else sample
  }

  /** WaveShaper(sample) over table t. */
  function WaveShape(p: Params, t: seq<real>, sample: real): real
    requires |t| == TABLESIZE
  {
    Interpolate(t, PreGain(p, sample))
  }

  /** The output stage of InstanceProcess for one sample: shaped is the
      WaveShaper result, input the dry sample. */
  function Mix(p: Params, shaped: real, input: real, makeupGain: real): (out: real)
    ensures shaped == 0.0 && input == 0.0 ==> out == 0.0
  {
    var p1 := p.param1 / 100.0;
    var p2 := p.param2 / 100.0;
    match p.tableChoice
    case HardClip => shaped * ((1.0 - p2) + (makeupGain * p2))
    case SoftClip => shaped * ((1.0 - p2) + (makeupGain * p2))
    case HalfSinCurve => shaped * p2
    case ExpCurve => shaped * p2
    case LogCurve => shaped * p2
    case Cubic => shaped * p2
    case EvenHarmonics => shaped
    case SinCurve => shaped * p2
    case Leveller => shaped
    case Rectifier => shaped
    case HardLimiter => (shaped * (p1 - p2)) + (input * p2)
  }

  /** What param2 means per curve: for the clipping curves it blends from the
      raw clipped signal (0) to full makeup gain (100); for the overdrive
      curves, Cubic and Sine it is the output level; the HardLimiter is a
      wet/residual mix that leaves only the dry signal when param1 == param2;
      EvenHarmonics, Leveller and Rectifier pass the shaped sample through. */
  lemma MixEndpoints(p: Params, shaped: real, input: real, makeupGain: real)
    ensures p.tableChoice in {HardClip, SoftClip} && p.param2 == 0.0 ==> Mix(p, shaped, input, makeupGain) == shaped
    ensures p.tableChoice in {HardClip, SoftClip} && p.param2 == 100.0 ==>
      Mix(p, shaped, input, makeupGain) == shaped * makeupGain
    ensures p.tableChoice in {HalfSinCurve, ExpCurve, LogCurve, Cubic, SinCurve} ==>
      (p.param2 == 0.0 ==> Mix(p, shaped, input, makeupGain) == 0.0) &&
      (p.param2 == 100.0 ==> Mix(p, shaped, input, makeupGain) == shaped)
    ensures p.tableChoice in {EvenHarmonics, Leveller, Rectifier} ==> Mix(p, shaped, input, makeupGain) == shaped
    ensures p.tableChoice == HardLimiter && p.param1 == p.param2 ==>
      Mix(p, shaped, input, makeupGain) == input * (p.param2 / 100.0)
    ensures p.tableChoice == HardLimiter && p.param2 == 0.0 ==>
      Mix(p, shaped, input, makeupGain) == shaped * (p.param1 / 100.0)
  {
  }
}
