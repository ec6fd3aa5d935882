/** The contents of mTable after each table builder, as functions of the
    parameters. The class EffectDistortion fills the table in place and is
    proved to produce exactly these sequences. */
module Curves {
  import opened Numerics
  import opened Params
  import opened Geometry
  import Levels

  function Min(a: real, b: real): real { if a < b then a else b }
  function Max(a: real, b: real): real { if a > b then a else b }

  // ---------------------------------------------------------------- HardClip

  /** Entry n of the hard-clip table for linear threshold th. */
  function HardClipEntry(th: real, n: int): real
  {
    if (n as real) < STEPS as real * (1.0 - th) then -th
    else if (n as real) > STEPS as real * (1.0 + th) then th
    else Level(n)
  }

  function HardClipCurve(th: real): (t: seq<real>)
    ensures |t| == TABLESIZE
  {
    seq(TABLESIZE, n => HardClipEntry(th, n))
  }

  /** Below STEPS*(1-th) the table holds -th, above STEPS*(1+th) it holds th,
      in between it is the identity ramp; so every entry lies in [-th, th]. */
  lemma HardClipShape(th: real, n: int)
    requires 0.0 < th <= 1.0 && 0 <= n < TABLESIZE
    ensures (n as real) < STEPS as real * (1.0 - th) ==> HardClipCurve(th)[n] == -th
    ensures (n as real) > STEPS as real * (1.0 + th) ==> HardClipCurve(th)[n] == th
    ensures STEPS as real * (1.0 - th) <= (n as real) <= STEPS as real * (1.0 + th) ==>
      HardClipCurve(th)[n] == Level(n)
    ensures -th <= HardClipCurve(th)[n] <= th
  {
  }

  // ---------------------------------------------------------------- SoftClip

  /** LogCurve: threshold + (exp(ratio*(threshold - value)) - 1) / -ratio.
      At value == threshold it returns the threshold, so the roll-off joins
      the identity part of the soft-clip table without a step. */
  function LogCurve(m: Libm, threshold: real, value: real, ratio: real): (y: real)
    requires ratio != 0.0
    ensures m.exp(0.0) == 1.0 && value == threshold ==> y == threshold
  {
    assert value == threshold ==> ratio * (threshold - value) == 0.0;
    threshold + ((m.exp(ratio * (threshold - value)) - 1.0) / -ratio)
  }

  /** 2^(7*param1/100): the roll-off steepness, 1 to 128. */
  function SoftClipAmount(m: Libm, param1: real): (amount: real)
    requires m.Sound()
    ensures 0.0 < amount
  {
    m.pow(2.0, 7.0 * param1 / 100.0)
  }

  /** The curve's value at input 1. It never falls below the threshold,
      so the makeup gain 1/peak is defined and at most 1/th. */
  function SoftClipPeak(m: Libm, th: real, param1: real): (peak: real)
    requires m.Sound()
    ensures 0.0 < th <= 1.0 ==> th <= peak
  {
    var r := SoftClipAmount(m, param1);
    var e := m.exp(r * (th - 1.0));
    assert 0.0 < th <= 1.0 ==> r * (th - 1.0) <= 0.0 && e <= 1.0;
    assert (e - 1.0) / -r == (1.0 - e) / r;
    LogCurve(m, th, 1.0, r)
  }

  function SoftClipEntry(m: Libm, th: real, param1: real, n: int): real
    requires m.Sound()
  {
    if (n as real) < STEPS as real * (1.0 + th) then Level(n)
    else LogCurve(m, th, Level(n), SoftClipAmount(m, param1))
  }

  /** Positive half: the identity up to the threshold, then the roll-off. */
  function SoftClipHalf(m: Libm, th: real, param1: real): (pos: seq<real>)
    requires m.Sound()
    ensures |pos| == STEPS + 1
  {
    seq(STEPS + 1, k => SoftClipEntry(m, th, param1, STEPS + k))
  }

  // ------------------------------------------------------------- Exponential

  /** min(0.999, DB_TO_LINEAR(-param1)): kept below 1 to avoid 1/0. */
  function ExpAmount(m: Libm, param1: real): (amount: real)
    requires m.Sound()
    ensures 0.0 < amount <= 0.999
  {
    Min(0.999, m.DbToLinear(-1.0 * param1))
  }

  /** The entry for input level linVal - 1: scale * (amount^(linVal-1) - 1),
      with scale = -1/(1 - amount) giving unity gain at 0 dB. */
  function ExpEntry(m: Libm, amount: real, linVal: real): real
    requires 0.0 < amount <= 0.999
  {
    var scale := -1.0 / (1.0 - amount);
    var curve := m.exp((linVal - 1.0) * m.log(amount));
    scale * (curve - 1.0)
  }

  function ExpHalf(m: Libm, param1: real): (pos: seq<real>)
    requires m.Sound()
    ensures |pos| == STEPS + 1
  {
    var amount := ExpAmount(m, param1);
    seq(STEPS + 1, k => ExpEntry(m, amount, (STEPS + k) as real / STEPS as real))
  }

  // ------------------------------------------------------------- Logarithmic

  function LogEntry(m: Libm, amount: real, linVal: real): real
    requires m.Sound() && 0.0 <= amount
  {
    if amount == 0.0 then linVal else LogRatio(m, amount, linVal)
  }

  /** log(1 + amount * linVal) / log(1 + amount): the curve for amount > 0. */
  function LogRatio(m: Libm, amount: real, linVal: real): real
    requires m.Sound() && 0.0 < amount
  {
    m.log(1.0 + (amount * linVal)) / m.log(1.0 + amount)
  }

  function LogHalf(m: Libm, param1: real): (pos: seq<real>)
    requires m.Sound() && 0.0 <= param1
    ensures |pos| == STEPS + 1
  {
    seq(STEPS + 1, k => LogEntry(m, param1, k as real / STEPS as real))
  }

  /** With amount 0 the positive half is the straight line from 0 to 1 and
      the whole table is the identity ramp: no log(1) denominator is met. */
  lemma LogZeroIsRamp(m: Libm)
    requires m.Sound()
    ensures forall k :: 0 <= k <= STEPS ==> LogHalf(m, 0.0)[k] == k as real / STEPS as real
    ensures Symmetric(LogHalf(m, 0.0)) == Ramp()
  {
    SymmetricRamp(LogHalf(m, 0.0));
  }

  // ----------------------------------------------------- HalfSin and Sine

  /** floor(param1/20): whole iterations of the saturating map. */
  function Iterations(param1: real): int
  {
    (param1 / 20.0).Floor
  }

  /** param1/20 - iterations: weight of one more, blended, iteration. */
  function Fraction(param1: real): real
  {
    param1 / 20.0 - Iterations(param1) as real
  }

  lemma IterationsRange(param1: real)
    requires 0.0 <= param1 <= 100.0
    ensures 0 <= Iterations(param1) <= 5
    ensures 0.0 <= Fraction(param1) < 1.0
  {
  }

  /** sin(x*pi/2). */
  function HalfSinStep(m: Libm, x: real): real
  {
    m.sin(x * PI_2)
  }

  function HalfSinIterate(m: Libm, x: real, k: nat): real
  {
    if k == 0 then x else HalfSinStep(m, HalfSinIterate(m, x, k - 1))
  }

  /** t moved a fraction frac of the way towards one more iteration. */
  function HalfSinBlend(m: Libm, t: real, frac: real): real
  {
    t + ((HalfSinStep(m, t) - t) * frac)
  }

  /** iter whole iterations from linVal, then a fraction frac of one more. */
  function HalfSinEntry(m: Libm, iter: nat, frac: real, linVal: real): real
  {
    HalfSinBlend(m, HalfSinIterate(m, linVal, iter), frac)
  }

  function HalfSinHalf(m: Libm, param1: real): (pos: seq<real>)
    requires 0.0 <= param1
    ensures |pos| == STEPS + 1
  {
    seq(STEPS + 1, k => HalfSinEntry(m, Iterations(param1), Fraction(param1), k as real / STEPS as real))
  }

  lemma HalfSinHalfAt(m: Libm, param1: real, k: nat)
    requires 0.0 <= param1 && k <= STEPS
    ensures HalfSinHalf(m, param1)[k] == HalfSinEntry(m, Iterations(param1), Fraction(param1), k as real / STEPS as real)
  {
  }

  /** (1 + sin(x*pi - pi/2)) / 2. */
  function SineStep(m: Libm, x: real): real
  {
    (1.0 + m.sin((x * PI) - PI_2)) / 2.0
  }

  function SineIterate(m: Libm, x: real, k: nat): real
  {
    if k == 0 then x else SineStep(m, SineIterate(m, x, k - 1))
  }

  function SineBlend(m: Libm, t: real, frac: real): real
  {
    t + ((SineStep(m, t) - t) * frac)
  }

  function SineEntry(m: Libm, iter: nat, frac: real, linVal: real): real
  {
    SineBlend(m, SineIterate(m, linVal, iter), frac)
  }

  function SineHalf(m: Libm, param1: real): (pos: seq<real>)
    requires 0.0 <= param1
    ensures |pos| == STEPS + 1
  {
    seq(STEPS + 1, k => SineEntry(m, Iterations(param1), Fraction(param1), k as real / STEPS as real))
  }

  lemma SineHalfAt(m: Libm, param1: real, k: nat)
    requires 0.0 <= param1 && k <= STEPS
    ensures SineHalf(m, param1)[k] == SineEntry(m, Iterations(param1), Fraction(param1), k as real / STEPS as real)
  {
  }


  lemma {:induction false} HalfSinFixesZero(m: Libm, k: nat)
    requires m.Sound()
    ensures HalfSinIterate(m, 0.0, k) == 0.0
  {
    if k > 0 {
      HalfSinFixesZero(m, k - 1);
    }
  }

  lemma {:induction false} SineFixesZero(m: Libm, k: nat)
    requires m.Sound()
    ensures SineIterate(m, 0.0, k) == 0.0
  {
    if k > 0 {
      SineFixesZero(m, k - 1);
    }
  }

  // ------------------------------------------------------------------- Cubic

  /** param1 * sqrt(3) / 100. */
  function CubicAmount(param1: real): real
  {
    param1 * SQRT3 / 100.0
  }

  /** The effect's Cubic(x): x - x^3/3, or x itself when param1 is 0. */
  function Cubic(param1: real, x: real): (y: real)
    ensures x == 0.0 ==> y == 0.0
  {
    if param1 == 0.0 then x else x - ((x * x * x) / 3.0)
  }

  lemma CubicPositive(param1: real, y: real)
    requires 0.0 < y <= 1.0
    ensures 0.0 < Cubic(param1, y)
  {
    MulMono(y, y, 1.0);
    MulMono(y * y, y, 1.0);
  }

  /** 1 / Cubic(min(amount, 1)): normalises the curve so that input 1 maps near 1. */
  function CubicGain(param1: real): (gain: real)
    requires 0.0 <= param1
  {
    var amount := CubicAmount(param1);
    if amount != 0.0 then
      CubicPositive(param1, Min(amount, 1.0));
      1.0 / Cubic(param1, Min(amount, 1.0))
    else 1.0
  }

  /** amount / STEPS: the spacing of the x values. */
  function CubicStep(param1: real): real
  {
    CubicAmount(param1) / STEPS as real
  }

  /** The x of entry i: -amount, advanced by stepsize per entry. */
  function CubicX(amount: real, stepsize: real, i: int): real
  {
    -amount + (i as real * stepsize)
  }

  /** Consecutive x values are one step apart. */
  lemma CubicXStep(amount: real, stepsize: real, i: int)
    ensures CubicX(amount, stepsize, i + 1) == CubicX(amount, stepsize, i) + stepsize
  {
    assert (i + 1) as real * stepsize == i as real * stepsize + stepsize;
  }

  /** gain * Cubic(x): the normalised cubic. */
  function CubicShape(param1: real, gain: real, x: real): real
  {
    gain * Cubic(param1, x)
  }

  /** One reinforcement pass: v := gain * Cubic(v * amount). */
  function CubicPass(param1: real, gain: real, amount: real, v: real): real
  {
    CubicShape(param1, gain, v * amount)
  }

  /** j reinforcement passes. */
  function CubicRepeat(param1: real, gain: real, amount: real, v: real, j: nat): real
  {
    if j == 0 then v
    else CubicPass(param1, gain, amount, CubicRepeat(param1, gain, amount, v, j - 1))
  }

  function CubicEntry(param1: real, repeats: nat, i: int): real
    requires 0.0 <= param1
  {
    var amount := CubicAmount(param1);
    var gain := CubicGain(param1);
    if amount == 0.0 then Level(i)
    else CubicRepeat(param1, gain, amount, CubicShape(param1, gain, CubicX(amount, CubicStep(param1), i)), repeats)
  }

  function CubicCurve(param1: real, repeats: nat): (t: seq<real>)
    requires 0.0 <= param1
    ensures |t| == TABLESIZE
  {
    seq(TABLESIZE, i => CubicEntry(param1, repeats, i))
  }

  lemma CubicCurveAt(param1: real, repeats: nat, i: nat)
    requires 0.0 <= param1 && i < TABLESIZE
    ensures CubicCurve(param1, repeats)[i] == CubicEntry(param1, repeats, i)
  {
  }

  /** With param1 0 the cubic map is bypassed: Cubic is the identity and
      the table is the identity ramp, whatever the number of repeats. */
  lemma CubicZeroIsIdentity(repeats: nat, x: real)
    ensures Cubic(0.0, x) == x
    ensures CubicCurve(0.0, repeats) == Ramp()
  {
  }

  lemma CubicIsOdd(param1: real, x: real)
    ensures Cubic(param1, -x) == -Cubic(param1, x)
  {
    assert (-x) * (-x) * (-x) == -(x * x * x);
  }

  lemma CubicShapeIsOdd(param1: real, gain: real, x: real)
    ensures CubicShape(param1, gain, -x) == -CubicShape(param1, gain, x)
  {
    CubicIsOdd(param1, x);
  }

  lemma CubicPassIsOdd(param1: real, gain: real, amount: real, v: real)
    ensures CubicPass(param1, gain, amount, -v) == -CubicPass(param1, gain, amount, v)
  {
    assert (-v) * amount == -(v * amount);
    CubicShapeIsOdd(param1, gain, v * amount);
  }

  lemma {:induction false} CubicRepeatIsOdd(param1: real, gain: real, amount: real, v: real, j: nat)
    ensures CubicRepeat(param1, gain, amount, -v, j) == -CubicRepeat(param1, gain, amount, v, j)
  {
    if j > 0 {
      CubicRepeatIsOdd(param1, gain, amount, v, j - 1);
      CubicPassIsOdd(param1, gain, amount, CubicRepeat(param1, gain, amount, v, j - 1));
    }
  }

  lemma CubicEntryUnfold(param1: real, repeats: nat, k: int)
    requires 0.0 <= param1 && CubicAmount(param1) != 0.0
    ensures CubicEntry(param1, repeats, k)
         == CubicRepeat(param1, CubicGain(param1), CubicAmount(param1),
              CubicShape(param1, CubicGain(param1), CubicX(CubicAmount(param1), CubicStep(param1), k)),
              repeats)
  {
  }

  /** The x grid is symmetric about the origin: entries n and 2*STEPS-n
      sit at opposite x. */
  lemma CubicXMirror(amount: real, n: int)
    ensures CubicX(amount, amount / STEPS as real, n)
         == -CubicX(amount, amount / STEPS as real, 2 * STEPS - n)
  {
    var d := amount / STEPS as real;
    assert STEPS as real * d == amount;
    assert (2 * STEPS - n) as real * d == 2.0 * (STEPS as real * d) - n as real * d;
  }

  lemma CubicEntryIsOdd(param1: real, repeats: nat, n: int)
    requires 0.0 <= param1
    ensures CubicEntry(param1, repeats, n) == -CubicEntry(param1, repeats, 2 * STEPS - n)
  {
    var k := 2 * STEPS - n;
    var a := CubicAmount(param1);
    if a != 0.0 {
      var g := CubicGain(param1);
      var d := CubicStep(param1);
      CubicEntryUnfold(param1, repeats, k);
      CubicEntryUnfold(param1, repeats, n);
      var xk := CubicX(a, d, k);
      CubicXMirror(a, n);
      CubicShapeIsOdd(param1, g, xk);
      CubicRepeatIsOdd(param1, g, a, CubicShape(param1, g, xk), repeats);
    }
  }

  /** Entries STEPS-k and STEPS+k of the cubic table are negations of each other. */
  lemma CubicCurveIsOdd(param1: real, repeats: nat)
    requires 0.0 <= param1
    ensures IsOdd(CubicCurve(param1, repeats))
  {
    var t := CubicCurve(param1, repeats);
    forall n | 0 <= n <= STEPS
      ensures t[n] == -t[2 * STEPS - n]
    {
      CubicEntryIsOdd(param1, repeats, n);
    }
  }

  // ----------------------------------------------------------- EvenHarmonics

  /** ((1 + amount) * x) - (x * (amount / tanh(c)) * tanh(c * x)). */
  function EvenHarmonicEntry(m: Libm, amount: real, c: real, x: real): real
    requires m.Sound() && 0.0 < c
  {
    ((1.0 + amount) * x) - (x * (amount / m.tanh(c)) * m.tanh(c * x))
  }

  function EvenHarmonicCurve(m: Libm, param1: real, param2: real): (t: seq<real>)
    requires m.Sound()
    ensures |t| == TABLESIZE
  {
    seq(TABLESIZE, i => EvenHarmonicEntry(m, param1 / -100.0, Max(0.001, param2) / 10.0, Level(i)))
  }
  lemma EvenHarmonicCurveAt(m: Libm, param1: real, param2: real, i: nat)
    requires m.Sound() && i < TABLESIZE
    ensures EvenHarmonicCurve(m, param1, param2)[i]
         == EvenHarmonicEntry(m, param1 / -100.0, Max(0.001, param2) / 10.0, Level(i))
  {
  }


  // --------------------------------------------------------------- Rectifier

  function RectifierEntry(param1: real, i: int): real
  {
    var amount := (param1 / 50.0) - 1.0;
    var stepsize := 1.0 / STEPS as real;
    if i >= STEPS then (i - STEPS) as real * stepsize
    else (STEPS - i) as real * stepsize * amount
  }

  function RectifierCurve(param1: real): (t: seq<real>)
    ensures |t| == TABLESIZE
  {
    seq(TABLESIZE, i => RectifierEntry(param1, i))
  }

  /** The positive half passes unaltered; the negative half is scaled by
      param1/50 - 1. param1 = 0 gives the identity, 50 silences the negative
      half (half-wave), 100 gives |x| (full-wave). */
  lemma RectifierShape(param1: real)
    ensures forall i :: STEPS <= i < TABLESIZE ==> RectifierCurve(param1)[i] == (i - STEPS) as real / STEPS as real
    ensures forall n :: 0 <= n < STEPS ==>
      RectifierCurve(param1)[n] == (STEPS - n) as real / STEPS as real * (param1 / 50.0 - 1.0)
    ensures param1 == 0.0 ==> RectifierCurve(param1) == Ramp()
    ensures param1 == 50.0 ==> forall n :: 0 <= n <= STEPS ==> RectifierCurve(param1)[n] == 0.0
    ensures param1 == 100.0 ==> forall n :: 0 <= n < TABLESIZE ==>
      RectifierCurve(param1)[n] == (if Level(n) < 0.0 then -Level(n) else Level(n))
  {
  }

  // ----------------------------------------------------------------- MakeTable

  /** The table MakeTable leaves behind, by curve type. */
  function TableFor(m: Libm, p: Params, th: real): (t: seq<real>)
    requires m.Sound() && p.Valid()
    ensures |t| == TABLESIZE
  {
    match p.tableChoice
    case HardClip => HardClipCurve(th)
    case SoftClip => Symmetric(SoftClipHalf(m, th, p.param1))
    case HalfSinCurve => Symmetric(HalfSinHalf(m, p.param1))
    case ExpCurve => Symmetric(ExpHalf(m, p.param1))
    case LogCurve => Symmetric(LogHalf(m, p.param1))
    case Cubic => CubicCurve(p.param1, p.repeats)
    case EvenHarmonics => EvenHarmonicCurve(m, p.param1, p.param2)
    case SinCurve => Symmetric(SineHalf(m, p.param1))
    case Leveller =>
      Symmetric(Levels.LevellerHalf(m.DbToLinear(p.noiseFloor), p.repeats, p.param1 / 100.0))
    case Rectifier => RectifierCurve(p.param1)
    case HardLimiter => HardClipCurve(th)
  }

  /** mMakeupGain after MakeTable: set by the clipping curves, kept otherwise. */
  function GainFor(m: Libm, p: Params, th: real, gain: real): real
    requires m.Sound() && 0.0 < th <= 1.0
  {
    match p.tableChoice
    case HardClip => 1.0 / th
    case HardLimiter => 1.0 / th
    case SoftClip => 1.0 / SoftClipPeak(m, th, p.param1)
    case _ => gain
  }

  /** The makeup gain of the clipping curves restores unity at the clip
      level and is positive; for HardClip and HardLimiter it is exactly
      1/th, so never below 1. */
  lemma MakeupGainRestoresUnity(m: Libm, p: Params, th: real, gain: real)
    requires m.Sound() && 0.0 < th <= 1.0
    requires p.tableChoice in {HardClip, HardLimiter, SoftClip}
    ensures p.tableChoice != SoftClip ==> GainFor(m, p, th, gain) * th == 1.0
    ensures p.tableChoice == SoftClip ==> GainFor(m, p, th, gain) * SoftClipPeak(m, th, p.param1) == 1.0
    ensures 0.0 < GainFor(m, p, th, gain)
    ensures p.tableChoice != SoftClip ==> 1.0 <= GainFor(m, p, th, gain)
  {
  }

  /** Rebuilding twice from the same parameters gives the same makeup gain. */
  lemma GainForIdempotent(m: Libm, p: Params, th: real, gain: real)
    requires m.Sound() && 0.0 < th <= 1.0
    ensures GainFor(m, p, th, GainFor(m, p, th, gain)) == GainFor(m, p, th, gain)
  {
  }

  lemma SoftClipStartsAtZero(m: Libm, th: real, param1: real)
    requires m.Sound() && 0.0 < th
    ensures SoftClipHalf(m, th, param1)[0] == 0.0
  {
    assert SoftClipHalf(m, th, param1)[0] == SoftClipEntry(m, th, param1, STEPS);
    assert (STEPS as real) < STEPS as real * (1.0 + th);
  }

  lemma ExpStartsAtZero(m: Libm, param1: real)
    requires m.Sound()
    ensures ExpHalf(m, param1)[0] == 0.0
  {
    var amount := ExpAmount(m, param1);
    assert ExpHalf(m, param1)[0] == ExpEntry(m, amount, 1.0);
    assert (1.0 - 1.0) * m.log(amount) == 0.0;
  }

  lemma HalfSinStartsAtZero(m: Libm, param1: real)
    requires m.Sound() && 0.0 <= param1
    ensures HalfSinHalf(m, param1)[0] == 0.0
  {
    HalfSinFixesZero(m, Iterations(param1));
    assert HalfSinHalf(m, param1)[0] == HalfSinEntry(m, Iterations(param1), Fraction(param1), 0.0);
    assert HalfSinStep(m, 0.0) == 0.0;
  }

  lemma SineStartsAtZero(m: Libm, param1: real)
    requires m.Sound() && 0.0 <= param1
    ensures SineHalf(m, param1)[0] == 0.0
  {
    SineFixesZero(m, Iterations(param1));
    assert SineHalf(m, param1)[0] == SineEntry(m, Iterations(param1), Fraction(param1), 0.0);
    assert SineStep(m, 0.0) == 0.0;
  }

  /** Every curve maps the origin to silence: entry STEPS is 0. */
  lemma OriginIsSilent(m: Libm, p: Params, th: real)
    requires m.Sound() && p.Valid() && 0.0 < th <= 1.0
    ensures TableFor(m, p, th)[STEPS] == 0.0
  {
    match p.tableChoice
    case HalfSinCurve => HalfSinStartsAtZero(m, p.param1);
    case SinCurve => SineStartsAtZero(m, p.param1);
    case Leveller =>
      Levels.LevellerKeepsOrigin(m.DbToLinear(p.noiseFloor), p.repeats, p.param1 / 100.0);
    case Cubic =>
      CubicCurveIsOdd(p.param1, p.repeats);
    case HardClip =>
    case HardLimiter =>
    case SoftClip => SoftClipStartsAtZero(m, th, p.param1);
    case ExpCurve => ExpStartsAtZero(m, p.param1);
    case LogCurve =>
    case EvenHarmonics =>
    case Rectifier =>
  }

  /** Every curve except the Rectifier and EvenHarmonics (both asymmetric by
      design) is odd: entry STEPS-k is the negation of entry STEPS+k. */
  lemma SymmetricCurves(m: Libm, p: Params, th: real)
    requires m.Sound() && p.Valid() && 0.0 < th <= 1.0
    requires p.tableChoice !in {Rectifier, EvenHarmonics}
    ensures IsOdd(TableFor(m, p, th))
  {
    OriginIsSilent(m, p, th);
    match p.tableChoice
    case HardClip =>
    case HardLimiter =>
    case Cubic => CubicCurveIsOdd(p.param1, p.repeats);
    case SoftClip => SymmetricIsOdd(SoftClipHalf(m, th, p.param1));
    case HalfSinCurve => SymmetricIsOdd(HalfSinHalf(m, p.param1));
    case ExpCurve => SymmetricIsOdd(ExpHalf(m, p.param1));
    case LogCurve => SymmetricIsOdd(LogHalf(m, p.param1));
    case SinCurve => SymmetricIsOdd(SineHalf(m, p.param1));
    case Leveller =>
      SymmetricIsOdd(Levels.LevellerHalf(m.DbToLinear(p.noiseFloor), p.repeats, p.param1 / 100.0));
  }

  /** HardLimiter builds exactly the HardClip table. */
  lemma HardLimiterIsHardClip(m: Libm, p: Params, th: real)
    requires m.Sound() && p.Valid() && 0.0 < th <= 1.0
    ensures TableFor(m, p.(tableChoice := HardLimiter), th) == TableFor(m, p.(tableChoice := HardClip), th)
    ensures GainFor(m, p.(tableChoice := HardLimiter), th, 0.0) == GainFor(m, p.(tableChoice := HardClip), th, 0.0)
  {
  }

  /** Leveller with no whole passes and a fraction of at most 0.001 is the identity. */
  lemma LevellerZeroIsRamp(m: Libm, p: Params, th: real)
    requires m.Sound() && p.Valid() && 0.0 < th <= 1.0
    requires p.tableChoice == Leveller && p.repeats == 0 && p.param1 / 100.0 <= 0.001
    ensures TableFor(m, p, th) == Ramp()
  {
    var pos := Levels.LevellerHalf(m.DbToLinear(p.noiseFloor), 0, p.param1 / 100.0);
    Levels.LevellerIdentity(m.DbToLinear(p.noiseFloor), p.param1 / 100.0);
    SymmetricRamp(pos);
  }
}
