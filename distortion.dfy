/** EffectDistortion and its per-instance state: the table builders that
    fill the shared lookup table in place, the wave shaper that reads it,
    the DC-blocking filter, and the block processing loop. */
module Distortion {
  import opened Numerics
  import opened Params
  import opened Geometry
  import opened Curves
  import opened Shaper
  import opened DCBlock
  import opened Refresh
  import opened Process
  import Levels

  /** EffectDistortionState: the sample rate, the skip counter, the copy of
      the parameters the table was last compared against, and the DC
      filter's running total and queue of recent samples. */
  class DistortionState {
    var samplerate: real
    var skipcount: nat
    var tablechoiceindx: TableType
    var dcblock: bool
    var threshold: real
    var noisefloor: real
    var param1: real
    var param2: real
    var repeats: int
    var queuetotal: real
    var queuesamples: seq<real>

    /** The DC filter's state: its running total and its queue. */
    function Filter(): FilterState
      reads this`queuesamples, this`queuetotal
    {
      FilterState(queuesamples, queuetotal)
    }

    /** The cached parameters, as a Params value. */
    function Cached(): Params
      reads this`tablechoiceindx, this`dcblock, this`threshold, this`noisefloor
      reads this`param1, this`param2, this`repeats
    {
      Params(tablechoiceindx, dcblock, threshold, noisefloor, param1, param2, repeats)
    }

    /** The running total is the sum of the queue, whose length stays
        within the window the sample rate gives. */
    predicate Valid()
      reads this`samplerate, this`queuesamples, this`queuetotal
    {
      Consistent(WindowLength(samplerate), Filter())
    }
  }

  class EffectDistortion {
    var params: Params
    /** mThreshold: the linear threshold the clipping curves use. */
    var threshold: real
    var makeupGain: real
    /** mTable, shared by every instance of the effect. */
    const table: array<real>
    const libm: Libm

    ghost predicate Valid()
      reads this
    {
      table.Length == TABLESIZE && params.Valid() && 0.0 < threshold <= 1.0 && libm.Sound()
    }

    /** The defaults, the threshold converted to linear, unity makeup gain. */
    constructor (m: Libm)
      requires m.Sound()
      ensures Valid() && fresh(table)
      ensures libm == m && params == Defaults()
      ensures threshold == m.DbToLinear(Defaults().thresholdDb) && makeupGain == 1.0
    {
      libm := m;
      params := Defaults();
      threshold := m.DbToLinear(Defaults().thresholdDb);
      makeupGain := 1.0;
      table := new real[TABLESIZE];
    }

    // ------------------------------------------------------------ MakeTable

    /** Rebuilds the table, and for the clipping curves the makeup gain,
        from the current parameters and threshold. */
    method MakeTable()
      requires Valid()
      modifies table, this`makeupGain
      ensures Valid()
      ensures table[..] == TableFor(libm, params, threshold)
      ensures makeupGain == GainFor(libm, params, threshold, old(makeupGain))
    {
      match params.tableChoice {
        case HardClip => HardClip();
        case SoftClip => SoftClip();
        case HalfSinCurve => HalfSinTable();
        case ExpCurve => ExponentialTable();
        case LogCurve => LogarithmicTable();
        case Cubic => CubicTable();
        case EvenHarmonics => EvenHarmonicTable();
        case SinCurve => SineTable();
        case Leveller => Leveller();
        case Rectifier => Rectifier();
        case HardLimiter => HardLimiter();
      }
    }

    method HardClip()
      requires Valid()
      modifies table, this`makeupGain
      ensures Valid()
      ensures table[..] == HardClipCurve(threshold)
      ensures makeupGain == 1.0 / threshold
    {
      var lowThresh := 1.0 - threshold;
      var highThresh := 1.0 + threshold;
      for n := 0 to TABLESIZE
        invariant forall k :: 0 <= k < n ==> table[k] == HardClipEntry(threshold, k)
        invariant 0 < n ==> makeupGain == 1.0 / threshold
      {
        if (n as real) < STEPS as real * lowThresh {
          table[n] := -threshold;
        } else if (n as real) > STEPS as real * highThresh {
          table[n] := threshold;
        } else {
          table[n] := n as real / STEPS as real - 1.0;
        }
        makeupGain := 1.0 / threshold;
      }
      assert table[..] == HardClipCurve(threshold);
    }

    method SoftClip()
      requires Valid()
      modifies table, this`makeupGain
      ensures Valid()
      ensures table[..] == Symmetric(SoftClipHalf(libm, threshold, params.param1))
      ensures makeupGain == 1.0 / SoftClipPeak(libm, threshold, params.param1)
    {
      var edge := 1.0 + threshold;
      var amount := SoftClipAmount(libm, params.param1);
      var peak := Curves.LogCurve(libm, threshold, 1.0, amount);
      assert peak == SoftClipPeak(libm, threshold, params.param1);
      makeupGain := 1.0 / peak;
      table[STEPS] := 0.0;
      for n := STEPS to TABLESIZE
        invariant makeupGain == 1.0 / peak
        invariant forall k :: STEPS <= k < n ==> table[k] == SoftClipEntry(libm, threshold, params.param1, k)
      {
        if (n as real) < STEPS as real * edge {
          table[n] := n as real / STEPS as real - 1.0;
        } else {
          table[n] := Curves.LogCurve(libm, threshold, n as real / STEPS as real - 1.0, amount);
        }
      }
      assert table[STEPS..] == SoftClipHalf(libm, threshold, params.param1);
      CopyHalfTable();
      assert params == old(params);
    }

    method ExponentialTable()
      requires Valid()
      modifies table
      ensures Valid()
      ensures table[..] == Symmetric(ExpHalf(libm, params.param1))
    {
      var amount := ExpAmount(libm, params.param1);
      for n := STEPS to TABLESIZE
        invariant forall k :: STEPS <= k < n ==> table[k] == ExpEntry(libm, amount, k as real / STEPS as real)
      {
        var linVal := n as real / STEPS as real;
        table[n] := ExpEntry(libm, amount, linVal);
      }
      assert table[STEPS..] == ExpHalf(libm, params.param1);
      CopyHalfTable();
      assert params == old(params);
    }

    method LogarithmicTable()
      requires Valid()
      modifies table
      ensures Valid()
      ensures table[..] == Symmetric(LogHalf(libm, params.param1))
    {
      var amount := params.param1;
      var stepsize := 1.0 / STEPS as real;
      var linVal := 0.0;
      if amount == 0.0 {
        for n := STEPS to TABLESIZE
          invariant linVal == (n - STEPS) as real / STEPS as real
          invariant forall k :: STEPS <= k < n ==> table[k] == LogEntry(libm, amount, (k - STEPS) as real / STEPS as real)
        {
          table[n] := linVal;
          linVal := linVal + stepsize;
        }
      } else {
        for n := STEPS to TABLESIZE
          invariant linVal == (n - STEPS) as real / STEPS as real
          invariant forall k :: STEPS <= k < n ==> table[k] == LogEntry(libm, amount, (k - STEPS) as real / STEPS as real)
        {
          table[n] := LogRatio(libm, amount, linVal);
          linVal := linVal + stepsize;
        }
      }
      assert table[STEPS..] == LogHalf(libm, params.param1);
      CopyHalfTable();
      assert params == old(params);
    }

    /** Entry STEPS + k of the half-sine table, from linVal = k / STEPS: the
        curve applied `iter` times, then a fraction `frac` of one more
        application. */
    method HalfSinValue(ghost param1: real, iter: nat, frac: real, ghost k: nat, linVal: real) returns (v: real)
      requires 0.0 <= param1 && iter == Iterations(param1) && frac == Fraction(param1)
      requires k <= STEPS && linVal == k as real / STEPS as real
      ensures v == HalfSinHalf(libm, param1)[k]
    {
      v := linVal;
      for i := 0 to iter
        invariant v == HalfSinIterate(libm, linVal, i)
      {
        v := HalfSinStep(libm, v);
      }
      v := HalfSinBlend(libm, v, frac);
      HalfSinHalfAt(libm, param1, k);
    }

    /** The half-sine loop over the positive half of the table. */
    method HalfSinFill(ghost param1: real, iter: nat, fractionalpart: real)
      requires table.Length == TABLESIZE
      requires 0.0 <= param1 && iter == Iterations(param1) && fractionalpart == Fraction(param1)
      modifies table
      ensures table[STEPS..] == HalfSinHalf(libm, param1)
      ensures table[..STEPS] == old(table[..STEPS])
    {
      var stepsize := 1.0 / STEPS as real;
      var linVal := 0.0;
      ghost var half := HalfSinHalf(libm, param1);
      for n := STEPS to TABLESIZE
        invariant linVal == (n - STEPS) as real / STEPS as real
        invariant forall k :: STEPS <= k < n ==> table[k] == half[k - STEPS]
        invariant forall k :: 0 <= k < STEPS ==> table[k] == old(table[k])
      {
        table[n] := HalfSinValue(param1, iter, fractionalpart, n - STEPS, linVal);
        linVal := linVal + stepsize;
      }
      assert table[STEPS..] == half;
      assert table[..STEPS] == old(table[..STEPS]);
    }

    method HalfSinTable()
      requires Valid()
      modifies table
      ensures Valid()
      ensures table[..] == Symmetric(HalfSinHalf(libm, params.param1))
    {
      IterationsRange(params.param1);
      var iter := (params.param1 / 20.0).Floor;
      var fractionalpart := (params.param1 / 20.0) - iter as real;
      HalfSinFill(params.param1, iter, fractionalpart);
      CopyHalfTable();
      assert params == old(params);
    }

    /** One entry of the cubic table: the scaled cubic at `x`, then
        `repeats` further passes of the scaled cubic. */
    method CubicValue(gain: real, amount: real, x: real) returns (v: real)
      requires Valid()
      ensures v == CubicRepeat(params.param1, gain, amount, CubicShape(params.param1, gain, x), params.repeats)
    {
      v := CubicShape(params.param1, gain, x);
      ghost var start := v;
      for j := 0 to params.repeats
        invariant v == CubicRepeat(params.param1, gain, amount, start, j)
      {
        v := CubicPass(params.param1, gain, amount, v);
      }
    }

    method CubicTable()
      requires Valid()
      modifies table
      ensures Valid()
      ensures table[..] == CubicCurve(params.param1, params.repeats)
    {
      var amount := params.param1 * SQRT3 / 100.0;
      var gain := 1.0;
      if amount != 0.0 {
        CubicPositive(params.param1, Min(amount, 1.0));
        gain := 1.0 / Curves.Cubic(params.param1, Min(amount, 1.0));
      }
      assert amount == CubicAmount(params.param1) && gain == CubicGain(params.param1);
      var stepsize := amount / STEPS as real;
      var x := -amount;
      ghost var curve := CubicCurve(params.param1, params.repeats);
      if amount == 0.0 {
        for i := 0 to TABLESIZE
          invariant forall k :: 0 <= k < i ==> table[k] == curve[k]
        {
          table[i] := (i as real / STEPS as real) - 1.0;
          CubicCurveAt(params.param1, params.repeats, i);
        }
      } else {
        assert stepsize == CubicStep(params.param1);
        for i := 0 to TABLESIZE
          invariant x == CubicX(amount, stepsize, i)
          invariant forall k :: 0 <= k < i ==> table[k] == curve[k]
        {
          table[i] := CubicValue(gain, amount, x);
          CubicEntryUnfold(params.param1, params.repeats, i);
          CubicCurveAt(params.param1, params.repeats, i);
          assert table[i] == curve[i];
          CubicXStep(amount, stepsize, i);
          x := x + stepsize;
        }
      }
      assert table[..] == curve;
      assert params == old(params);
    }

    method EvenHarmonicTable()
      requires Valid()
      modifies table
      ensures Valid()
      ensures table[..] == EvenHarmonicCurve(libm, params.param1, params.param2)
    {
      var amount := params.param1 / -100.0;
      var c := Max(0.001, params.param2) / 10.0;
      EvenHarmonicFill(params.param1, params.param2, amount, c);
      assert params == old(params);
    }

    /** The whole even-harmonic table, entry by entry from x = -1 upwards. */
    method EvenHarmonicFill(ghost param1: real, ghost param2: real, amount: real, c: real)
      requires table.Length == TABLESIZE && libm.Sound()
      requires amount == param1 / -100.0 && c == Max(0.001, param2) / 10.0
      modifies table
      ensures table[..] == EvenHarmonicCurve(libm, param1, param2)
    {
      var step := 1.0 / STEPS as real;
      var xval := -1.0;
      ghost var curve := EvenHarmonicCurve(libm, param1, param2);
      for i := 0 to TABLESIZE
        invariant xval == Level(i)
        invariant forall k :: 0 <= k < i ==> table[k] == curve[k]
      {
        table[i] := EvenHarmonicEntry(libm, amount, c, xval);
        EvenHarmonicCurveAt(libm, param1, param2, i);
        xval := xval + step;
      }
      assert table[..] == curve;
    }

    /** Entry STEPS + k of the sine table, from linVal = k / STEPS: the
        curve applied `iter` times, then a fraction `frac` of one more
        application. */
    method SineValue(ghost param1: real, iter: nat, frac: real, ghost k: nat, linVal: real) returns (v: real)
      requires 0.0 <= param1 && iter == Iterations(param1) && frac == Fraction(param1)
      requires k <= STEPS && linVal == k as real / STEPS as real
      ensures v == SineHalf(libm, param1)[k]
    {
      v := linVal;
      for i := 0 to iter
        invariant v == SineIterate(libm, linVal, i)
      {
        v := SineStep(libm, v);
      }
      v := SineBlend(libm, v, frac);
      SineHalfAt(libm, param1, k);
    }

    /** The sine loop over the positive half of the table. */
    method SineFill(ghost param1: real, iter: nat, fractionalpart: real)
      requires table.Length == TABLESIZE
      requires 0.0 <= param1 && iter == Iterations(param1) && fractionalpart == Fraction(param1)
      modifies table
      ensures table[STEPS..] == SineHalf(libm, param1)
      ensures table[..STEPS] == old(table[..STEPS])
    {
      var stepsize := 1.0 / STEPS as real;
      var linVal := 0.0;
      ghost var half := SineHalf(libm, param1);
      for n := STEPS to TABLESIZE
        invariant linVal == (n - STEPS) as real / STEPS as real
        invariant forall k :: STEPS <= k < n ==> table[k] == half[k - STEPS]
        invariant forall k :: 0 <= k < STEPS ==> table[k] == old(table[k])
      {
        table[n] := SineValue(param1, iter, fractionalpart, n - STEPS, linVal);
        linVal := linVal + stepsize;
      }
      assert table[STEPS..] == half;
      assert table[..STEPS] == old(table[..STEPS]);
    }

    method SineTable()
      requires Valid()
      modifies table
      ensures Valid()
      ensures table[..] == Symmetric(SineHalf(libm, params.param1))
    {
      IterationsRange(params.param1);
      var iter := (params.param1 / 20.0).Floor;
      var fractionalpart := (params.param1 / 20.0) - iter as real;
      SineFill(params.param1, iter, fractionalpart);
      CopyHalfTable();
      assert params == old(params);
    }

    /** Entry STEPS + k of the leveller table, from linVal = k / STEPS:
        `numPasses` whole passes of the piecewise-affine gain map, then a
        fractional pass when `fractionalPass` exceeds 0.001. */
    method LevellerValue(ghost noiseFloor: real, gainLimits: seq<real>, addOnValues: seq<real>,
                         numPasses: nat, fractionalPass: real, ghost k: nat, linVal: real)
      returns (v: real)
      requires gainLimits == Levels.GainLimits(noiseFloor) && addOnValues == Levels.AddOns(gainLimits)
      requires k <= STEPS && linVal == k as real / STEPS as real
      ensures v == Levels.LevellerHalf(noiseFloor, numPasses, fractionalPass)[k]
    {
      v := linVal;
      for i := 0 to numPasses
        invariant v == Levels.LevelPasses(gainLimits, addOnValues, linVal, i)
      {
        var index := Levels.FindSegment(v, gainLimits);
        v := Levels.LevelAt(v, index, addOnValues);
      }
      if fractionalPass > 0.001 {
        var index := Levels.FindSegment(v, gainLimits);
        v := Levels.FractionAt(v, index, addOnValues, fractionalPass);
      }
      Levels.LevellerHalfAt(noiseFloor, numPasses, fractionalPass, k);
    }

    method Leveller()
      requires Valid()
      modifies table
      ensures Valid()
      ensures table[..] == Symmetric(Levels.LevellerHalf(libm.DbToLinear(params.noiseFloor), params.repeats, params.param1 / 100.0))
    {
      var noiseFloor := libm.DbToLinear(params.noiseFloor);
      var numPasses := params.repeats;
      var fractionalPass := params.param1 / 100.0;
      var gainLimits := Levels.GainLimits(noiseFloor);
      var addOnValues := Levels.ComputeAddOns(gainLimits);
      ghost var half := Levels.LevellerHalf(noiseFloor, numPasses, fractionalPass);
      LevellerFill(noiseFloor, gainLimits, addOnValues, numPasses, fractionalPass);
      CopyHalfTable();
      assert params == old(params);
      assert half == Levels.LevellerHalf(libm.DbToLinear(params.noiseFloor), params.repeats, params.param1 / 100.0);
    }

    /** The leveller loop over the positive half of the table. */
    method LevellerFill(ghost noiseFloor: real, gainLimits: seq<real>, addOnValues: seq<real>, numPasses: nat, fractionalPass: real)
      requires table.Length == TABLESIZE
      requires gainLimits == Levels.GainLimits(noiseFloor) && addOnValues == Levels.AddOns(gainLimits)
      modifies table
      ensures table[STEPS..] == Levels.LevellerHalf(noiseFloor, numPasses, fractionalPass)
      ensures table[..STEPS] == old(table[..STEPS])
    {
      ghost var half := Levels.LevellerHalf(noiseFloor, numPasses, fractionalPass);
      for n := STEPS to TABLESIZE
        invariant forall k :: STEPS <= k < n ==> table[k] == half[k - STEPS]
        invariant forall k :: 0 <= k < STEPS ==> table[k] == old(table[k])
      {
        table[n] := LevellerValue(noiseFloor, gainLimits, addOnValues, numPasses, fractionalPass, n - STEPS, (n - STEPS) as real / STEPS as real);
      }
      assert table[STEPS..] == half;
      assert table[..STEPS] == old(table[..STEPS]);
    }

    method Rectifier()
      requires Valid()
      modifies table
      ensures Valid()
      ensures table[..] == RectifierCurve(params.param1)
    {
      var amount := (params.param1 / 50.0) - 1.0;
      var stepsize := 1.0 / STEPS as real;
      var index := STEPS;
      for n := 0 to STEPS + 1
        invariant index == STEPS + n
        invariant forall k :: STEPS <= k < index ==> table[k] == RectifierEntry(params.param1, k)
      {
        table[index] := n as real * stepsize;
        index := index + 1;
      }
      index := STEPS - 1;
      for n := 1 to STEPS + 1
        invariant index == STEPS - n
        invariant forall k :: index < k < TABLESIZE ==> table[k] == RectifierEntry(params.param1, k)
      {
        table[index] := n as real * stepsize * amount;
        index := index - 1;
      }
      assert table[..] == RectifierCurve(params.param1);
      assert params == old(params);
    }

    method HardLimiter()
      requires Valid()
      modifies table, this`makeupGain
      ensures Valid()
      ensures table[..] == HardClipCurve(threshold)
      ensures makeupGain == 1.0 / threshold
    {
      HardClip();
    }

    /** Writes the negative half of the table as the negation of the
        positive half, read from the top entry down. */
    method CopyHalfTable()
      requires table.Length == TABLESIZE
      modifies table
      ensures table[..] == Symmetric(old(table[STEPS..]))
    {
      var count := TABLESIZE - 1;
      for n := 0 to STEPS
        invariant count == TABLESIZE - 1 - n
        invariant forall k :: STEPS <= k < TABLESIZE ==> table[k] == old(table[k])
        invariant forall k :: 0 <= k < n ==> table[k] == -old(table[2 * STEPS - k])
      {
        table[n] := -table[count];
        count := count - 1;
      }
      assert table[..] == Symmetric(old(table[STEPS..]));
    }

    // ------------------------------------------------------------ Per sample

    /** One sample through the table: the HardClip pre-gain, then the
        clamped index and offset, then linear interpolation between the two
        entries around the sample. */
    method WaveShaper(sample: real) returns (out: real)
      requires table.Length == TABLESIZE
      ensures out == WaveShape(params, table[..], sample)
      ensures var i := ShaperIndex(PreGain(params, sample));
        (table[i] <= out <= table[i + 1]) || (table[i + 1] <= out <= table[i])
    {
      var x := sample;
      if params.tableChoice == TableType.HardClip {
        var amount := params.param1 / 100.0;
        x := x * (1.0 + amount);
      }
      assert x == PreGain(params, sample);
      var index := ShaperIndex(x);
      var xOffset := ShaperOffset(x, index);
      out := table[index] + (table[index + 1] - table[index]) * xOffset;
      assert out == Interpolate(table[..], x);
      InterpolateBetween(table[..], x);
    }

    /** The rolling-average DC blocker: push the sample, drop the oldest one
        once the queue is longer than the window, and return the sample minus
        the queue's mean. A zero-length window (sample rate below 20 Hz)
        returns the sample and leaves the queue alone. */
    method DCFilter(data: DistortionState, sample: real) returns (out: real)
      requires data.Valid()
      modifies data`queuetotal, data`queuesamples
      ensures data.Valid()
      ensures Step(data.Filter(), out) == DCStep(WindowLength(data.samplerate), old(data.Filter()), sample)
    {
      ghost var s0 := data.Filter();
      var queueLength := WindowLength(data.samplerate);
      if queueLength == 0 {
        return sample;
      }
      data.queuetotal := data.queuetotal + sample;
      data.queuesamples := data.queuesamples + [sample];
      if |data.queuesamples| > queueLength {
        data.queuetotal := data.queuetotal - data.queuesamples[0];
        data.queuesamples := data.queuesamples[1..];
      }
      out := sample - (data.queuetotal / |data.queuesamples| as real);
      DCStepKeepsInvariant(queueLength, s0, sample);
    }

    /** Starts an instance: records the sample rate, zeroes the skip count,
        caches every parameter, empties the DC filter and rebuilds the table. */
    method InstanceInit(data: DistortionState, sampleRate: real)
      requires Valid()
      modifies data, table, this`makeupGain
      ensures Valid() && data.Valid()
      ensures data.samplerate == sampleRate && data.skipcount == 0
      ensures data.Cached() == params && data.Filter() == Empty()
      ensures table[..] == TableFor(libm, params, threshold)
      ensures makeupGain == GainFor(libm, params, threshold, old(makeupGain))
    {
      data.samplerate := sampleRate;
      data.skipcount := 0;
      data.tablechoiceindx := params.tableChoice;
      data.dcblock := params.dcBlock;
      data.threshold := params.thresholdDb;
      data.noisefloor := params.noiseFloor;
      data.param1 := params.param1;
      data.param2 := params.param2;
      data.repeats := params.repeats;
      data.queuetotal := 0.0;
      data.queuesamples := [];
      MakeTable();
    }

    /** The rebuild test at sample i of a block: `update && skipcount++ %
        skipsamples == 0`, and MakeTable when it holds. */
    method RebuildIfDue(data: DistortionState, update: bool, ghost blk: Block, ghost i: nat)
      requires Valid() && blk.Valid() && blk.RebuildsFrom(libm, threshold)
      requires blk.p == params && blk.update == update
      requires data.skipcount == blk.skipcount + (if blk.update then i else 0)
      requires table[..] == blk.TableAt(i - 1) && makeupGain == blk.GainAt(i - 1)
      modifies table, this`makeupGain, data`skipcount
      ensures Valid()
      ensures data.skipcount == blk.skipcount + (if blk.update then i + 1 else 0)
      ensures table[..] == blk.TableAt(i) && makeupGain == blk.GainAt(i)
    {
      var rebuild := false;
      if update {
        rebuild := data.skipcount % SkipSamples == 0;
        data.skipcount := data.skipcount + 1;
      }
      RebuildStep(update, blk.skipcount, i);
      if rebuild {
        GainForIdempotent(libm, params, threshold, blk.gain0);
        MakeTable();
      }
    }

    /** Processes blockLen samples of the first channel. The update flag is
        computed once, from the live parameters against the cached copy; the
        cached copy then takes every field but param2 and dcBlock. While the
        flag is set, every sample whose skip count (before its increment) is
        a multiple of skipsamples rebuilds the table first. Each sample is
        shaped, mixed for its curve and, with dcBlock, passed through the DC
        filter. */
    method InstanceProcess(data: DistortionState, inBlock: array<real>, outBlock: array<real>, blockLen: nat)
      returns (processed: nat)
      requires Valid() && data.Valid()
      requires blockLen <= inBlock.Length && blockLen <= outBlock.Length
      requires inBlock != table && outBlock != table
      modifies table, this`makeupGain, data, outBlock
      ensures Valid() && data.Valid() && processed == blockLen
      ensures var blk := Block(params, old(table[..]), old(makeupGain),
                               TableFor(libm, params, threshold), GainFor(libm, params, threshold, old(makeupGain)),
                               NeedsUpdate(params, old(data.Cached())), old(data.skipcount));
        var w := WindowLength(data.samplerate);
        var xs := old(inBlock[..blockLen]);
        outBlock[..blockLen] == blk.Output(w, old(data.Filter()), params.dcBlock, xs) &&
        data.Filter() == blk.FilterAfter(w, old(data.Filter()), params.dcBlock, xs) &&
        table[..] == blk.TableAt(blockLen - 1) && makeupGain == blk.GainAt(blockLen - 1)
      ensures outBlock[blockLen..] == old(outBlock[blockLen..])
      ensures data.samplerate == old(data.samplerate)
      ensures data.Cached() == CacheAfterBlock(params, old(data.Cached()))
      ensures data.skipcount == old(data.skipcount) + (if NeedsUpdate(params, old(data.Cached())) then blockLen else 0)
    {
      var update := NeedsUpdate(params, data.Cached());
      ghost var blk := Block(params, table[..], makeupGain,
                             TableFor(libm, params, threshold), GainFor(libm, params, threshold, makeupGain),
                             update, data.skipcount);
      ghost var xs := inBlock[..blockLen];
      data.tablechoiceindx := params.tableChoice;
      data.threshold := params.thresholdDb;
      data.noisefloor := params.noiseFloor;
      data.param1 := params.param1;
      data.repeats := params.repeats;
      assert data.Cached() == CacheAfterBlock(params, old(data.Cached()));
      ProcessSamples(data, inBlock, outBlock, blockLen, update, blk, xs);
      assert blk == Block(params, old(table[..]), old(makeupGain),
                          TableFor(libm, params, threshold), GainFor(libm, params, threshold, old(makeupGain)),
                          NeedsUpdate(params, old(data.Cached())), old(data.skipcount));
      processed := blockLen;
    }

    /** The state of an instance after the first i samples of a block blk
        with input xs: the table and makeup gain in use at sample i-1, the
        skip count advanced once per sample while updating, the output and
        DC filter of those samples, the input not yet read still intact and
        the output beyond the block untouched (out0 is its old contents). */
    ghost predicate Reached(data: DistortionState, inBlock: array<real>, outBlock: array<real>,
                            blk: Block, fs0: FilterState, xs: seq<real>, out0: seq<real>, i: nat)
      reads this, table, data, inBlock, outBlock
    {
      Valid() && data.Valid() && blk.Valid() && blk.RebuildsFrom(libm, threshold) && blk.p == params &&
      i <= |xs| <= inBlock.Length && |xs| <= outBlock.Length && |out0| == outBlock.Length &&
      inBlock != table && outBlock != table &&
      data.skipcount == blk.skipcount + (if blk.update then i else 0) &&
      table[..] == blk.TableAt(i - 1) && makeupGain == blk.GainAt(i - 1) &&
      outBlock[..i] == blk.Output(WindowLength(data.samplerate), fs0, params.dcBlock, xs[..i]) &&
      data.Filter() == blk.FilterAfter(WindowLength(data.samplerate), fs0, params.dcBlock, xs[..i]) &&
      (forall k :: i <= k < |xs| ==> inBlock[k] == xs[k]) &&
      (forall k :: |xs| <= k < outBlock.Length ==> outBlock[k] == out0[k])
    }

    /** Sample i of a block: the rebuild test, then the shaped sample mixed
        for the curve and, with dcBlock, passed through the DC filter. */
    method ProcessSample(data: DistortionState, inBlock: array<real>, outBlock: array<real>, update: bool,
                         ghost blk: Block, ghost fs0: FilterState, ghost xs: seq<real>, ghost out0: seq<real>, i: nat)
      requires Reached(data, inBlock, outBlock, blk, fs0, xs, out0, i) && i < |xs| && blk.update == update
      modifies table, this`makeupGain, data`skipcount, data`queuetotal, data`queuesamples, outBlock
      ensures Reached(data, inBlock, outBlock, blk, fs0, xs, out0, i + 1)
    {
      ghost var before := outBlock[..i];
      var x := inBlock[i];
      RebuildIfDue(data, update, blk, i);
      ghost var f1 := data.Filter();
      var y := ShapeSample(x, blk, i);
      if params.dcBlock {
        y := DCFilter(data, y);
      }
      outBlock[i] := y;
      assert outBlock[..i + 1] == before + [y];
      OutputExtends(blk, WindowLength(data.samplerate), fs0, params.dcBlock, xs, i, y, f1, data.Filter());
    }

    /** Sample i of a block before DC blocking: the shaped sample mixed
        for the curve, with the table and makeup gain in use at sample i. */
    method ShapeSample(x: real, ghost blk: Block, ghost i: nat) returns (y: real)
      requires table.Length == TABLESIZE && blk.Valid() && blk.p == params
      requires table[..] == blk.TableAt(i) && makeupGain == blk.GainAt(i)
      ensures y == blk.WetAt(x, i)
    {
      var shaped := WaveShaper(x);
      y := Mix(params, shaped, x, makeupGain);
    }

    /** The sample loop of InstanceProcess, for a block blk whose update
        flag, skip count, table and makeup gain are those at block start. */
    method ProcessSamples(data: DistortionState, inBlock: array<real>, outBlock: array<real>, blockLen: nat,
                          update: bool, ghost blk: Block, ghost xs: seq<real>)
      requires Valid() && data.Valid() && blk.Valid() && blk.RebuildsFrom(libm, threshold)
      requires blk.p == params && blk.update == update && blk.skipcount == data.skipcount
      requires blk.table0 == table[..] && blk.gain0 == makeupGain
      requires blockLen <= inBlock.Length && blockLen <= outBlock.Length
      requires inBlock != table && outBlock != table && xs == inBlock[..blockLen]
      modifies table, this`makeupGain, data`skipcount, data`queuetotal, data`queuesamples, outBlock
      ensures Valid() && data.Valid()
      ensures outBlock[..blockLen] == blk.Output(WindowLength(data.samplerate), old(data.Filter()), params.dcBlock, xs)
      ensures data.Filter() == blk.FilterAfter(WindowLength(data.samplerate), old(data.Filter()), params.dcBlock, xs)
      ensures table[..] == blk.TableAt(blockLen - 1) && makeupGain == blk.GainAt(blockLen - 1)
      ensures data.skipcount == blk.skipcount + (if update then blockLen else 0)
      ensures outBlock[blockLen..] == old(outBlock[blockLen..])
    {
      ghost var fs0 := data.Filter();
      ghost var out0 := outBlock[..];
      assert xs[..0] == [];
      for i := 0 to blockLen
        invariant Reached(data, inBlock, outBlock, blk, fs0, xs, out0, i)
      {
        ProcessSample(data, inBlock, outBlock, update, blk, fs0, xs, out0, i);
      }
      assert xs[..blockLen] == xs;
    }
  }
}
