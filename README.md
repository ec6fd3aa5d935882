# Distortion waveshaper — a Dafny model

This project models the signal path of the Distortion effect
(`EffectDistortion`). The effect turns each input sample into an output
sample through a lookup table `mTable` of `TABLESIZE = 2*STEPS + 1` entries.
The table is the transfer curve over inputs -1 .. 1. One of eleven builders
fills it in place, depending on the curve type. `WaveShaper` reads the table
with linear interpolation. `InstanceProcess` then applies a per-curve output
mix and an optional rolling-average DC blocker (`DCFilter`). While the
parameters differ from the instance's cached copy, it rebuilds the table at
most once every `skipsamples` (1000) samples.

Modules:

- `Numerics` — the C maths functions used (`exp`, `log`, `sin`, `tanh`,
  `pow`). They are uninterpreted function values, constrained only by the
  few facts the curves rely on (`Libm.Sound`).
- `Params` — the user parameters, their ranges and their defaults.
- `Geometry` — the table layout: `STEPS`, `TABLESIZE`, the identity ramp,
  and the mirroring done by `CopyHalfTable`.
- `Curves`, `Levels` — the contents of the table after each builder, as
  pure functions of the parameters. The curve lemmas state what each
  builder promises.
- `Shaper` — the interpolating lookup and the per-curve output mix.
- `DCBlock` — the rolling-average DC blocker, including the zero-window
  case described under Findings.
- `Refresh` — the update flag, the cached copy, and the skip-count rebuild
  schedule.
- `Process` — what one call of `InstanceProcess` outputs, as functions of
  the state at block start.
- `Distortion` — the imperative part:
  - the class `EffectDistortion`: parameters, threshold, makeup gain and the
    shared table, whose builders fill the table in place;
  - the class `DistortionState`: the per-instance state, with the DC
    filter's queue and running total.

Each builder method is proved to leave exactly the sequence its curve
function describes. `InstanceProcess` is proved to write exactly the output
that `Process.Block.Output` describes for its block. It also leaves the
table, the makeup gain, the cached copy, the skip count and the filter state
described by the same functions.

Behaviour of the code worth knowing, which the model keeps:

- The Cubic curve's output is scaled by `param2` (Distortion.cpp:551-553),
  as the other overdrive curves are, not passed through unscaled.
- The Leveller's segment search (Distortion.cpp:1167-1170, again at
  1177-1180) returns the lowest index of the unbroken run of breakpoints,
  from the top, that lie above the value. The comment at 1166 says "highest
  index". For sorted breakpoints the result is the index just above the
  value, not the highest breakpoint at or below it.
- The cached copy is overwritten at the start of every block
  (Distortion.cpp:521-525), not when the table is rebuilt. `param2` is
  compared (515) but never copied back, and `dcBlock` is neither compared
  nor copied.
- A rebuild happens at the first sample whose skip count, before its
  increment, is a multiple of `skipsamples` (Distortion.cpp:528). That can
  be the block's very first sample. Successive rebuilds are 1000 samples
  apart, as the comment at 86 says, but the first one after a change comes
  between 0 and 999 samples into the block, not after a full 1000.

## Model

| member | source | states |
|---|---|---|
| Params.Defaults | src/effects/Distortion.cpp:78-84 | the default parameters lie inside every declared range |
| Numerics.Libm.DbToLinear | src/effects/Distortion.cpp:1132 | a dB value maps to a positive linear gain, at most 1 for non-positive dB |
| Curves.HardClipShape | src/effects/Distortion.cpp:969-984 | below STEPS*(1-th) the entry is -th, above STEPS*(1+th) it is th, in between it is the identity; every entry lies in [-th, th] |
| Curves.SoftClipAmount | src/effects/Distortion.cpp:989 | the soft-clip roll-off ratio 2^(7*param1/100) is positive, so LogCurve never divides by 0 |
| Curves.LogCurve | src/effects/Distortion.cpp:1004-1007 | threshold + (exp(ratio*(threshold-value)) - 1)/-ratio; at value == threshold it returns the threshold, so the roll-off joins the identity part of the soft-clip table without a step |
| Curves.SoftClipPeak | src/effects/Distortion.cpp:990-991 | the curve's value at input 1 is at least the threshold, so the makeup gain 1/peak is defined, positive and at most 1/th |
| Curves.SoftClipStartsAtZero | src/effects/Distortion.cpp:992-1000 | the soft-clip positive half starts at 0 (the origin) |
| Curves.ExpAmount | src/effects/Distortion.cpp:1011 | the exponential amount lies in (0, 0.999], so the scale -1/(1-amount) is defined |
| Curves.ExpStartsAtZero | src/effects/Distortion.cpp:1013-1018 | the exponential curve maps input 0 to 0 |
| Curves.LogZeroIsRamp | src/effects/Distortion.cpp:1028-1033 | with amount 0 the logarithmic half is the straight line k/STEPS and the whole table is the identity ramp |
| Curves.IterationsRange | src/effects/Distortion.cpp:1045-1046 | for param1 in [0, 100], iter lies in 0..5 and the fractional part lies in [0, 1) |
| Curves.HalfSinFixesZero | src/effects/Distortion.cpp:1052-1054 | any number of half-sine iterations keeps 0 at 0 |
| Curves.HalfSinStartsAtZero | src/effects/Distortion.cpp:1050-1057 | the half-sine positive half starts at 0 |
| Curves.SineFixesZero | src/effects/Distortion.cpp:1121-1123 | any number of sine iterations keeps 0 at 0 |
| Curves.SineStartsAtZero | src/effects/Distortion.cpp:1119-1126 | the sine positive half starts at 0 |
| Curves.CubicPositive | src/effects/Distortion.cpp:1065-1066 | Cubic(min(amount,1)) is positive, so the gain 1/Cubic(...) is defined |
| Curves.CubicZeroIsIdentity | src/effects/Distortion.cpp:1071-1075 | with param1 0, Cubic is the identity and the table is the identity ramp, for any number of repeats |
| Curves.Cubic | src/effects/Distortion.cpp:1087-1093 | x - x^3/3, or x itself when param1 is 0; maps 0 to 0 (oddness in CubicIsOdd, positivity on (0, 1] in CubicPositive) |
| Curves.CubicIsOdd | src/effects/Distortion.cpp:1087-1093 | Cubic(-x) == -Cubic(x) |
| Curves.CubicXMirror | src/effects/Distortion.cpp:1068-1082 | the x of entry n, -amount + n*amount/STEPS, is the negation of the x of entry 2*STEPS-n |
| Curves.CubicShapeIsOdd | src/effects/Distortion.cpp:1078 | the scaled cubic is odd |
| Curves.CubicPassIsOdd | src/effects/Distortion.cpp:1080 | one reinforcement pass is odd |
| Curves.CubicRepeatIsOdd | src/effects/Distortion.cpp:1079-1081 | any number of reinforcement passes is odd |
| Curves.CubicEntryIsOdd | src/effects/Distortion.cpp:1061-1085 | entry n is the negation of entry 2*STEPS-n |
| Curves.CubicCurveIsOdd | src/effects/Distortion.cpp:1061-1085 | the cubic table, built over the whole domain without mirroring, is odd |
| Curves.RectifierShape | src/effects/Distortion.cpp:1187-1205 | the positive half is the identity and the negative half is scaled by param1/50 - 1; param1 0 is the ramp, 50 silences the negative half, 100 gives \|x\| |
| Curves.MakeupGainRestoresUnity | src/effects/Distortion.cpp:982-991 | HardClip/HardLimiter gain times threshold is 1, so it is at least 1; SoftClip gain times the curve's peak is 1; the gain is positive |
| Curves.GainForIdempotent | src/effects/Distortion.cpp:982-991 | rebuilding from the same parameters a second time leaves the makeup gain as the first rebuild set it |
| Curves.OriginIsSilent | src/effects/Distortion.cpp:924-962 | for every curve type and valid parameters, MakeTable leaves 0 at the origin entry STEPS |
| Curves.SymmetricCurves | src/effects/Distortion.cpp:924-962 | every curve except Rectifier and EvenHarmonics is odd |
| Curves.HardLimiterIsHardClip | src/effects/Distortion.cpp:1207-1213 | the HardLimiter table and makeup gain are exactly those of HardClip |
| Curves.LevellerZeroIsRamp | src/effects/Distortion.cpp:1130-1185 | with no repeats and a fractional pass of at most 0.001, the Leveller table is the identity ramp |
| Geometry.SymmetricIsOdd | src/effects/Distortion.cpp:1218-1226 | mirroring keeps the positive half, writes entry n as -entry(2*STEPS-n) below the origin, and is odd exactly when the half starts at 0 |
| Geometry.RampIsOdd | src/effects/Distortion.cpp:980 | the identity ramp is odd |
| Geometry.SymmetricRamp | src/effects/Distortion.cpp:1218-1226 | mirroring the positive half of the ramp gives back the whole ramp |
| Levels.GainLimits | src/effects/Distortion.cpp:1138-1141 | the breakpoints are the fixed six with the second replaced by the linear noise floor |
| Levels.AddOnsPrefix | src/effects/Distortion.cpp:1154-1158 | the add-on values are computed by prefix: a shorter run of the loop is a prefix of a longer one |
| Levels.AddOnsContinuous | src/effects/Distortion.cpp:1154-1158 | the first offset is 0, and the two affine pieces meeting at each breakpoint agree there, so the gain map has no jumps |
| Levels.ComputeAddOns | src/effects/Distortion.cpp:1154-1158 | the add-on loop computes exactly the continuous offsets AddOns |
| Levels.SegmentFrom | src/effects/Distortion.cpp:1167-1170 | the search always yields a valid piece index 0..5 |
| Levels.FindSegment | src/effects/Distortion.cpp:1167-1170 | the search loop, as written, yields Segment |
| Levels.SegmentRun | src/effects/Distortion.cpp:1167-1170 | at or above the last limit the top piece is used; otherwise the lowest index of the run of limits, from the top, lying above the value |
| Levels.SegmentOfSorted | src/effects/Distortion.cpp:1167-1170 | for sorted limits the search picks r with limits[r-1] <= v < limits[r], or 0 below the first limit |
| Levels.PassesFixZero | src/effects/Distortion.cpp:1165-1173 | when 0 falls on the first piece, any number of whole passes keeps 0 at 0 |
| Levels.LevellerKeepsOrigin | src/effects/Distortion.cpp:1163-1183 | with a positive noise floor the Leveller half starts at 0 |
| Levels.LevellerIdentity | src/effects/Distortion.cpp:1163-1182 | with no whole passes and a fraction of at most 0.001, the positive half is the identity |
| Shaper.ShaperIndex | src/effects/Distortion.cpp:1247-1248 | the clamped index lies in 0..2*STEPS-1, so index+1 is inside the table |
| Shaper.ShaperOffset | src/effects/Distortion.cpp:1249-1250 | the clamped offset lies in [0, 1] |
| Shaper.InterpolateBetween | src/effects/Distortion.cpp:1247-1253 | the lookup result lies between the two neighbouring table entries |
| Shaper.InterpolateAtKnot | src/effects/Distortion.cpp:1247-1253 | at input i/STEPS - 1 the lookup returns table entry i exactly, including the last entry |
| Shaper.InterpolateSaturates | src/effects/Distortion.cpp:1247-1253 | inputs at or above 1 give the last entry, inputs at or below -1 give the first |
| Shaper.InterpolateRamp | src/effects/Distortion.cpp:1247-1253 | through the identity table the lookup is the identity on [-1, 1] |
| Shaper.PreGain | src/effects/Distortion.cpp:1236-1245 | only HardClip scales its input, and it never moves the sample towards 0 |
| Shaper.Mix | src/effects/Distortion.cpp:532-572 | the per-curve output formula of the switch; silent shaped and dry samples give a silent output (endpoints of param2 in MixEndpoints) |
| Shaper.MixEndpoints | src/effects/Distortion.cpp:532-572 | what param2 means per curve: blend to makeup gain, output level, pass-through, and the HardLimiter's wet/residual mix |
| DCBlock.WindowLength | src/effects/Distortion.cpp:1262 | at 20 Hz and above, the window is floor(samplerate/20), at least 1 |
| DCBlock.SumAppend | src/effects/Distortion.cpp:1264-1265 | pushing a sample adds it to the running total |
| DCBlock.DCStep | src/effects/Distortion.cpp:1259-1273 | one DCFilter call, corrected for a zero window: with window 0 the sample and the state pass through unchanged; otherwise the queue ends with the new sample (the rest in DCStepKeepsInvariant, agreement with the code in AsWrittenAgrees) |
| DCBlock.DCStepAsWritten | src/effects/Distortion.cpp:1262-1272 | the call exactly as the code computes it: it divides by an empty queue exactly when the window is 0 and the queue was empty |
| DCBlock.DCStepKeepsInvariant | src/effects/Distortion.cpp:1259-1273 | a step keeps total == sum(queue) and \|queue\| <= window; the queue keeps the latest min(n+1, w) samples and the output is the sample minus their mean |
| DCBlock.DCStepConstant | src/effects/Distortion.cpp:1264-1272 | a constant sample meeting a queue of that constant gives 0 out |
| DCBlock.AsWrittenAgrees | src/effects/Distortion.cpp:1259-1273 | with a window of at least one sample, the corrected step is the code's step |
| DCBlock.AsWrittenZeroWindow | src/effects/Distortion.cpp:1262-1272 | below 20 Hz the window is 0 and the code divides by an empty queue |
| DCBlock.DCRunKeepsInvariant | src/effects/Distortion.cpp:1259-1273 | the invariant holds after any sequence of filter calls |
| DCBlock.DCRunRemovesConstant | src/effects/Distortion.cpp:1259-1273 | a constant (DC) signal from an empty queue is removed from the first sample on |
| Refresh.NeedsUpdate | src/effects/Distortion.cpp:511-516 | the update flag: false when the cached copy equals the live parameters, true whenever param2 differs (exact characterisation in NeedsUpdateIgnoresDCBlock) |
| Refresh.NeedsUpdateIgnoresDCBlock | src/effects/Distortion.cpp:511-516 | update is false exactly when the cached copy equals the live parameters in every field but dcBlock |
| Refresh.FirstRebuild | src/effects/Distortion.cpp:528 | the first rebuild slot is the least offset whose skip count is a multiple of 1000, and it is below 1000 |
| Refresh.RebuildStep | src/effects/Distortion.cpp:528-530 | the test `update && skipcount++ % skipsamples == 0` moves the rebuilt-yet flag from sample i-1 to sample i |
| Refresh.RebuildLagBound | src/effects/Distortion.cpp:528-530 | while updating, a block of 1000 samples always rebuilds, and a block starting on a multiple of 1000 rebuilds at once |
| Refresh.ChangeCanBeLost | src/effects/Distortion.cpp:511-525 | a change to any parameter but param2 is lost when the block ends before its rebuild slot: the next block no longer updates |
| Refresh.Param2KeepsUpdating | src/effects/Distortion.cpp:521-525 | a changed param2 is never cached, so every later block keeps updating |
| Process.OutputStep | src/effects/Distortion.cpp:527-576 | one more input sample appends one shaped, mixed, optionally DC-blocked sample and advances the filter by one step |
| Process.OutputExtends | src/effects/Distortion.cpp:573-576 | the sample the loop writes at index i extends the block's output and filter state by input i |
| Process.BlockEndState | src/effects/Distortion.cpp:527-531 | after the block, the table and gain are the rebuilt ones when a rebuild slot was reached while updating, and the old ones otherwise |
| Process.SettledBlock | src/effects/Distortion.cpp:527-572 | when the table already matches the live parameters, every sample uses that table and gain |
| Process.SilenceInSilenceOut | src/effects/Distortion.cpp:506-579 | with a table built by MakeTable, a silent input block gives a silent wet output |
| Distortion.EffectDistortion.constructor | src/effects/Distortion.cpp:154-166 | the defaults, the linear threshold, unity makeup gain and a fresh table |
| Distortion.EffectDistortion.MakeTable | src/effects/Distortion.cpp:924-962 | the table becomes TableFor(parameters, threshold) and the makeup gain GainFor(...) |
| Distortion.EffectDistortion.HardClip | src/effects/Distortion.cpp:969-984 | the table becomes the hard-clip curve and the makeup gain 1/threshold |
| Distortion.EffectDistortion.SoftClip | src/effects/Distortion.cpp:986-1002 | the table becomes the mirrored soft-clip half and the makeup gain 1/peak |
| Distortion.EffectDistortion.ExponentialTable | src/effects/Distortion.cpp:1009-1020 | the table becomes the mirrored exponential half |
| Distortion.EffectDistortion.LogarithmicTable | src/effects/Distortion.cpp:1022-1041 | the table becomes the mirrored logarithmic half, on both branches of amount == 0 |
| Distortion.EffectDistortion.HalfSinValue | src/effects/Distortion.cpp:1051-1055 | the inner iteration loop computes entry STEPS+k of the half-sine half |
| Distortion.EffectDistortion.HalfSinFill | src/effects/Distortion.cpp:1047-1057 | the positive half of the table becomes the half-sine half; entries below STEPS are left unchanged |
| Distortion.EffectDistortion.HalfSinTable | src/effects/Distortion.cpp:1043-1059 | the table becomes the mirrored half-sine half |
| Distortion.EffectDistortion.CubicValue | src/effects/Distortion.cpp:1078-1081 | the repeats loop computes the cubic followed by `repeats` passes |
| Distortion.EffectDistortion.CubicTable | src/effects/Distortion.cpp:1061-1085 | the table becomes the cubic curve, on both branches of amount == 0 |
| Distortion.EffectDistortion.EvenHarmonicTable | src/effects/Distortion.cpp:1096-1110 | the table becomes the even-harmonic curve |
| Distortion.EffectDistortion.EvenHarmonicFill | src/effects/Distortion.cpp:1102-1109 | the loop over xval fills every entry of the even-harmonic curve |
| Distortion.EffectDistortion.SineValue | src/effects/Distortion.cpp:1120-1124 | the inner iteration loop computes entry STEPS+k of the sine half |
| Distortion.EffectDistortion.SineFill | src/effects/Distortion.cpp:1116-1126 | the positive half of the table becomes the sine half; entries below STEPS are left unchanged |
| Distortion.EffectDistortion.SineTable | src/effects/Distortion.cpp:1112-1128 | the table becomes the mirrored sine half |
| Distortion.EffectDistortion.LevellerValue | src/effects/Distortion.cpp:1164-1182 | the passes loop and the fractional pass compute entry STEPS+k of the Leveller half |
| Distortion.EffectDistortion.LevellerFill | src/effects/Distortion.cpp:1163-1183 | the positive half of the table becomes the Leveller half; entries below STEPS are left unchanged |
| Distortion.EffectDistortion.Leveller | src/effects/Distortion.cpp:1130-1185 | the table becomes the mirrored Leveller half for the linear noise floor, repeats and param1/100 |
| Distortion.EffectDistortion.Rectifier | src/effects/Distortion.cpp:1187-1205 | the table becomes the rectifier curve: both loops together fill every entry |
| Distortion.EffectDistortion.HardLimiter | src/effects/Distortion.cpp:1207-1213 | the table and makeup gain become those of HardClip |
| Distortion.EffectDistortion.CopyHalfTable | src/effects/Distortion.cpp:1218-1226 | the table becomes the mirror image of its old positive half; the positive half is unchanged |
| Distortion.EffectDistortion.WaveShaper | src/effects/Distortion.cpp:1229-1256 | the result is the interpolated lookup of the pre-gained sample and lies between the two entries around it |
| Distortion.EffectDistortion.DCFilter | src/effects/Distortion.cpp:1259-1273 | the new queue, total and output are one DCStep, and the filter invariant is kept |
| Distortion.EffectDistortion.InstanceInit | src/effects/Distortion.cpp:482-504 | the sample rate is recorded, the skip count zeroed, every parameter cached, the queue emptied and the table built |
| Distortion.EffectDistortion.RebuildIfDue | src/effects/Distortion.cpp:528-530 | the skip count advances while updating, and the table and gain become those in use at sample i |
| Distortion.EffectDistortion.ShapeSample | src/effects/Distortion.cpp:532-572 | the per-curve mixed sample equals the block's wet sample i |
| Distortion.EffectDistortion.ProcessSample | src/effects/Distortion.cpp:527-576 | one loop iteration extends the processed prefix, the filter state and the skip count by one sample |
| Distortion.EffectDistortion.ProcessSamples | src/effects/Distortion.cpp:527-576 | the loop writes Block.Output into the first blockLen outputs and leaves the rest unchanged |
| Distortion.EffectDistortion.InstanceProcess | src/effects/Distortion.cpp:506-579 | the output, DC-filter state, table, gain, cached copy and skip count after the block are exactly those Process.Block describes |

## Left out

- Floating point: samples and the table are `float` and intermediates are
  `double` in the code. The model computes over exact reals, so rounding
  and float/double conversions are not modelled. The interpolation
  offset and the loop accumulators `linVal`, `x` and `xval` are exact.
- `exp`, `log`, `sin`, `tanh` and `pow` are uninterpreted. Only the facts in
  `Libm.Sound` are assumed about them, so any property that needs more
  (monotonicity of a curve, its exact peak) is not stated.
- `STEPS` is taken as 1024. `Distortion.h`, which defines it, is not part of
  this model. No proof depends on its value.
- Only the first channel is modelled (`inBlock[0]`, `outBlock[0]`), as the
  code processes it. The per-channel pointers become two arrays.
- `skipcount` is an unbounded natural number; the overflow of the
  code's fixed-width counter is not modelled.
- The threshold `mThreshold` is only set by the constructor, the dialog and
  the presets, none of which is modelled. Each method therefore sees a
  fixed threshold.
- Distortion.EffectDistortion.InstanceProcess: the rebuild test and the
  per-sample work are moved into helper methods, and `obuf[i]` is written
  once with its final value rather than first with the wet sample and then
  with the DC-blocked one. The output is the same.
- Dialogs, presets, automation parameters, the realtime and per-block host
  wrappers (`ProcessBlock`, `RealtimeProcess` and others) and the UI
  callbacks are not part of this model.
- DCBlock.DCStep, Distortion.EffectDistortion.DCFilter, Distortion.EffectDistortion.InstanceProcess:
  a window of 0 is modelled as a pass-through with the state left alone,
  not as the code's 0/0 (see Findings).
- A single caller is modelled, and `mParams` is held constant for the
  whole of a block (`Block.p`, the class field `params`). The code re-reads
  `mParams` on every sample (Distortion.cpp:532, 573, 1236-1241, and in
  `MakeTable` at 529). A change made by another thread in the middle of a
  block, as can happen in real-time use, is not modelled.

## Findings

| source | as written | input that shows it | evidently intended | confidence | as-written member | corrected member |
|---|---|---|---|---|---|---|
| src/effects/Distortion.cpp:1262-1272 | the window is `floor(samplerate/20)`; the sample is pushed, popped again because the queue exceeds a window of 0, and the total is divided by a queue size of 0 | a sample rate below 20 Hz with `dcBlock` on: the first call divides 0 by 0 and returns NaN | a zero-length window leaves the sample unfiltered and the queue empty | not executed | DCBlock.DCStepAsWritten, DCBlock.AsWrittenZeroWindow | DCBlock.DCStep |
