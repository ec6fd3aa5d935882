/** The effect's user parameters (EffectDistortion::Params). */
module Params {

  /** kTableType: the eleven distortion curves, in the order of the enum. */
  datatype TableType =
    | HardClip
    | SoftClip
    | HalfSinCurve
    | ExpCurve
    | LogCurve
    | Cubic
    | EvenHarmonics
    | SinCurve
    | Leveller
    | Rectifier
    | HardLimiter

  datatype Params = Params(
    tableChoice: TableType,
    dcBlock: bool,
    thresholdDb: real,
    noiseFloor: real,
    param1: real,
    param2: real,
    repeats: int)
  {
    /** Every field inside the range its Param() declaration gives. */
    predicate Valid()
    {
      -100.0 <= thresholdDb <= 0.0 &&
      -80.0 <= noiseFloor <= -20.0 &&
      0.0 <= param1 <= 100.0 &&
      0.0 <= param2 <= 100.0 &&
      0 <= repeats <= 5
    }
  }

  /** The DEF_ values the effect's constructor installs. */
  function Defaults(): (p: Params)
    ensures p.Valid()
  {
    Params(HardClip, false, -6.0, -70.0, 50.0, 50.0, 1)
  }
}
