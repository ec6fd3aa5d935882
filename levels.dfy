/** The Leveller curve: a piecewise-affine gain map with six breakpoints,
    applied to the positive half of the table a whole number of times and
    then once more, weighted, for the fractional part. */
module Levels {
  import opened Geometry

  const NumPoints: int := 6

  /** gainFactors: the slope of each affine piece. */
  const GainFactors: seq<real> := [0.80, 1.00, 1.20, 1.20, 1.00, 0.80]

  /** gainLimits: the breakpoints, with the second one replaced by the
      linear noise floor. */
  function GainLimits(noiseFloor: real): (limits: seq<real>)
    ensures |limits| == NumPoints
    ensures limits[1] == noiseFloor
  {
    [0.0001, noiseFloor, 0.1, 0.3, 0.5, 1.0]
  }

  /** addOnValues[0..k]: the offsets of the first k+1 affine pieces, each
      chosen so that piece i+1 continues piece i at gainLimits[i]. */
  function AddOnsUpTo(limits: seq<real>, k: nat): (a: seq<real>)
    requires |limits| == NumPoints && k < NumPoints
    ensures |a| == k + 1
    decreases k
  {
    if k == 0 then [0.0]
    else
      var prev := AddOnsUpTo(limits, k - 1);
      prev + [NextAddOn(limits, prev[k - 1], k - 1)]
  }

  /** addOnValues[i+1] from addOnValues[i]. */
  function NextAddOn(limits: seq<real>, prev: real, i: int): real
    requires |limits| == NumPoints && 0 <= i < NumPoints - 1
  {
    prev + limits[i] * (GainFactors[i] - GainFactors[i + 1])
  }

  /** All six offsets. */
  function AddOns(limits: seq<real>): (a: seq<real>)
    requires |limits| == NumPoints
    ensures |a| == NumPoints
  {
    AddOnsUpTo(limits, NumPoints - 1)
  }

  lemma {:induction false} AddOnsPrefix(limits: seq<real>, j: nat, k: nat)
    requires |limits| == NumPoints && j <= k < NumPoints
    ensures AddOnsUpTo(limits, k)[..j + 1] == AddOnsUpTo(limits, j)
    decreases k
  {
    if j < k {
      AddOnsPrefix(limits, j, k - 1);
      assert AddOnsUpTo(limits, k)[..k] == AddOnsUpTo(limits, k - 1);
    }
  }

  /** The first piece has no offset, and at every breakpoint limits[i] the
      two affine pieces that meet there give the same value: the map has
      no jumps. */
  lemma AddOnsContinuous(limits: seq<real>, i: int)
    requires |limits| == NumPoints && 0 <= i < NumPoints - 1
    ensures AddOns(limits)[0] == 0.0
    ensures limits[i] * GainFactors[i] + AddOns(limits)[i]
         == limits[i] * GainFactors[i + 1] + AddOns(limits)[i + 1]
  {
    var a := AddOns(limits);
    AddOnsPrefix(limits, 0, NumPoints - 1);
    AddOnsPrefix(limits, i + 1, NumPoints - 1);
    AddOnsPrefix(limits, i, i + 1);
    assert a[i + 1] == NextAddOn(limits, a[i], i);
    assert limits[i] * (GainFactors[i] - GainFactors[i + 1])
        == limits[i] * GainFactors[i] - limits[i] * GainFactors[i + 1];
  }

  /** The add-on loop: addOnValues[i+1] from addOnValues[i], in a
      fixed-size array of numPoints entries. */
  method ComputeAddOns(limits: seq<real>) returns (addOn: seq<real>)
    requires |limits| == NumPoints
    ensures addOn == AddOns(limits)
  {
    var addOnValues := new real[NumPoints];
    addOnValues[0] := 0.0;
    var i := 0;
    while i < NumPoints - 1
      invariant 0 <= i <= NumPoints - 1
      invariant addOnValues[..i + 1] == AddOnsUpTo(limits, i)
    {
      addOnValues[i + 1] := NextAddOn(limits, addOnValues[i], i);
      assert addOnValues[..i + 2] == addOnValues[..i + 1] + [addOnValues[i + 1]];
      i := i + 1;
    }
    addOn := addOnValues[..];
  }

  /** The segment search: starting at index numPoints-1, step down while
      v lies below gainLimits[i], remembering the last index stepped to. */
  function SegmentFrom(v: real, limits: seq<real>, i: int, index: int): (r: int)
    requires |limits| == NumPoints && -1 <= i < NumPoints && 0 <= index < NumPoints
    ensures 0 <= r < NumPoints
    decreases i + 1
  {
    if i >= 0 && v < limits[i] then SegmentFrom(v, limits, i - 1, i) else index
  }

  /** The affine piece applied to v. */
  function Segment(v: real, limits: seq<real>): (r: int)
    requires |limits| == NumPoints
    ensures 0 <= r < NumPoints
  {
    SegmentFrom(v, limits, NumPoints - 1, NumPoints - 1)
  }

  /** The search loop, as written, yields Segment. */
  method FindSegment(v: real, limits: seq<real>) returns (index: int)
    requires |limits| == NumPoints
    ensures index == Segment(v, limits)
  {
    index := NumPoints - 1;
    var i := index;
    while i >= 0 && v < limits[i]
      invariant -1 <= i < NumPoints && 0 <= index < NumPoints
      invariant SegmentFrom(v, limits, i, index) == Segment(v, limits)
      decreases i
    {
      index := i;
      i := i - 1;
    }
  }

  lemma {:induction false} SegmentFromRun(v: real, limits: seq<real>, i: int)
    requires |limits| == NumPoints && -1 <= i < NumPoints - 1
    requires forall j :: i < j < NumPoints ==> v < limits[j]
    ensures var r := SegmentFrom(v, limits, i, i + 1);
      (forall j :: r <= j < NumPoints ==> v < limits[j]) && (r == 0 || limits[r - 1] <= v)
    decreases i + 1
  {
    if i >= 0 && v < limits[i] {
      SegmentFromRun(v, limits, i - 1);
    }
  }

  /** What the search finds: the top piece when v is at or above the last
      limit; otherwise the lowest index of the unbroken run of limits, ending
      at the top, that all lie above v. */
  lemma SegmentRun(v: real, limits: seq<real>)
    requires |limits| == NumPoints
    ensures limits[NumPoints - 1] <= v ==> Segment(v, limits) == NumPoints - 1
    ensures v < limits[NumPoints - 1] ==>
      var r := Segment(v, limits);
      (forall j :: r <= j < NumPoints ==> v < limits[j]) && (r == 0 || limits[r - 1] <= v)
  {
    if v < limits[NumPoints - 1] {
      SegmentFromRun(v, limits, NumPoints - 2);
    }
  }

  /** With non-decreasing limits and limits[0] <= v < limits[5], the search
      lands on the piece just above v: limits[r-1] <= v < limits[r]. It is
      one past "the highest limit not above v"; below limits[0] it is 0. */
  lemma SegmentOfSorted(v: real, limits: seq<real>)
    requires |limits| == NumPoints
    requires forall j, k :: 0 <= j < k < NumPoints ==> limits[j] <= limits[k]
    ensures v < limits[0] ==> Segment(v, limits) == 0
    ensures limits[0] <= v < limits[NumPoints - 1] ==>
      var r := Segment(v, limits); 1 <= r && limits[r - 1] <= v < limits[r]
  {
    SegmentRun(v, limits);
  }

  /** The affine piece s applied to v: v * gainFactors[s] + addOnValues[s]. */
  function LevelAt(v: real, s: int, addOns: seq<real>): real
    requires 0 <= s < NumPoints && |addOns| == NumPoints
  {
    (v * GainFactors[s]) + addOns[s]
  }

  /** One whole pass of the gain map. */
  function LevelPass(limits: seq<real>, addOns: seq<real>, v: real): real
    requires |limits| == NumPoints && |addOns| == NumPoints
  {
    LevelAt(v, Segment(v, limits), addOns)
  }

  /** k whole passes. */
  function LevelPasses(limits: seq<real>, addOns: seq<real>, v: real, k: nat): real
    requires |limits| == NumPoints && |addOns| == NumPoints
  {
    if k == 0 then v else LevelPass(limits, addOns, LevelPasses(limits, addOns, v, k - 1))
  }

  /** The weighted extra pass, skipped for weights of 0.001 and below. */
  function LevelFraction(limits: seq<real>, addOns: seq<real>, v: real, frac: real): real
    requires |limits| == NumPoints && |addOns| == NumPoints
  {
    if frac > 0.001 then FractionAt(v, Segment(v, limits), addOns, frac) else v
  }

  /** v moved by frac times what piece s would add to it. */
  function FractionAt(v: real, s: int, addOns: seq<real>, frac: real): real
    requires 0 <= s < NumPoints && |addOns| == NumPoints
  {
    v + frac * ((v * (GainFactors[s] - 1.0)) + addOns[s])
  }

  /** One entry: numPasses whole passes from v, then the fractional pass. */
  function LevellerEntry(limits: seq<real>, addOns: seq<real>, numPasses: nat, frac: real, v: real): real
    requires |limits| == NumPoints && |addOns| == NumPoints
  {
    LevelFraction(limits, addOns, LevelPasses(limits, addOns, v, numPasses), frac)
  }

  /** Positive half of the Leveller table for a linear noise floor,
      numPasses whole passes and a fractional pass of weight frac. */
  function LevellerHalf(noiseFloor: real, numPasses: nat, frac: real): (pos: seq<real>)
    ensures |pos| == STEPS + 1
  {
    var limits := GainLimits(noiseFloor);
    var addOns := AddOns(limits);
    seq(STEPS + 1, k => LevellerEntry(limits, addOns, numPasses, frac, k as real / STEPS as real))
  }

  lemma LevellerHalfAt(noiseFloor: real, numPasses: nat, frac: real, k: nat)
    requires k <= STEPS
    ensures LevellerHalf(noiseFloor, numPasses, frac)[k]
         == LevellerEntry(GainLimits(noiseFloor), AddOns(GainLimits(noiseFloor)), numPasses, frac, k as real / STEPS as real)
  {
  }

  lemma {:induction false} PassesFixZero(limits: seq<real>, k: nat)
    requires |limits| == NumPoints && Segment(0.0, limits) == 0
    ensures LevelPasses(limits, AddOns(limits), 0.0, k) == 0.0
  {
    AddOnsContinuous(limits, 0);
    if k > 0 {
      PassesFixZero(limits, k - 1);
    }
  }

  /** With a positive noise floor every limit lies above 0, so the origin
      uses the first piece, whose offset is 0: entry STEPS stays 0 through
      every pass and through the fractional pass. */
  lemma LevellerKeepsOrigin(noiseFloor: real, numPasses: nat, frac: real)
    requires 0.0 < noiseFloor
    ensures LevellerHalf(noiseFloor, numPasses, frac)[0] == 0.0
  {
    var limits := GainLimits(noiseFloor);
    SegmentRun(0.0, limits);
    PassesFixZero(limits, numPasses);
    AddOnsContinuous(limits, 0);
  }

  /** With no whole passes and a negligible fraction, the positive half is
      the identity ramp. */
  lemma LevellerIdentity(noiseFloor: real, frac: real)
    requires frac <= 0.001
    ensures forall k :: 0 <= k <= STEPS ==> LevellerHalf(noiseFloor, 0, frac)[k] == k as real / STEPS as real
  {
  }
}
