/** Size and layout of the lookup table mTable. */
module Geometry {

  /** Table resolution: entries per unit of input amplitude (STEPS in Distortion.h). */
  const STEPS: int := 1024

  /** Entries in the table: inputs -1 .. 1 in steps of 1/STEPS. */
  const TABLESIZE: int := 2 * STEPS + 1

  /** The input amplitude that table index n stands for: n/STEPS - 1. */
  function Level(n: int): real
  {
    n as real / STEPS as real - 1.0
  }

  /** The identity transfer curve: every index holds its own input level. */
  function Ramp(): (t: seq<real>)
    ensures |t| == TABLESIZE
  {
    seq(TABLESIZE, n => Level(n))
  }

  /** The table built from its positive half pos (indices STEPS .. 2*STEPS)
      by mirroring: entry STEPS-k is the negation of entry STEPS+k. */
  function Symmetric(pos: seq<real>): (t: seq<real>)
    requires |pos| == STEPS + 1
    ensures |t| == TABLESIZE
  {
    seq(TABLESIZE, n requires 0 <= n < TABLESIZE =>
      if n < STEPS then -pos[STEPS - n] else pos[n - STEPS])
  }

  /** An odd transfer curve: entry n is the negation of its mirror image
      2*STEPS - n, so in particular the origin maps to 0. */
  predicate IsOdd(t: seq<real>)
    requires |t| == TABLESIZE
  {
    forall n :: 0 <= n <= STEPS ==> t[n] == -t[2 * STEPS - n]
  }

  /** A mirrored table keeps its positive half, mirrors it below the origin,
      and is odd exactly when its positive half starts at 0. */
  lemma SymmetricIsOdd(pos: seq<real>)
    requires |pos| == STEPS + 1
    ensures Symmetric(pos)[STEPS..] == pos
    ensures forall n :: 0 <= n < STEPS ==> Symmetric(pos)[n] == -Symmetric(pos)[2 * STEPS - n]
    ensures IsOdd(Symmetric(pos)) <==> pos[0] == 0.0
  {
    var t := Symmetric(pos);
    assert t[STEPS] == pos[0];
  }

  /** The identity ramp is odd. */
  lemma RampIsOdd()
    ensures IsOdd(Ramp())
  {
  }

  /** Mirroring the positive half of the ramp gives back the ramp. */
  lemma SymmetricRamp(pos: seq<real>)
    requires |pos| == STEPS + 1
    requires forall k :: 0 <= k <= STEPS ==> pos[k] == k as real / STEPS as real
    ensures Symmetric(pos) == Ramp()
  {
  }
}
