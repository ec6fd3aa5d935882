/** The C math library as the effect uses it.
    Transcendental functions are not computed: the model takes them as
    function values and relies only on the few facts listed in Sound().
    Two facts of real arithmetic the curves and the shaper share close it. */
module Numerics {

  /** M_PI and M_PI_2 as the effect defines them. */
  const PI: real := 3.1415926535897932384626433832795
  const PI_2: real := 1.57079632679489661923132169163975

  /** std::sqrt(3.0), written out to the precision of a double. */
  const SQRT3: real := 1.7320508075688772

  /** exp, log, sin, tanh and pow of <cmath>, left uninterpreted. */
  datatype Libm = Libm(
    exp: real -> real,
    log: real -> real,
    sin: real -> real,
    tanh: real -> real,
    pow: (real, real) -> real)
  {
    /** The facts about the library that the tables depend on. */
    ghost predicate Sound()
    {
      exp(0.0) == 1.0 &&
      (forall x :: 0.0 < exp(x)) &&
      (forall x :: x <= 0.0 ==> exp(x) <= 1.0) &&
      log(1.0) == 0.0 &&
      (forall x :: 1.0 < x ==> 0.0 < log(x)) &&
      sin(0.0) == 0.0 &&
      sin(-PI_2) == -1.0 &&
      (forall x :: 0.0 < x ==> 0.0 < tanh(x)) &&
      (forall e :: 0.0 < pow(2.0, e)) &&
      (forall e :: 0.0 < pow(10.0, e)) &&
      (forall e :: e <= 0.0 ==> pow(10.0, e) <= 1.0)
    }

    /** DB_TO_LINEAR(x) = 10^(x/20). */
    function DbToLinear(db: real): (lin: real)
      ensures Sound() ==> 0.0 < lin
      ensures Sound() && db <= 0.0 ==> lin <= 1.0
    {
      pow(10.0, db / 20.0)
    }
  }

  /** The product of two non-negative reals is non-negative. */
  lemma MulNonNegative(a: real, b: real)
    requires 0.0 <= a && 0.0 <= b
    ensures 0.0 <= a * b
  {
  }

  /** Multiplying by a non-negative factor preserves order. */
  lemma MulMono(a: real, b: real, c: real)
    requires 0.0 <= a && b <= c
    ensures a * b <= a * c
  {
  }
}
