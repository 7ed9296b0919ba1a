/** Element-wise arithmetic on sampled transfer functions.

    A transfer function is held as one complex sample per frequency of a
    shared grid; numpy combines two such arrays sample by sample, which is
    what each function here does. */
module Spectrum {
  import opened ComplexArith

  /** A transfer function sampled on a frequency grid. */
  type Series = seq<Complex>

  predicate AllNonZero(s: Series) {
    forall i :: 0 <= i < |s| ==> NonZero(s[i])
  }

  /** a + b */
  function Plus(a: Series, b: Series): (r: Series)
    requires |a| == |b|
    ensures |r| == |a|
  {
    seq(|a|, i requires 0 <= i < |a| => Add(a[i], b[i]))
  }

  /** a * b */
  function Times(a: Series, b: Series): (r: Series)
    requires |a| == |b|
    ensures |r| == |a|
  {
    seq(|a|, i requires 0 <= i < |a| => Mul(a[i], b[i]))
  }

  /** a / b, defined where b has no zero sample; each quotient times its divisor is the dividend. */
  function Over(a: Series, b: Series): (r: Series)
    requires |a| == |b| && AllNonZero(b)
    ensures |r| == |a|
    ensures forall i :: 0 <= i < |a| ==> Mul(r[i], b[i]) == a[i]
  {
    seq(|a|, i requires 0 <= i < |a| => Div(a[i], b[i]))
  }

  /** a * k for a real scalar k. */
  function Scaled(a: Series, k: real): (r: Series)
    ensures |r| == |a|
  {
    seq(|a|, i requires 0 <= i < |a| => Scale(a[i], k))
  }

  /** a * z for a complex scalar z. */
  function TimesScalar(a: Series, z: Complex): (r: Series)
    ensures |r| == |a|
  {
    seq(|a|, i requires 0 <= i < |a| => Mul(a[i], z))
  }

  /** 1.0 + a */
  function OnePlus(a: Series): (r: Series)
    ensures |r| == |a|
  {
    seq(|a|, i requires 0 <= i < |a| => Add(One, a[i]))
  }

  /** 1.0 / a: the sample-wise inverse, itself free of zeros. */
  function Reciprocal(a: Series): (r: Series)
    requires AllNonZero(a)
    ensures |r| == |a| && AllNonZero(r)
    ensures forall i :: 0 <= i < |a| ==> Mul(a[i], r[i]) == One && Mul(r[i], a[i]) == One
  {
    seq(|a|, i requires 0 <= i < |a| => Inv(a[i]))
  }

  /** The cavity-pole factor 1 + j f / fc at one frequency; its real part is 1, so it is never zero. */
  function PoleFactor(f: real, fc: real): (p: Complex)
    requires fc != 0.0
    ensures NonZero(p)
  {
    var t := f / fc;
    UnitRealPart(t);
    Complex(1.0, t)
  }

  lemma UnitRealPart(t: real)
    ensures NonZero(Complex(1.0, t))
  {
    if t < 0.0 {
      assert t * t == (-t) * (-t);
    }
    assert t * t >= 0.0;
  }

  /** The pole factor 1 + j freq / fc at every frequency of the grid. */
  function PoleFactors(freq: seq<real>, fc: real): (r: Series)
    requires fc != 0.0
    ensures |r| == |freq| && AllNonZero(r)
  {
    seq(|freq|, i requires 0 <= i < |freq| => PoleFactor(freq[i], fc))
  }

  /** The real part of every sample (numpy.real). */
  function RealParts(z: Series): (r: seq<real>)
    ensures |r| == |z|
  {
    seq(|z|, i requires 0 <= i < |z| => z[i].re)
  }
}
