/** The calibration model of one detector epoch t0 (pycbc_cal/cal.py).

    A Calibration holds the reference transfer functions measured at t0 --
    the sensing function c0 and its inverse, the digital filter d0 and the
    two actuation paths a_tst0 (test mass) and a_pu0 (penultimate mass) --
    and derives from them the reference open-loop gain g0, the reference
    response r0 and, when the cavity pole fc0 is known, the residual c_res
    of c0 with the pole factored out. The update functions rebuild the
    sensing function C, open-loop gain G and response R for scalar
    corrections of the cavity pole and of the sensing and actuation
    strengths. All fields are constants: nothing changes them after
    construction. */
module Cal {
  import opened ComplexArith
  import opened Spectrum

  datatype Option<T> = None | Some(value: T)

  /** Why a calibration operation has no result. */
  datatype CalError =
    | InvalidInput      // neither c0 nor invc0 was supplied
    | MissingReference  // a pole-dependent update on a model built without fc0

  datatype Result<T> = Success(value: T) | Failure(error: CalError)

  /** The reference sensing function and its inverse. */
  datatype SensingPair = SensingPair(c0: Series, invc0: Series)

  /** How the constructor settles c0 and invc0: whichever is given, the other
      is its sample-wise reciprocal, and c0 wins when both are given. */
  function SensingReference(invc0: Option<Series>, c0: Option<Series>): (r: Result<SensingPair>)
    requires invc0.Some? ==> AllNonZero(invc0.value)
    requires c0.Some? ==> AllNonZero(c0.value)
    ensures r.Failure? <==> invc0.None? && c0.None?
    ensures r.Failure? ==> r.error == InvalidInput
    ensures c0.Some? ==> r.Success? && r.value.c0 == c0.value
    ensures c0.None? && invc0.Some? ==> r.Success? && r.value.invc0 == invc0.value
    ensures r.Success? ==>
      |r.value.invc0| == |r.value.c0| && AllNonZero(r.value.c0) &&
      forall i :: 0 <= i < |r.value.c0| ==> Mul(r.value.c0[i], r.value.invc0[i]) == One
  {
    if c0.Some? then Success(SensingPair(c0.value, Reciprocal(c0.value)))
    else if invc0.Some? then Success(SensingPair(Reciprocal(invc0.value), invc0.value))
    else Failure(InvalidInput)
  }

  /** The open-loop gain c * d * (aTst + aPu). */
  function OpenLoopGain(c: Series, d: Series, aTst: Series, aPu: Series): (g: Series)
    requires |d| == |c| && |aTst| == |c| && |aPu| == |c|
    ensures |g| == |c|
  {
    Times(Times(c, d), Plus(aTst, aPu))
  }

  /** The response (1 + g) / c: times the sensing function it gives back 1 + g. */
  function Response(g: Series, c: Series): (r: Series)
    requires |g| == |c| && AllNonZero(c)
    ensures |r| == |c|
    ensures forall i :: 0 <= i < |c| ==> Mul(r[i], c[i]) == Add(One, g[i])
  {
    Over(OnePlus(g), c)
  }

  class Calibration {
    const freq: seq<real>
    const fc0: Option<real>
    const invc0: Series
    const c0: Series
    const d0: Series
    const aTst0: Series
    const aPu0: Series
    const g0: Series
    const r0: Series
    const cRes: Option<Series>

    /** Every array lies on the grid freq, c0 has no zero and invc0 is its
        inverse, and the derived fields are what the constructor computes. */
    ghost predicate Valid() {
      |c0| == |freq| && |invc0| == |freq| && |d0| == |freq| &&
      |aTst0| == |freq| && |aPu0| == |freq| &&
      AllNonZero(c0) &&
      (forall i :: 0 <= i < |freq| ==> Mul(c0[i], invc0[i]) == One) &&
      g0 == OpenLoopGain(c0, d0, aTst0, aPu0) &&
      r0 == Response(g0, c0) &&
      (cRes.Some? <==> fc0.Some?) &&
      (fc0.Some? ==> fc0.value != 0.0 && cRes.value == Times(c0, PoleFactors(freq, fc0.value)))
    }

    constructor (freq: Series, fc0: Option<real>, invc0: Option<Series>, c0: Option<Series>,
                 d0: Series, aTst0: Series, aPu0: Series)
      requires invc0.Some? || c0.Some?
      requires invc0.Some? ==> AllNonZero(invc0.value)
      requires c0.Some? ==> AllNonZero(c0.value) && |c0.value| == |freq|
      requires c0.None? && invc0.Some? ==> |invc0.value| == |freq|
      requires |d0| == |freq| && |aTst0| == |freq| && |aPu0| == |freq|
      requires fc0.Some? ==> fc0.value != 0.0
      ensures Valid()
      ensures this.freq == RealParts(freq) && this.fc0 == fc0
      ensures SensingReference(invc0, c0) == Success(SensingPair(this.c0, this.invc0))
      ensures this.d0 == d0 && this.aTst0 == aTst0 && this.aPu0 == aPu0
      ensures this.g0 == OpenLoopGain(this.c0, d0, aTst0, aPu0)
      ensures this.r0 == Response(this.g0, this.c0)
      ensures this.cRes.Some? <==> fc0.Some?
      ensures fc0.Some? ==> this.cRes.value == Times(this.c0, PoleFactors(this.freq, fc0.value))
    {
      var grid := RealParts(freq);
      this.freq := grid;
      var sensing: Series, inverse: Series := [], [];
      if invc0.Some? {
        inverse := invc0.value;
        sensing := Reciprocal(invc0.value);
      }
      if c0.Some? {
        inverse := Reciprocal(c0.value);
        sensing := c0.value;
      }
      this.invc0 := inverse;
      this.c0 := sensing;
      this.d0 := d0;
      this.aTst0 := aTst0;
      this.aPu0 := aPu0;
      this.fc0 := fc0;
      var gain := OpenLoopGain(sensing, d0, aTst0, aPu0);
      this.g0 := gain;
      this.r0 := Response(gain, sensing);
      if fc0.Some? {
        this.cRes := Some(Times(sensing, PoleFactors(grid, fc0.value)));
      } else {
        this.cRes := None;
      }
    }

    /** The sensing function C = c_res * kappa_c / (1 + j f / (fc0 + deltaFc)). Times the
        shifted pole factor it is kappa_c times c0 times the reference pole factor. */
    function UpdateC(deltaFc: real, kappaC: real): (r: Result<Series>)
      requires Valid()
      requires fc0.Some? ==> fc0.value + deltaFc != 0.0
      ensures r.Failure? <==> fc0.None?
      ensures r.Failure? ==> r.error == MissingReference
      ensures r.Success? ==> |r.value| == |freq|
      ensures r.Success? ==> forall i :: 0 <= i < |freq| ==>
        Mul(r.value[i], PoleFactor(freq[i], fc0.value + deltaFc))
          == Scale(Mul(c0[i], PoleFactor(freq[i], fc0.value)), kappaC)
    {
      if fc0.None? then Failure(MissingReference)
      else
        var fc := fc0.value + deltaFc;
        Success(Over(Scaled(cRes.value, kappaC), PoleFactors(freq, fc)))
    }

    /** The open-loop gain G = C * d0 * (a_tst0 * kappa_tst + a_pu0 * kappa_pu). */
    function UpdateG(deltaFc: real, kappaC: real, kappaTstRe: real, kappaTstIm: real,
                     kappaPuRe: real, kappaPuIm: real): (r: Result<Series>)
      requires Valid()
      requires fc0.Some? ==> fc0.value + deltaFc != 0.0
      ensures r.Failure? <==> fc0.None?
      ensures r.Failure? ==> r.error == MissingReference
      ensures r.Success? ==> |r.value| == |freq|
      ensures r.Success? ==> forall i :: 0 <= i < |freq| ==>
        Mul(r.value[i], PoleFactor(freq[i], fc0.value + deltaFc))
          == Scale(Mul(Mul(Mul(c0[i], PoleFactor(freq[i], fc0.value)), d0[i]),
                       ActuationAt(this, i, Complex(kappaTstRe, kappaTstIm), Complex(kappaPuRe, kappaPuIm))),
                   kappaC)
    {
      match UpdateC(deltaFc, kappaC)
      case Failure(e) => Failure(e)
      case Success(c) =>
        var kt, kp := Complex(kappaTstRe, kappaTstIm), Complex(kappaPuRe, kappaPuIm);
        var aTst := TimesScalar(aTst0, kt);
        var aPu := TimesScalar(aPu0, kp);
        GainScalesWithSensing(c, PoleFactors(freq, fc0.value + deltaFc), cRes.value, kappaC, d0, aTst0, aPu0, kt, kp);
        Success(OpenLoopGain(c, d0, aTst, aPu))
    }

    /** The response R = (1 + G) / C for one set of corrections: R * C = 1 + G. */
    function UpdateR(deltaFc: real, kappaC: real, kappaTstRe: real, kappaTstIm: real,
                     kappaPuRe: real, kappaPuIm: real): (r: Result<Series>)
      requires Valid()
      requires fc0.Some? ==> fc0.value + deltaFc != 0.0
      requires fc0.Some? ==> kappaC != 0.0
      ensures r.Failure? <==> fc0.None?
      ensures r.Failure? ==> r.error == MissingReference
      ensures r.Success? ==> |r.value| == |freq|
      ensures r.Success? ==> forall i :: 0 <= i < |freq| ==>
        Mul(r.value[i], UpdateC(deltaFc, kappaC).value[i])
          == Add(One, UpdateG(deltaFc, kappaC, kappaTstRe, kappaTstIm, kappaPuRe, kappaPuIm).value[i])
    {
      match UpdateC(deltaFc, kappaC)
      case Failure(e) => Failure(e)
      case Success(c) =>
        var g := UpdateG(deltaFc, kappaC, kappaTstRe, kappaTstIm, kappaPuRe, kappaPuIm).value;
        SensingNonZero(this, deltaFc, kappaC);
        Success(Response(g, c))
    }
  }

  /** The total actuation a_tst0 * kappa_tst + a_pu0 * kappa_pu at one frequency. */
  function ActuationAt(cal: Calibration, i: int, kappaTst: Complex, kappaPu: Complex): (a: Complex)
    requires cal.Valid() && 0 <= i < |cal.freq|
    ensures kappaTst == One && kappaPu == One ==> a == Add(cal.aTst0[i], cal.aPu0[i])
    ensures kappaPu == Zero ==> a == Mul(cal.aTst0[i], kappaTst)
    ensures kappaTst == Zero ==> a == Mul(cal.aPu0[i], kappaPu)
  {
    MulOne(cal.aTst0[i]);
    MulOne(cal.aPu0[i]);
    MulZero(cal.aTst0[i]);
    MulZero(cal.aPu0[i]);
    AddZero(Mul(cal.aTst0[i], kappaTst));
    AddZero(Mul(cal.aPu0[i], kappaPu));
    Add(Mul(cal.aTst0[i], kappaTst), Mul(cal.aPu0[i], kappaPu))
  }

  /** One sample of the gain: if c * p = k * x then (c * d * a) * p = k * (x * d * a). */
  lemma GainSample(c: Complex, p: Complex, x: Complex, k: real, d: Complex, a: Complex)
    requires Mul(c, p) == Scale(x, k)
    ensures Mul(Mul(Mul(c, d), a), p) == Scale(Mul(Mul(x, d), a), k)
  {
    var m := Mul(d, a);
    calc {
      Mul(Mul(Mul(c, d), a), p);
      { MulAssoc(c, d, a); }
      Mul(Mul(c, m), p);
      { MulAssoc(c, m, p); MulComm(m, p); }
      Mul(c, Mul(p, m));
      { MulAssoc(c, p, m); }
      Mul(Scale(x, k), m);
      { ScaleMul(x, m, k); }
      Scale(Mul(x, m), k);
      { MulAssoc(x, d, a); }
      Scale(Mul(Mul(x, d), a), k);
    }
  }

  /** The gain built on a sensing function c with c * p = k * x at every sample
      is, times p, k times the gain built on x. */
  lemma GainScalesWithSensing(c: Series, p: Series, x: Series, k: real,
                              d: Series, aTst: Series, aPu: Series, kt: Complex, kp: Complex)
    requires |p| == |c| && |x| == |c| && |d| == |c| && |aTst| == |c| && |aPu| == |c|
    requires forall i :: 0 <= i < |c| ==> Mul(c[i], p[i]) == Scale(x[i], k)
    ensures forall i :: 0 <= i < |c| ==>
      Mul(OpenLoopGain(c, d, TimesScalar(aTst, kt), TimesScalar(aPu, kp))[i], p[i])
        == Scale(Mul(Mul(x[i], d[i]), Add(Mul(aTst[i], kt), Mul(aPu[i], kp))), k)
  {
    var g := OpenLoopGain(c, d, TimesScalar(aTst, kt), TimesScalar(aPu, kp));
    forall i | 0 <= i < |c|
      ensures Mul(g[i], p[i]) == Scale(Mul(Mul(x[i], d[i]), Add(Mul(aTst[i], kt), Mul(aPu[i], kp))), k)
    {
      GainSample(c[i], p[i], x[i], k, d[i], Add(Mul(aTst[i], kt), Mul(aPu[i], kp)));
    }
  }

  /** With a non-zero kappa_c the corrected sensing function has no zero, so R is defined. */
  lemma SensingNonZero(cal: Calibration, deltaFc: real, kappaC: real)
    requires cal.Valid() && cal.fc0.Some? && cal.fc0.value + deltaFc != 0.0
    requires kappaC != 0.0
    ensures AllNonZero(cal.UpdateC(deltaFc, kappaC).value)
  {
    var c := cal.UpdateC(deltaFc, kappaC).value;
    var fc0, fc := cal.fc0.value, cal.fc0.value + deltaFc;
    forall i | 0 <= i < |c|
      ensures NonZero(c[i])
    {
      var p0, p := PoleFactor(cal.freq[i], fc0), PoleFactor(cal.freq[i], fc);
      var res := cal.cRes.value[i];
      assert res == Mul(cal.c0[i], p0);
      MulNonZero(cal.c0[i], p0);
      ScaleNonZero(res, kappaC);
      assert c[i] == Div(Scale(res, kappaC), p);
      DivNonZero(Scale(res, kappaC), p);
    }
  }

  /** At the reference pole and kappa_c = 1 the sensing function is c0 again:
      the pole factor multiplied into c_res is divided back out. */
  lemma SensingAtIdentity(cal: Calibration)
    requires cal.Valid() && cal.fc0.Some?
    ensures cal.UpdateC(0.0, 1.0) == Success(cal.c0)
  {
    var c := cal.UpdateC(0.0, 1.0).value;
    forall i | 0 <= i < |c|
      ensures c[i] == cal.c0[i]
    {
      var p := PoleFactor(cal.freq[i], cal.fc0.value);
      assert cal.fc0.value + 0.0 == cal.fc0.value;
      assert c[i] == Div(Scale(Mul(cal.c0[i], p), 1.0), p);
      assert Scale(Mul(cal.c0[i], p), 1.0) == Mul(cal.c0[i], p);
      MulDivCancel(cal.c0[i], p);
    }
    assert c == cal.c0;
  }

  /** The sensing function is linear in kappa_c: scaling kappa_c by s scales C by s. */
  lemma SensingLinearInKappa(cal: Calibration, deltaFc: real, kappaC: real, s: real)
    requires cal.Valid() && cal.fc0.Some? && cal.fc0.value + deltaFc != 0.0
    ensures cal.UpdateC(deltaFc, s * kappaC).Success?
    ensures cal.UpdateC(deltaFc, s * kappaC).value == Scaled(cal.UpdateC(deltaFc, kappaC).value, s)
  {
    var scaled, base := cal.UpdateC(deltaFc, s * kappaC).value, cal.UpdateC(deltaFc, kappaC).value;
    var fc := cal.fc0.value + deltaFc;
    forall i | 0 <= i < |scaled|
      ensures scaled[i] == Scale(base[i], s)
    {
      var p := PoleFactor(cal.freq[i], fc);
      var res := cal.cRes.value[i];
      assert scaled[i] == Div(Scale(res, s * kappaC), p);
      assert base[i] == Div(Scale(res, kappaC), p);
      ScaleScale(res, kappaC, s);
      DivScale(Scale(res, kappaC), p, s);
    }
  }

  /** At the identity corrections the open-loop gain is the reference g0. */
  lemma GainAtIdentity(cal: Calibration)
    requires cal.Valid() && cal.fc0.Some?
    ensures cal.UpdateG(0.0, 1.0, 1.0, 0.0, 1.0, 0.0) == Success(cal.g0)
  {
    SensingAtIdentity(cal);
    var aTst := TimesScalar(cal.aTst0, One);
    var aPu := TimesScalar(cal.aPu0, One);
    forall i | 0 <= i < |cal.freq|
      ensures aTst[i] == cal.aTst0[i] && aPu[i] == cal.aPu0[i]
    {
      MulOne(cal.aTst0[i]);
      MulOne(cal.aPu0[i]);
    }
    assert aTst == cal.aTst0 && aPu == cal.aPu0;
  }

  /** The open-loop gain is additive over the two actuation stages: G with both
      corrections is G with only the test-mass stage plus G with only the
      penultimate stage. */
  lemma GainSplitsByStage(cal: Calibration, deltaFc: real, kappaC: real,
                          kappaTstRe: real, kappaTstIm: real, kappaPuRe: real, kappaPuIm: real)
    requires cal.Valid() && cal.fc0.Some? && cal.fc0.value + deltaFc != 0.0
    ensures cal.UpdateG(deltaFc, kappaC, kappaTstRe, kappaTstIm, kappaPuRe, kappaPuIm).value
         == Plus(cal.UpdateG(deltaFc, kappaC, kappaTstRe, kappaTstIm, 0.0, 0.0).value,
                 cal.UpdateG(deltaFc, kappaC, 0.0, 0.0, kappaPuRe, kappaPuIm).value)
  {
    var both := cal.UpdateG(deltaFc, kappaC, kappaTstRe, kappaTstIm, kappaPuRe, kappaPuIm).value;
    var tst := cal.UpdateG(deltaFc, kappaC, kappaTstRe, kappaTstIm, 0.0, 0.0).value;
    var pu := cal.UpdateG(deltaFc, kappaC, 0.0, 0.0, kappaPuRe, kappaPuIm).value;
    var c := cal.UpdateC(deltaFc, kappaC).value;
    var kt, kp := Complex(kappaTstRe, kappaTstIm), Complex(kappaPuRe, kappaPuIm);
    forall i | 0 <= i < |both|
      ensures both[i] == Add(tst[i], pu[i])
    {
      var cd := Mul(c[i], cal.d0[i]);
      var at, ap := Mul(cal.aTst0[i], kt), Mul(cal.aPu0[i], kp);
      assert both[i] == Mul(cd, Add(at, ap));
      assert tst[i] == Mul(cd, Add(at, Mul(cal.aPu0[i], Zero)));
      assert pu[i] == Mul(cd, Add(Mul(cal.aTst0[i], Zero), ap));
      MulZero(cal.aTst0[i]);
      MulZero(cal.aPu0[i]);
      AddZero(at);
      AddZero(ap);
      MulAddDistrib(cd, at, ap);
    }
  }

  /** The open-loop gain inherits the linearity of C in kappa_c. */
  lemma GainLinearInKappa(cal: Calibration, deltaFc: real, kappaC: real, s: real,
                          kappaTstRe: real, kappaTstIm: real, kappaPuRe: real, kappaPuIm: real)
    requires cal.Valid() && cal.fc0.Some? && cal.fc0.value + deltaFc != 0.0
    ensures cal.UpdateG(deltaFc, s * kappaC, kappaTstRe, kappaTstIm, kappaPuRe, kappaPuIm).value
         == Scaled(cal.UpdateG(deltaFc, kappaC, kappaTstRe, kappaTstIm, kappaPuRe, kappaPuIm).value, s)
  {
    var scaled := cal.UpdateG(deltaFc, s * kappaC, kappaTstRe, kappaTstIm, kappaPuRe, kappaPuIm).value;
    var base := cal.UpdateG(deltaFc, kappaC, kappaTstRe, kappaTstIm, kappaPuRe, kappaPuIm).value;
    var c := cal.UpdateC(deltaFc, kappaC).value;
    SensingLinearInKappa(cal, deltaFc, kappaC, s);
    var kt, kp := Complex(kappaTstRe, kappaTstIm), Complex(kappaPuRe, kappaPuIm);
    forall i | 0 <= i < |scaled|
      ensures scaled[i] == Scale(base[i], s)
    {
      var a := ActuationAt(cal, i, kt, kp);
      assert scaled[i] == Mul(Mul(Scale(c[i], s), cal.d0[i]), a);
      assert base[i] == Mul(Mul(c[i], cal.d0[i]), a);
      ScaleIsMul(c[i], s);
      ScaleIsMul(base[i], s);
      MulAssoc(c[i], FromReal(s), cal.d0[i]);
      MulComm(FromReal(s), cal.d0[i]);
      MulAssoc(c[i], cal.d0[i], FromReal(s));
      MulAssoc(Mul(c[i], cal.d0[i]), FromReal(s), a);
      MulComm(FromReal(s), a);
      MulAssoc(Mul(c[i], cal.d0[i]), a, FromReal(s));
    }
  }

  /** At the identity corrections the response is the reference r0. */
  lemma ResponseAtIdentity(cal: Calibration)
    requires cal.Valid() && cal.fc0.Some?
    ensures cal.UpdateR(0.0, 1.0, 1.0, 0.0, 1.0, 0.0) == Success(cal.r0)
  {
    SensingAtIdentity(cal);
    GainAtIdentity(cal);
  }

  /** One sample of (1 + c d a) / c is 1/c + d a. */
  lemma ResponseSampleSplit(c: Complex, d: Complex, a: Complex)
    requires NonZero(c)
    ensures Div(Add(One, Mul(Mul(c, d), a)), c) == Add(Inv(c), Mul(d, a))
  {
    var da := Mul(d, a);
    calc {
      Mul(Mul(c, d), a);
      { MulAssoc(c, d, a); }
      Mul(c, da);
      { MulComm(c, da); }
      Mul(da, c);
    }
    DivAdd(One, Mul(da, c), c);
    MulDivCancel(da, c);
  }

  /** The response separates into the inverse sensing function plus the
      actuation path: R = 1/C + d0 * (a_tst0 * kappa_tst + a_pu0 * kappa_pu). */
  lemma ResponseSplit(cal: Calibration, deltaFc: real, kappaC: real,
                      kappaTstRe: real, kappaTstIm: real, kappaPuRe: real, kappaPuIm: real)
    requires cal.Valid() && cal.fc0.Some? && cal.fc0.value + deltaFc != 0.0
    requires kappaC != 0.0
    ensures AllNonZero(cal.UpdateC(deltaFc, kappaC).value)
    ensures forall i :: 0 <= i < |cal.freq| ==>
      cal.UpdateR(deltaFc, kappaC, kappaTstRe, kappaTstIm, kappaPuRe, kappaPuIm).value[i]
        == Add(Inv(cal.UpdateC(deltaFc, kappaC).value[i]),
               Mul(cal.d0[i], ActuationAt(cal, i, Complex(kappaTstRe, kappaTstIm), Complex(kappaPuRe, kappaPuIm))))
  {
    var c := cal.UpdateC(deltaFc, kappaC).value;
    var r := cal.UpdateR(deltaFc, kappaC, kappaTstRe, kappaTstIm, kappaPuRe, kappaPuIm).value;
    var g := cal.UpdateG(deltaFc, kappaC, kappaTstRe, kappaTstIm, kappaPuRe, kappaPuIm).value;
    var kt, kp := Complex(kappaTstRe, kappaTstIm), Complex(kappaPuRe, kappaPuIm);
    SensingNonZero(cal, deltaFc, kappaC);
    forall i | 0 <= i < |cal.freq|
      ensures r[i] == Add(Inv(c[i]), Mul(cal.d0[i], ActuationAt(cal, i, kt, kp)))
    {
      var a := ActuationAt(cal, i, kt, kp);
      assert g[i] == Mul(Mul(c[i], cal.d0[i]), a);
      assert r[i] == Div(Add(One, g[i]), c[i]);
      ResponseSampleSplit(c[i], cal.d0[i], a);
    }
  }

  /** The reference response separates the same way: r0 = invc0 + d0 * (a_tst0 + a_pu0). */
  lemma ReferenceResponseSplit(cal: Calibration)
    requires cal.Valid()
    ensures forall i :: 0 <= i < |cal.freq| ==>
      cal.r0[i] == Add(cal.invc0[i], Mul(cal.d0[i], Add(cal.aTst0[i], cal.aPu0[i])))
  {
    forall i | 0 <= i < |cal.freq|
      ensures cal.r0[i] == Add(cal.invc0[i], Mul(cal.d0[i], Add(cal.aTst0[i], cal.aPu0[i])))
    {
      var c := cal.c0[i];
      var a := Add(cal.aTst0[i], cal.aPu0[i]);
      assert cal.g0[i] == Mul(Mul(c, cal.d0[i]), a);
      assert cal.r0[i] == Div(Add(One, cal.g0[i]), c);
      ResponseSampleSplit(c, cal.d0[i], a);
      InvUnique(c, cal.invc0[i]);
    }
  }

  /** A worked epoch: unit sensing and filter, actuation split evenly between the
      two stages, give g0 = 1 and r0 = 2 at every frequency. */
  lemma WorkedEpoch()
    ensures var ones := [One, One, One, One];
            var halves := [Complex(0.5, 0.0), Complex(0.5, 0.0), Complex(0.5, 0.0), Complex(0.5, 0.0)];
            var g := OpenLoopGain(ones, ones, halves, halves);
            var twos := [Complex(2.0, 0.0), Complex(2.0, 0.0), Complex(2.0, 0.0), Complex(2.0, 0.0)];
            AllNonZero(ones) && g == ones && Response(g, ones) == twos
  {
  }
}
