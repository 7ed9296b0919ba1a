/** Exact complex arithmetic over pairs of reals.

    Every transfer function of the calibration model is sampled as complex
    numbers; numpy evaluates them in floating point, this module over the
    exact reals, so that the algebraic laws of the model hold exactly. */
module ComplexArith {

  datatype Complex = Complex(re: real, im: real)

  const Zero: Complex := Complex(0.0, 0.0)
  const One: Complex := Complex(1.0, 0.0)

  /** A real number promoted to a complex one. */
  function FromReal(x: real): (z: Complex)
    ensures z.re == x && z.im == 0.0
  {
    Complex(x, 0.0)
  }

  /** The squared modulus re^2 + im^2. */
  function NormSq(z: Complex): (n: real) {
    z.re * z.re + z.im * z.im
  }

  /** A number that may be divided by: its squared modulus is not zero. */
  predicate NonZero(z: Complex) {
    NormSq(z) != 0.0
  }

  function Add(a: Complex, b: Complex): (z: Complex) {
    Complex(a.re + b.re, a.im + b.im)
  }

  function Mul(a: Complex, b: Complex): (z: Complex) {
    Complex(a.re * b.re - a.im * b.im, a.re * b.im + a.im * b.re)
  }

  /** A complex number times a real scalar. */
  function Scale(a: Complex, k: real): (z: Complex) {
    Complex(a.re * k, a.im * k)
  }

  /** Complex division a / b; the divisor must not be zero. */
  function Div(a: Complex, b: Complex): (q: Complex)
    requires NonZero(b)
    ensures Mul(q, b) == a
  {
    var n := NormSq(b);
    var q := Complex((a.re * b.re + a.im * b.im) / n, (a.im * b.re - a.re * b.im) / n);
    DivTimesDivisor(a, b, n, q);
    q
  }

  /** The reciprocal 1 / b. */
  function Inv(b: Complex): (r: Complex)
    requires NonZero(b)
    ensures Mul(b, r) == One && Mul(r, b) == One
    ensures NonZero(r)
  {
    var r := Div(One, b);
    MulComm(r, b);
    NormSqMul(b, r);
    r
  }

  /** The step of Div's postcondition: the quotient times the divisor is the dividend. */
  lemma DivTimesDivisor(a: Complex, b: Complex, n: real, q: Complex)
    requires n == NormSq(b) && n != 0.0
    requires q == Complex((a.re * b.re + a.im * b.im) / n, (a.im * b.re - a.re * b.im) / n)
    ensures Mul(q, b) == a
  {
  }

  lemma MulComm(a: Complex, b: Complex)
    ensures Mul(a, b) == Mul(b, a)
  {
  }

  lemma MulAssoc(a: Complex, b: Complex, c: Complex)
    ensures Mul(Mul(a, b), c) == Mul(a, Mul(b, c))
  {
  }

  lemma MulOne(a: Complex)
    ensures Mul(a, One) == a && Mul(One, a) == a
  {
  }

  lemma MulZero(a: Complex)
    ensures Mul(a, Zero) == Zero
  {
  }

  lemma MulAddDistrib(a: Complex, b: Complex, c: Complex)
    ensures Mul(a, Add(b, c)) == Add(Mul(a, b), Mul(a, c))
  {
  }

  /** Scaling by a real is multiplication by that real promoted to a complex number. */
  lemma ScaleIsMul(a: Complex, k: real)
    ensures Scale(a, k) == Mul(a, FromReal(k))
  {
  }

  /** |ab|^2 = |a|^2 |b|^2. */
  lemma NormSqMul(a: Complex, b: Complex)
    ensures NormSq(Mul(a, b)) == NormSq(a) * NormSq(b)
  {
    FourSquares(a.re, a.im, b.re, b.im);
  }

  lemma FourSquares(a: real, b: real, c: real, d: real)
    ensures (a * c - b * d) * (a * c - b * d) + (a * d + b * c) * (a * d + b * c)
         == (a * a + b * b) * (c * c + d * d)
  {
  }

  lemma ProductNonZero(x: real, y: real)
    requires x != 0.0 && y != 0.0
    ensures x * y != 0.0
  {
  }

  /** The complex numbers have no zero divisors. */
  lemma MulNonZero(a: Complex, b: Complex)
    requires NonZero(a) && NonZero(b)
    ensures NonZero(Mul(a, b))
  {
    NormSqMul(a, b);
    ProductNonZero(NormSq(a), NormSq(b));
  }

  /** Division is multiplication by the reciprocal. */
  lemma DivIsMulInv(a: Complex, b: Complex)
    requires NonZero(b)
    ensures Div(a, b) == Mul(a, Inv(b))
  {
    var q, r := Div(a, b), Inv(b);
    calc {
      q;
      { MulOne(q); }
      Mul(q, One);
      Mul(q, Mul(b, r));
      { MulAssoc(q, b, r); }
      Mul(Mul(q, b), r);
      Mul(a, r);
    }
  }

  /** Multiplying by b and then dividing by b gives back the original number. */
  lemma MulDivCancel(a: Complex, b: Complex)
    requires NonZero(b)
    ensures Div(Mul(a, b), b) == a
  {
    var r := Inv(b);
    DivIsMulInv(Mul(a, b), b);
    MulAssoc(a, b, r);
    MulOne(a);
  }

  lemma DivNonZero(a: Complex, b: Complex)
    requires NonZero(a) && NonZero(b)
    ensures NonZero(Div(a, b))
  {
    DivIsMulInv(a, b);
    MulNonZero(a, Inv(b));
  }

  lemma ScaleNonZero(a: Complex, k: real)
    requires NonZero(a) && k != 0.0
    ensures NonZero(Scale(a, k))
  {
    ScaleIsMul(a, k);
    RealNonZero(k);
    MulNonZero(a, FromReal(k));
  }

  /** A non-zero real is a non-zero complex number. */
  lemma RealNonZero(k: real)
    requires k != 0.0
    ensures NonZero(FromReal(k))
  {
    var r := FromReal(1.0 / k);
    assert Mul(FromReal(k), r) == One;
    NormSqMul(FromReal(k), r);
    assert NormSq(One) == 1.0;
  }

  lemma ScaleScale(a: Complex, k: real, s: real)
    ensures Scale(Scale(a, k), s) == Scale(a, s * k)
  {
  }

  lemma ScaleMul(a: Complex, b: Complex, k: real)
    ensures Mul(Scale(a, k), b) == Scale(Mul(a, b), k)
  {
  }

  lemma AddZero(a: Complex)
    ensures Add(a, Zero) == a && Add(Zero, a) == a
  {
  }

  /** Division commutes with a real scalar factor. */
  lemma DivScale(a: Complex, b: Complex, k: real)
    requires NonZero(b)
    ensures Div(Scale(a, k), b) == Scale(Div(a, b), k)
  {
    var r := Inv(b);
    DivIsMulInv(Scale(a, k), b);
    DivIsMulInv(a, b);
    ScaleIsMul(a, k);
    ScaleIsMul(Mul(a, r), k);
    MulAssoc(a, FromReal(k), r);
    MulAssoc(a, r, FromReal(k));
    MulComm(FromReal(k), r);
  }

  /** Division distributes over a sum in the dividend. */
  lemma DivAdd(x: Complex, y: Complex, c: Complex)
    requires NonZero(c)
    ensures Div(Add(x, y), c) == Add(Div(x, c), Div(y, c))
  {
    var r := Inv(c);
    DivIsMulInv(Add(x, y), c);
    DivIsMulInv(x, c);
    DivIsMulInv(y, c);
    MulComm(Add(x, y), r);
    MulAddDistrib(r, x, y);
    MulComm(x, r);
    MulComm(y, r);
  }

  /** A number whose product with b is one is b's reciprocal. */
  lemma InvUnique(b: Complex, r: Complex)
    requires NonZero(b) && Mul(b, r) == One
    ensures r == Inv(b)
  {
    var s := Inv(b);
    calc {
      r;
      { MulOne(r); }
      Mul(One, r);
      Mul(Mul(s, b), r);
      { MulAssoc(s, b, r); }
      Mul(s, Mul(b, r));
      Mul(s, One);
      { MulOne(s); }
      s;
    }
  }
}
