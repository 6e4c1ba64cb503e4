/**
 * Apcomplex abstracted to an exact pair of reals. Precision rounding (Apfloat) and IEEE rounding
 * (the double path) are not modelled; the transcendental library calls are the uninterpreted
 * members of a MathLib value that every evaluation takes as a parameter.
 */
module Complex {
  import opened Results

  datatype Complex = Complex(re: real, im: real)

  const Zero := Complex(0.0, 0.0)
  const One := Complex(1.0, 0.0)   // Apcomplex.ONE
  const Two := Complex(2.0, 0.0)

  function Add(x: Complex, y: Complex): Complex {
    Complex(x.re + y.re, x.im + y.im)
  }

  function Mul(x: Complex, y: Complex): Complex {
    Complex(x.re * y.re - x.im * y.im, x.re * y.im + x.im * y.re)
  }

  /** re^2 + im^2, the quantity every escape test compares with the squared threshold. */
  function NormSq(z: Complex): real {
    z.re * z.re + z.im * z.im
  }

  /** Exact complex quotient; only defined for a divisor of non-zero norm. */
  function Div(x: Complex, y: Complex): Complex
    requires NormSq(y) != 0.0
  {
    var d := NormSq(y);
    Complex((x.re * y.re + x.im * y.im) / d, (x.im * y.re - x.re * y.im) / d)
  }

  /**
   * Apcomplex.divide: throws on an exact zero divisor. A complex number is zero exactly when its
   * squared norm is, and the test is written on the norm so that Div's precondition is immediate.
   */
  function Divide(x: Complex, y: Complex): (r: Result<Complex, Failure>)
    ensures r.Err? <==> NormSq(y) == 0.0
    ensures r.Err? ==> r.error == DivisionByZero
    ensures r.Ok? ==> Mul(r.value, y) == x
  {
    if NormSq(y) == 0.0 then Err(DivisionByZero)
    else
      DivTimesDivisor(x, y);
      Ok(Div(x, y))
  }

  /** The library functions the core calls but whose numerics are out of scope. */
  datatype MathLib = MathLib(
    pow: (Complex, Complex) -> Complex,                          // ApcomplexMath.pow
    sin: Complex -> Complex,                                     // ApcomplexMath.sin
    gamma: Complex -> Complex,                                   // ApcomplexMath.gamma
    hyp2f1: (Complex, Complex, Complex, Complex) -> Complex)     // ApcomplexMath.hypergeometric2F1

  /** The laws of the general power that the Mandelbrot comparison relies on: x^1 = x and x^2 = x*x. */
  ghost predicate IntegerPowersExact(lib: MathLib) {
    forall x :: lib.pow(x, One) == x && lib.pow(x, Two) == Mul(x, x)
  }

  lemma MulIdentity(x: Complex)
    ensures Mul(x, One) == x && Mul(One, x) == x
    ensures Mul(Zero, x) == Zero && Add(x, Zero) == x
  {
  }

  /** Division is the inverse of multiplication. */
  lemma DivTimesDivisor(x: Complex, y: Complex)
    requires NormSq(y) != 0.0
    ensures Mul(Div(x, y), y) == x
  {
  }

  lemma DivideByOne(x: Complex)
    ensures Divide(x, One) == Ok(x)
  {
  }

  /** z * z + c is c when z is the origin. */
  lemma SquarePlusAtOrigin(z: Complex, c: Complex)
    requires z.re == 0.0 && z.im == 0.0
    ensures Add(Mul(z, z), c) == c
  {
  }

  /** The closed-form update of the double path is complex z*z + c, coordinate by coordinate. */
  lemma SquarePlusClosedForm(z: Complex, c: Complex)
    ensures Add(Mul(z, z), c).re == z.re * z.re - z.im * z.im + c.re
    ensures Add(Mul(z, z), c).im == 2.0 * z.re * z.im + c.im
  {
  }
}
