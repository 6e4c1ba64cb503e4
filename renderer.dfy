/**
 * The escape-time engine: a dispatcher and three loops that iterate z from 0 and count the steps
 * before |z|^2 reaches the squared escape threshold. Each loop is proved equal to the generic count
 * of module Escape for its own step function; the lemmas then relate the three steps.
 */
module Renderer {
  import opened Results
  import opened Complex
  import opened Slots
  import opened Escape

  /** The renderer's static configuration: the iteration budget and the squared escape threshold. */
  datatype Config = Config(maxIterations: int, escapeThreshold2: real)

  /** The loop the dispatcher chooses. */
  datatype Path = Mandelbrot | MandelbrotFast | Arbitrary

  /** One step of the arbitrary-precision Mandelbrot loop: z * z + c. */
  function MandelbrotUpdate(c: Complex, z: Complex): Result<Complex, Failure> {
    Ok(Add(Mul(z, z), c))
  }

  function MandelbrotStep(c: Complex): Complex -> Result<Complex, Failure> {
    z => MandelbrotUpdate(c, z)
  }

  /** A point of the double-precision loop: (real part, imaginary part). */
  type Point = (real, real)

  /** One step of the double-precision loop, the closed form of z * z + c on the two parts. */
  function FastUpdate(cr: real, ci: real, z: Point): Result<Point, Failure> {
    Ok((z.0 * z.0 - z.1 * z.1 + cr, 2.0 * z.0 * z.1 + ci))
  }

  function FastStep(cr: real, ci: real): Point -> Result<Point, Failure> {
    z => FastUpdate(cr, ci, z)
  }

  /** zr * zr + zi * zi, the double loop's escape quantity. */
  function FastNorm(z: Point): real {
    z.0 * z.0 + z.1 * z.1
  }

  /**
   * One step of the general loop: pow((s1(z) + s2(z) + s3(z) + c) / J, K), the three slots evaluated
   * in order, the first failure (an unusable function argument, a zero J) ending the step.
   */
  function GeneralUpdate(lib: MathLib, t1: Term, t2: Term, t3: Term, c: Complex, J: Complex, K: Complex,
                         z: Complex): Result<Complex, Failure> {
    match TermValue(lib, t1, z)
    case Err(e) => Err(e)
    case Ok(v1) =>
      match TermValue(lib, t2, z)
      case Err(e) => Err(e)
      case Ok(v2) =>
        match TermValue(lib, t3, z)
        case Err(e) => Err(e)
        case Ok(v3) =>
          match Divide(Add(Add(Add(v1, v2), v3), c), J)
          case Err(e) => Err(e)
          case Ok(d) => Ok(lib.pow(d, K))
  }

  function GeneralStep(lib: MathLib, t1: Term, t2: Term, t3: Term, c: Complex, J: Complex, K: Complex)
    : Complex -> Result<Complex, Failure>
  {
    z => GeneralUpdate(lib, t1, t2, t3, c, J, K, z)
  }

  /** The fast update on the parts zr, zi, as the loop writes it through temp. */
  lemma FastUpdateAt(cr: real, ci: real, zr: real, zi: real)
    ensures FastStep(cr, ci)((zr, zi)) == Ok((zr * zr - zi * zi + cr, 2.0 * zr * zi + ci))
  {
    var z: Point := (zr, zi);
    assert FastUpdate(cr, ci, z).value.0 == zr * zr - zi * zi + cr;
    assert FastUpdate(cr, ci, z).value.1 == 2.0 * zr * zi + ci;
  }

  /** The fast norm on the parts zr, zi. */
  lemma FastNormAt(zr: real, zi: real)
    ensures FastNorm((zr, zi)) == zr * zr + zi * zi
  {
  }

  /** The fast step is the Mandelbrot step read on the two parts of z. */
  lemma FastStepIsMandelbrotStep(c: Complex, z: Complex)
    ensures FastStep(c.re, c.im)((z.re, z.im)) == Ok((Add(Mul(z, z), c).re, Add(Mul(z, z), c).im))
  {
    FastUpdateAt(c.re, c.im, z.re, z.im);
    SquarePlusClosedForm(z, c);
  }

  /** The two parts of z, the double loop's view of the Mandelbrot state. */
  function Parts(z: Complex): Point {
    (z.re, z.im)
  }

  lemma FastStepCommutes(c: Complex)
    ensures forall z :: FastStep(c.re, c.im)(Parts(z)) == Lift(Parts, MandelbrotStep(c)(z))
  {
    forall z: Complex
      ensures FastStep(c.re, c.im)(Parts(z)) == Lift(Parts, MandelbrotStep(c)(z))
    {
      FastStepIsMandelbrotStep(c, z);
    }
  }

  lemma FastNormCommutes()
    ensures forall z :: FastNorm(Parts(z)) == NormSq(z)
  {
    forall z: Complex
      ensures FastNorm(Parts(z)) == NormSq(z)
    {
      FastNormAt(z.re, z.im);
    }
  }

  /**
   * Over exact reals the double-precision loop and the arbitrary-precision Mandelbrot loop give the
   * same count for every c, threshold and budget.
   */
  lemma FastMatchesMandelbrot(c: Complex, thr: real, max: int)
    ensures EscapeTime(FastStep(c.re, c.im), FastNorm, thr, (0.0, 0.0), max)
         == EscapeTime(MandelbrotStep(c), NormSq, thr, Zero, max)
  {
    FastStepCommutes(c);
    FastNormCommutes();
    assert Parts(Zero) == (0.0, 0.0);
    EscapeTimeSimulation(MandelbrotStep(c), NormSq, FastStep(c.re, c.im), FastNorm, Parts, thr, Zero, 0, max);
  }

  /**
   * The general step with the Mandelbrot slot, two empty slots, J = K = 1 is z * z + c, given that
   * the library's powers x^1 and x^2 are exact.
   */
  lemma GeneralStepWithSentinels(lib: MathLib, c: Complex, z: Complex)
    requires IntegerPowersExact(lib)
    ensures GeneralUpdate(lib, MandelbrotTerm, EmptyTerm, EmptyTerm, c, One, One, z) == Ok(Add(Mul(z, z), c))
  {
    MandelbrotTermIsSquare(lib, z);
    EmptyTermIsZero(lib, z);
    var s := Add(Mul(z, z), c);
    GeneralUpdateOfValues(lib, MandelbrotTerm, EmptyTerm, EmptyTerm, c, One, One, z, Mul(z, z), Zero, Zero);
    assert Add(Add(Add(Mul(z, z), Zero), Zero), c) == s;
    DivideByOne(s);
    assert lib.pow(s, One) == s;
  }

  /** The general update once the three slot values are known. */
  lemma GeneralUpdateOfValues(lib: MathLib, t1: Term, t2: Term, t3: Term, c: Complex, J: Complex, K: Complex,
                              z: Complex, v1: Complex, v2: Complex, v3: Complex)
    requires TermValue(lib, t1, z) == Ok(v1) && TermValue(lib, t2, z) == Ok(v2) && TermValue(lib, t3, z) == Ok(v3)
    ensures GeneralUpdate(lib, t1, t2, t3, c, J, K, z) ==
      match Divide(Add(Add(Add(v1, v2), v3), c), J)
      case Err(e) => Err(e)
      case Ok(d) => Ok(lib.pow(d, K))
  {
  }

  /**
   * The dispatcher's shortcut is sound for J = K = 1: the general loop run on the Mandelbrot slot and
   * two empty slots counts exactly what the Mandelbrot loop counts.
   */
  lemma GeneralMatchesMandelbrot(lib: MathLib, c: Complex, thr: real, max: int)
    requires IntegerPowersExact(lib)
    ensures EscapeTime(GeneralStep(lib, MandelbrotTerm, EmptyTerm, EmptyTerm, c, One, One), NormSq, thr, Zero, max)
         == EscapeTime(MandelbrotStep(c), NormSq, thr, Zero, max)
  {
    var h: Complex -> Complex := z => z;
    var general := GeneralStep(lib, MandelbrotTerm, EmptyTerm, EmptyTerm, c, One, One);
    forall z: Complex
      ensures general(h(z)) == Lift(h, MandelbrotStep(c)(z))
    {
      GeneralStepWithSentinels(lib, c, z);
    }
    EscapeTimeSimulation(MandelbrotStep(c), NormSq, general, NormSq, h, thr, Zero, 0, max);
  }

  /** On the Mandelbrot slot and two empty slots with K = 1, the general step is (z * z + c) / J. */
  lemma SentinelStepDivided(lib: MathLib, c: Complex, J: Complex, z: Complex)
    requires IntegerPowersExact(lib) && NormSq(J) != 0.0
    ensures GeneralStep(lib, MandelbrotTerm, EmptyTerm, EmptyTerm, c, J, One)(z) == Ok(Div(Add(Mul(z, z), c), J))
  {
    MandelbrotTermIsSquare(lib, z);
    EmptyTermIsZero(lib, z);
    var s := Add(Mul(z, z), c);
    GeneralUpdateOfValues(lib, MandelbrotTerm, EmptyTerm, EmptyTerm, c, J, One, z, Mul(z, z), Zero, Zero);
    assert Add(Add(Add(Mul(z, z), Zero), Zero), c) == s;
    assert lib.pow(Div(s, J), One) == Div(s, J);
  }

  /** From the origin, the sentinel step with K = 1 lands on c / J. */
  lemma SentinelStepAtOrigin(lib: MathLib, c: Complex, J: Complex)
    requires IntegerPowersExact(lib) && NormSq(J) != 0.0
    ensures GeneralStep(lib, MandelbrotTerm, EmptyTerm, EmptyTerm, c, J, One)(Zero) == Ok(Div(c, J))
  {
    SentinelStepDivided(lib, c, J, Zero);
    SquarePlusAtOrigin(Zero, c);
  }

  /** Dividing by 2 halves both parts. */
  lemma HalfOf(c: Complex)
    ensures NormSq(Two) == 4.0 && Div(c, Two) == Complex(c.re / 2.0, c.im / 2.0)
  {
    assert NormSq(Two) == 4.0;
    assert Div(c, Two).re == (c.re * 2.0 + c.im * 0.0) / 4.0 == c.re / 2.0;
    assert Div(c, Two).im == (c.im * 2.0 - c.re * 0.0) / 4.0 == c.im / 2.0;
  }

  /** z * z + c fixes 0 when c = 0. */
  lemma OriginIsFixed(thr: real)
    requires thr > 0.0
    ensures FixedInside(MandelbrotStep(Zero), NormSq, thr, Zero)
  {
    assert Mul(Zero, Zero) == Zero;
  }

  /** c = 0 never escapes a positive threshold: its count is the whole budget. */
  lemma OriginNeverEscapes(thr: real, max: nat)
    requires thr > 0.0
    ensures EscapeTime(MandelbrotStep(Zero), NormSq, thr, Zero, max) == Ok(max)
  {
    OriginIsFixed(thr);
    FixedPointNeverEscapes(MandelbrotStep(Zero), NormSq, thr, Zero, max);
  }

  /** iterate_mandelbrot: doneIterations counts the steps before the first escape. */
  method IterateMandelbrot(cfg: Config, c: Complex) returns (doneIterations: int)
    ensures Ok(doneIterations) == EscapeTime(MandelbrotStep(c), NormSq, cfg.escapeThreshold2, Zero, cfg.maxIterations)
  {
    ghost var step := MandelbrotStep(c);
    var max, thr := cfg.maxIterations, cfg.escapeThreshold2;
    doneIterations := 0;
    var z := Zero;
    var i := 0;
    while i < max
      invariant 0 <= i && (max >= 0 ==> i <= max)
      invariant doneIterations == i
      invariant Orbit(step, Zero, i) == Ok(z)
      invariant EscapeTime(step, NormSq, thr, Zero, max) == CountFrom(step, NormSq, thr, Zero, i, max)
    {
      CountStep(step, NormSq, thr, Zero, i, max, z);
      z := Add(Mul(z, z), c);
      if NormSq(z) >= thr {
        break;
      }
      doneIterations := doneIterations + 1;
      i := i + 1;
    }
  }

  /**
   * The loop body's update of iterate_mandelbrot_fast on the variables zr and zi: the new imaginary
   * part is computed from the old real part, so the new real part waits in temp.
   */
  method SquarePlus(cr: real, ci: real, zr0: real, zi0: real) returns (zr: real, zi: real)
    ensures FastStep(cr, ci)((zr0, zi0)) == Ok((zr, zi))
  {
    FastUpdateAt(cr, ci, zr0, zi0);
    zr, zi := zr0, zi0;
    var temp := zr * zr - zi * zi + cr;
    zi := 2.0 * zr * zi + ci;
    zr := temp;
  }

  /**
   * iterate_mandelbrot_fast: the index of the escaping step is recorded (from -1) and patched to
   * maxIterations when there was none. For a budget >= 0 this is the same count as the other loops;
   * a negative budget is returned as it is.
   */
  method IterateMandelbrotFast(cfg: Config, cr: real, ci: real) returns (doneIterations: int)
    ensures cfg.maxIterations < 0 ==> doneIterations == cfg.maxIterations
    ensures cfg.maxIterations >= 0 ==>
      Ok(doneIterations) == EscapeTime(FastStep(cr, ci), FastNorm, cfg.escapeThreshold2, (0.0, 0.0), cfg.maxIterations)
  {
    ghost var step := FastStep(cr, ci);
    var max, thr := cfg.maxIterations, cfg.escapeThreshold2;
    doneIterations := -1;
    var zr, zi := 0.0, 0.0;
    var i := 0;
    while i < max
      invariant 0 <= i && (max >= 0 ==> i <= max)
      invariant doneIterations == -1
      invariant Orbit(step, (0.0, 0.0), i) == Ok((zr, zi))
      invariant EscapeTime(step, FastNorm, thr, (0.0, 0.0), max) == CountFrom(step, FastNorm, thr, (0.0, 0.0), i, max)
    {
      CountStep(step, FastNorm, thr, (0.0, 0.0), i, max, (zr, zi));
      zr, zi := SquarePlus(cr, ci, zr, zi);
      FastNormAt(zr, zi);
      if zr * zr + zi * zi >= thr {
        assert CountFrom(step, FastNorm, thr, (0.0, 0.0), i, max) == Ok(i);
        doneIterations := i;
        break;
      }
      assert CountFrom(step, FastNorm, thr, (0.0, 0.0), i, max) == CountFrom(step, FastNorm, thr, (0.0, 0.0), i + 1, max);
      i := i + 1;
    }
    if doneIterations < 0 {
      doneIterations := max;
    }
  }

  /**
   * iterate_arbitrary_fractal: each step evaluates s1, s2, s3 at z (rebinding their partners in
   * place), adds c, divides by J and raises to K. The slots' terms are unchanged; the count is the
   * generic count of the general step, or the first failure.
   */
  method IterateArbitraryFractal(lib: MathLib, cfg: Config, s1: Slot, s2: Slot, s3: Slot,
                                 c: Complex, J: Complex, K: Complex)
    returns (r: Result<int, Failure>)
    requires s1.Valid() && s2.Valid() && s3.Valid()
    requires Separate(s1, s2) && Separate(s1, s3) && Separate(s2, s3)
    modifies s1.Repr(), s2.Repr(), s3.Repr()
    ensures s1.AsTerm() == old(s1.AsTerm()) && s2.AsTerm() == old(s2.AsTerm()) && s3.AsTerm() == old(s3.AsTerm())
    ensures r == EscapeTime(GeneralStep(lib, s1.AsTerm(), s2.AsTerm(), s3.AsTerm(), c, J, K), NormSq,
                            cfg.escapeThreshold2, Zero, cfg.maxIterations)
  {
    ghost var t1, t2, t3 := s1.AsTerm(), s2.AsTerm(), s3.AsTerm();
    ghost var step := GeneralStep(lib, t1, t2, t3, c, J, K);
    var max, thr := cfg.maxIterations, cfg.escapeThreshold2;
    var doneIterations := 0;
    var z := Zero;
    var i := 0;
    while i < max
      invariant 0 <= i && (max >= 0 ==> i <= max)
      invariant doneIterations == i
      invariant s1.AsTerm() == t1 && s2.AsTerm() == t2 && s3.AsTerm() == t3
      invariant Orbit(step, Zero, i) == Ok(z)
      invariant EscapeTime(step, NormSq, thr, Zero, max) == CountFrom(step, NormSq, thr, Zero, i, max)
    {
      CountStep(step, NormSq, thr, Zero, i, max, z);
      var next := Evaluate(lib, s1, s2, s3, c, J, K, z, t1, t2, t3);
      assert next == step(z);
      if next.Err? {
        return Err(next.error);
      }
      z := next.value;
      if NormSq(z) >= thr {
        break;
      }
      doneIterations := doneIterations + 1;
      i := i + 1;
    }
    r := Ok(doneIterations);
  }

  /** The loop body of iterate_arbitrary_fractal: one general step computed through the slots. */
  method Evaluate(lib: MathLib, s1: Slot, s2: Slot, s3: Slot, c: Complex, J: Complex, K: Complex, z: Complex,
                  ghost t1: Term, ghost t2: Term, ghost t3: Term)
    returns (r: Result<Complex, Failure>)
    requires s1.Valid() && s2.Valid() && s3.Valid()
    requires Separate(s1, s2) && Separate(s1, s3) && Separate(s2, s3)
    requires s1.AsTerm() == t1 && s2.AsTerm() == t2 && s3.AsTerm() == t3
    modifies s1.Repr(), s2.Repr(), s3.Repr()
    ensures s1.AsTerm() == t1 && s2.AsTerm() == t2 && s3.AsTerm() == t3
    ensures r == GeneralUpdate(lib, t1, t2, t3, c, J, K, z)
  {
    var v1 := s1.Eval(lib, z);
    if v1.Err? {
      return Err(v1.error);
    }
    var v2 := s2.Eval(lib, z);
    if v2.Err? {
      return Err(v2.error);
    }
    var v3 := s3.Eval(lib, z);
    if v3.Err? {
      return Err(v3.error);
    }
    var d := Divide(Add(Add(Add(v1.value, v2.value), v3.value), c), J);
    if d.Err? {
      return Err(d.error);
    }
    r := Ok(lib.pow(d.value, K));
  }

  /** The two distinguished slots of the renderer, compared by reference in iterate. */
  /**
   * For a negative budget the two Mandelbrot loops disagree: the incrementing loop returns 0, the
   * double loop returns the budget itself.
   */
  method NegativeBudgetDisagrees(cfg: Config, c: Complex) returns (precise: int, fast: int)
    requires cfg.maxIterations < 0
    ensures precise == 0 && fast == cfg.maxIterations
  {
    EscapeTimeNoBudget(MandelbrotStep(c), NormSq, cfg.escapeThreshold2, Zero, cfg.maxIterations);
    precise := IterateMandelbrot(cfg, c);
    fast := IterateMandelbrotFast(cfg, c.re, c.im);
  }

  /**
   * As written, iterate takes the Mandelbrot shortcut for the static slots whatever J and K are.
   * For c = 2.5, J = 2 and a budget of one step the shortcut escapes at once (count 0), while the
   * general formula (z * z + c) / 2 that the same arguments describe stays inside the threshold 4
   * after its one step (count 1).
   */
  method ShortcutIgnoresDivisor(lib: MathLib) returns (r: Result<int, Failure>)
    requires IntegerPowersExact(lib)
    ensures r == Ok(0)
    ensures EscapeTime(GeneralStep(lib, MandelbrotTerm, EmptyTerm, EmptyTerm, Complex(2.5, 0.0), Two, One),
                       NormSq, 4.0, Zero, 1) == Ok(1)
  {
    var c := Complex(2.5, 0.0);
    var renderer := new FractalRenderer();
    r := renderer.Iterate(lib, Config(1, 4.0), renderer.mandelbrotSet, renderer.emptySlot, renderer.emptySlot,
                          c, Two, One, false);
    ShortcutEscapesAtOnce();
    HalvedStaysInside(lib);
  }

  /** c = 2.5: the first Mandelbrot step lands on 2.5, whose squared norm 6.25 reaches 4. */
  lemma ShortcutEscapesAtOnce()
    ensures EscapeTime(MandelbrotStep(Complex(2.5, 0.0)), NormSq, 4.0, Zero, 1) == Ok(0)
  {
    ShortcutFirstStepEscapes();
    EscapeAtFirstStep(MandelbrotStep(Complex(2.5, 0.0)), NormSq, 4.0, Zero, 1);
  }

  lemma ShortcutFirstStepEscapes()
    ensures EscapesAt(MandelbrotStep(Complex(2.5, 0.0)), NormSq, 4.0, Zero, 0)
  {
    var c := Complex(2.5, 0.0);
    assert Mul(Zero, Zero) == Zero;
    assert Orbit(MandelbrotStep(c), Zero, 1) == Ok(c);
    assert NormSq(c) == 6.25;
  }

  /** c = 2.5, J = 2: the first general step lands on 1.25, whose squared norm 1.5625 stays below 4. */
  lemma HalvedStaysInside(lib: MathLib)
    requires IntegerPowersExact(lib)
    ensures EscapeTime(GeneralStep(lib, MandelbrotTerm, EmptyTerm, EmptyTerm, Complex(2.5, 0.0), Two, One),
                       NormSq, 4.0, Zero, 1) == Ok(1)
  {
    HalfOf(Complex(2.5, 0.0));
    SentinelStepAtOrigin(lib, Complex(2.5, 0.0), Two);
    HalvedFirstStepSurvives(GeneralStep(lib, MandelbrotTerm, EmptyTerm, EmptyTerm, Complex(2.5, 0.0), Two, One));
    SurviveFirstStep(GeneralStep(lib, MandelbrotTerm, EmptyTerm, EmptyTerm, Complex(2.5, 0.0), Two, One), NormSq, 4.0, Zero);
  }

  /** Any step taking 0 to 1.25 survives its first step against the threshold 4. */
  lemma HalvedFirstStepSurvives(step: Complex -> Result<Complex, Failure>)
    requires step(Zero) == Ok(Complex(1.25, 0.0))
    ensures Survives(step, NormSq, 4.0, Zero, 0)
  {
    assert Orbit(step, Zero, 1) == Ok(Complex(1.25, 0.0));
    assert NormSq(Complex(1.25, 0.0)) == 1.5625;
  }

  class FractalRenderer {
    const emptySlot: Slot
    const mandelbrotSet: Slot

    ghost predicate Valid()
      reads emptySlot.Repr(), mandelbrotSet.Repr()
    {
      emptySlot.Valid() && mandelbrotSet.Valid() && emptySlot != mandelbrotSet &&
      emptySlot.AsTerm() == EmptyTerm && mandelbrotSet.AsTerm() == MandelbrotTerm
    }

    /** The two static slots: 0 * (1 * z^1)^1 and 1 * (1 * z^2)^1, with z plugged into t. */
    constructor()
      ensures Valid() && fresh(emptySlot.Repr()) && fresh(mandelbrotSet.Repr())
      ensures emptySlot.Repr() !! mandelbrotSet.Repr()
    {
      emptySlot := new Slot("identity", Zero, Zero, One, One, One, [], [false, false, true, false, false]);
      mandelbrotSet := new Slot("identity", One, One, One, Two, One, [], [false, false, true, false, false]);
    }

    /** The dispatcher's choice: by reference identity with the two static slots; J and K play no part. */
    function Route(s1: Slot, s2: Slot, s3: Slot, fast: bool): (r: Path)
      ensures r == Mandelbrot <==> s1 == mandelbrotSet && s2 == emptySlot && s3 == emptySlot && !fast
      ensures r == MandelbrotFast <==> s1 == mandelbrotSet && s2 == emptySlot && s3 == emptySlot && fast
    {
      if s1 == mandelbrotSet && s2 == emptySlot && s3 == emptySlot && !fast then Mandelbrot
      else if s1 == mandelbrotSet && s2 == emptySlot && s3 == emptySlot && fast then MandelbrotFast
      else Arbitrary
    }

    /** The dispatcher's choice with the shortcut also demanding J = K = 1, as the Mandelbrot set needs. */
    function RouteCorrected(s1: Slot, s2: Slot, s3: Slot, J: Complex, K: Complex, fast: bool): (r: Path)
      ensures r == Mandelbrot <==>
        s1 == mandelbrotSet && s2 == emptySlot && s3 == emptySlot && J == One && K == One && !fast
      ensures r == MandelbrotFast <==>
        s1 == mandelbrotSet && s2 == emptySlot && s3 == emptySlot && J == One && K == One && fast
    {
      if J == One && K == One then Route(s1, s2, s3, fast) else Arbitrary
    }

    /**
     * Every shortcut the corrected route takes counts what the general formula counts on the same
     * arguments: the Mandelbrot loop always, the double loop for budgets >= 0.
     */
    lemma CorrectedShortcutIsSound(lib: MathLib, s1: Slot, s2: Slot, s3: Slot, c: Complex, J: Complex, K: Complex,
                                   fast: bool, thr: real, max: int)
      requires Valid() && IntegerPowersExact(lib)
      requires RouteCorrected(s1, s2, s3, J, K, fast) != Arbitrary
      ensures EscapeTime(GeneralStep(lib, s1.AsTerm(), s2.AsTerm(), s3.AsTerm(), c, J, K), NormSq, thr, Zero, max)
           == EscapeTime(MandelbrotStep(c), NormSq, thr, Zero, max)
      ensures EscapeTime(GeneralStep(lib, s1.AsTerm(), s2.AsTerm(), s3.AsTerm(), c, J, K), NormSq, thr, Zero, max)
           == EscapeTime(FastStep(c.re, c.im), FastNorm, thr, (0.0, 0.0), max)
    {
      GeneralMatchesMandelbrot(lib, c, thr, max);
      FastMatchesMandelbrot(c, thr, max);
    }

    /** iterate: the count of the loop Route picks; the double loop starts at (0, 0) with c's two parts as its constants. */
    method Iterate(lib: MathLib, cfg: Config, s1: Slot, s2: Slot, s3: Slot,
                   c: Complex, J: Complex, K: Complex, fast: bool)
      returns (r: Result<int, Failure>)
      requires s1.Valid() && s2.Valid() && s3.Valid()
      requires Separate(s1, s2) && Separate(s1, s3) && Separate(s2, s3)
      modifies s1.Repr(), s2.Repr(), s3.Repr()
      ensures s1.AsTerm() == old(s1.AsTerm()) && s2.AsTerm() == old(s2.AsTerm()) && s3.AsTerm() == old(s3.AsTerm())
      ensures Route(s1, s2, s3, fast) == Mandelbrot ==>
        r == EscapeTime(MandelbrotStep(c), NormSq, cfg.escapeThreshold2, Zero, cfg.maxIterations)
      ensures Route(s1, s2, s3, fast) == MandelbrotFast && cfg.maxIterations >= 0 ==>
        r == EscapeTime(FastStep(c.re, c.im), FastNorm, cfg.escapeThreshold2, (0.0, 0.0), cfg.maxIterations)
      ensures Route(s1, s2, s3, fast) == MandelbrotFast && cfg.maxIterations < 0 ==> r == Ok(cfg.maxIterations)
      ensures Route(s1, s2, s3, fast) == Arbitrary ==>
        r == EscapeTime(GeneralStep(lib, s1.AsTerm(), s2.AsTerm(), s3.AsTerm(), c, J, K), NormSq,
                        cfg.escapeThreshold2, Zero, cfg.maxIterations)
    {
      match Route(s1, s2, s3, fast)
      case Mandelbrot =>
        var n := IterateMandelbrot(cfg, c);
        r := Ok(n);
      case MandelbrotFast =>
        var n := IterateMandelbrotFast(cfg, c.re, c.im);
        r := Ok(n);
      case Arbitrary =>
        r := IterateArbitraryFractal(lib, cfg, s1, s2, s3, c, J, K);
    }

    /**
     * iterate with the corrected route: whichever loop runs, for a budget >= 0 the result is the
     * count of the general formula on the given slots, J and K.
     */
    method IterateCorrected(lib: MathLib, cfg: Config, s1: Slot, s2: Slot, s3: Slot,
                            c: Complex, J: Complex, K: Complex, fast: bool)
      returns (r: Result<int, Failure>)
      requires Valid()
      requires s1.Valid() && s2.Valid() && s3.Valid()
      requires Separate(s1, s2) && Separate(s1, s3) && Separate(s2, s3)
      modifies s1.Repr(), s2.Repr(), s3.Repr()
      ensures s1.AsTerm() == old(s1.AsTerm()) && s2.AsTerm() == old(s2.AsTerm()) && s3.AsTerm() == old(s3.AsTerm())
      ensures IntegerPowersExact(lib) && cfg.maxIterations >= 0 ==>
        r == EscapeTime(GeneralStep(lib, s1.AsTerm(), s2.AsTerm(), s3.AsTerm(), c, J, K), NormSq,
                        cfg.escapeThreshold2, Zero, cfg.maxIterations)
    {
      match RouteCorrected(s1, s2, s3, J, K, fast)
      case Mandelbrot =>
        var n := IterateMandelbrot(cfg, c);
        r := Ok(n);
        if IntegerPowersExact(lib) {
          CorrectedShortcutIsSound(lib, s1, s2, s3, c, J, K, fast, cfg.escapeThreshold2, cfg.maxIterations);
        }
      case MandelbrotFast =>
        var n := IterateMandelbrotFast(cfg, c.re, c.im);
        r := Ok(n);
        if IntegerPowersExact(lib) {
          CorrectedShortcutIsSound(lib, s1, s2, s3, c, J, K, fast, cfg.escapeThreshold2, cfg.maxIterations);
        }
      case Arbitrary =>
        r := IterateArbitraryFractal(lib, cfg, s1, s2, s3, c, J, K);
    }
  }
}
