/**
 * A z-slot: one term B * f(A * t^p, extras)^q of the general recurrence. Each of B, A, t, p, q is a
 * pair {constant, partner}; the flag vector zPositions says, per position B, A, t, p, q, extras[0],
 * extras[1], ..., whether z is plugged into it on each evaluation.
 */
module Slots {
  import opened Results
  import opened Complex
  import opened FunctionRegistry
  import opened PairCoefficients

  /** The value view of one pair coefficient: its constant and whether z is plugged into it. */
  datatype Coefficient = Coefficient(constant: Complex, substitute: bool) {
    /** The coefficient's scalar once its partner is rebound for z. */
    function Scalar(z: Complex): Complex {
      Resolve(constant, substitute, z)
    }
  }

  /** The value view of a slot: the registered function and its seven kinds of coefficient. */
  datatype Term = Term(
    func: FunctionName,
    b: Coefficient, a: Coefficient, t: Coefficient, p: Coefficient, q: Coefficient,
    extras: seq<Coefficient>)

  /** Pairs each constant with its flag. */
  function Coefficients(constants: seq<Complex>, flags: seq<bool>): (r: seq<Coefficient>)
    requires |flags| == |constants|
    ensures |r| == |constants|
    ensures forall i :: 0 <= i < |r| ==> r[i] == Coefficient(constants[i], flags[i])
  {
    seq(|constants|, i requires 0 <= i < |constants| => Coefficient(constants[i], flags[i]))
  }

  /** The term a slot built from these arguments describes. */
  function Describe(
    func: FunctionName, b: Complex, a: Complex, t: Complex, p: Complex, q: Complex,
    params: seq<Complex>, zPositions: seq<bool>): Term
    requires |zPositions| == 5 + |params|
  {
    Term(func,
      Coefficient(b, zPositions[0]), Coefficient(a, zPositions[1]), Coefficient(t, zPositions[2]),
      Coefficient(p, zPositions[3]), Coefficient(q, zPositions[4]),
      Coefficients(params, zPositions[5..]))
  }

  /** The scalars of the extra arguments for z, in order. */
  function ExtraScalars(term: Term, z: Complex): (r: seq<Complex>)
    ensures |r| == |term.extras|
    ensures forall i :: 0 <= i < |r| ==> r[i] == term.extras[i].Scalar(z)
  {
    seq(|term.extras|, i requires 0 <= i < |term.extras| => term.extras[i].Scalar(z))
  }

  /**
   * B * f(A * t^p, extras)^q from the five scalars and the extra arguments: the power t^p binds
   * tighter than the multiplication by A, and the outer power q applies to the whole function
   * result, not to B. Only the function application can fail.
   */
  function Formula(lib: MathLib, func: FunctionName, b: Complex, a: Complex, t: Complex, p: Complex,
                   q: Complex, extras: seq<Complex>): Result<Complex, Failure> {
    match Apply(lib, func, Mul(a, lib.pow(t, p)), extras)
    case Err(e) => Err(e)
    case Ok(v) => Ok(Mul(b, lib.pow(v, q)))
  }

  /** The formula with each of B, A, t, p, q rebound for z, and the given extra arguments. */
  function ValueWithExtras(lib: MathLib, term: Term, z: Complex, extras: seq<Complex>): Result<Complex, Failure> {
    Formula(lib, term.func, term.b.Scalar(z), term.a.Scalar(z), term.t.Scalar(z), term.p.Scalar(z),
            term.q.Scalar(z), extras)
  }

  /** The value of a term at z, every coefficient rebound for z. */
  function TermValue(lib: MathLib, term: Term, z: Complex): Result<Complex, Failure> {
    ValueWithExtras(lib, term, z, ExtraScalars(term, z))
  }

  /** A term into which z is plugged nowhere does not depend on z. */
  lemma FixedTermIgnoresZ(lib: MathLib, term: Term, z1: Complex, z2: Complex)
    requires !term.b.substitute && !term.a.substitute && !term.t.substitute
    requires !term.p.substitute && !term.q.substitute
    requires forall i :: 0 <= i < |term.extras| ==> !term.extras[i].substitute
    ensures TermValue(lib, term, z1) == TermValue(lib, term, z2)
  {
    assert ExtraScalars(term, z1) == ExtraScalars(term, z2);
  }

  /** A term's value fails exactly when its function reads more extra arguments than the term has. */
  lemma TermFailsOnlyOnMissingExtras(lib: MathLib, term: Term, z: Complex)
    ensures TermValue(lib, term, z).Err? <==> |term.extras| < Arity(term.func)
  {
    var t := term;
    ApplyFailsOnlyOnMissingExtras(lib, t.func, Mul(t.a.Scalar(z), lib.pow(t.t.Scalar(z), t.p.Scalar(z))),
                                  ExtraScalars(t, z));
  }

  /** A term without extra arguments hands its function an empty extras array. */
  lemma NoExtrasMeansEmptyArray(lib: MathLib, term: Term, z: Complex)
    requires term.extras == []
    ensures TermValue(lib, term, z) == ValueWithExtras(lib, term, z, [])
  {
  }

  /** The two distinguished slots of the renderer, as terms (t is the coefficient bound to z). */
  const EmptyTerm := Term(Identity,
    Coefficient(Zero, false), Coefficient(Zero, false), Coefficient(One, true),
    Coefficient(One, false), Coefficient(One, false), [])

  const MandelbrotTerm := Term(Identity,
    Coefficient(One, false), Coefficient(One, false), Coefficient(One, true),
    Coefficient(Two, false), Coefficient(One, false), [])

  /** The empty slot evaluates to 0 for every z, whatever the library's powers do. */
  lemma EmptyTermIsZero(lib: MathLib, z: Complex)
    ensures TermValue(lib, EmptyTerm, z) == Ok(Zero)
  {
  }

  /** The Mandelbrot slot evaluates to z*z when the library's integer powers are exact. */
  lemma MandelbrotTermIsSquare(lib: MathLib, z: Complex)
    requires IntegerPowersExact(lib)
    ensures TermValue(lib, MandelbrotTerm, z) == Ok(Mul(z, z))
  {
    MulIdentity(z);
    MulIdentity(Mul(z, z));
    assert lib.pow(z, Two) == Mul(z, z);
    assert lib.pow(Mul(z, z), One) == Mul(z, z);
  }

  /**
   * The constructor's validation, in the constructor's order: an unregistered function name is
   * rejected first, then a flag vector whose length is not 5 + the number of extra arguments.
   */
  function CheckSlot(functionName: string, params: seq<Complex>, zPositions: seq<bool>): (r: Result<FunctionName, Failure>)
    ensures r.Ok? <==> functionName in FractalFunctions && |zPositions| == 5 + |params|
    ensures r.Ok? ==> Lookup(functionName) == Some(r.value)
    ensures functionName !in FractalFunctions ==> r == Err(UnknownFunction(functionName))
    ensures functionName in FractalFunctions && |zPositions| != 5 + |params| ==>
      r == Err(LengthMismatch(|zPositions|, |params|))
  {
    match Lookup(functionName)
    case None => Err(UnknownFunction(functionName))
    case Some(f) =>
      if |zPositions| - 5 != |params| then Err(LengthMismatch(|zPositions|, |params|)) else Ok(f)
  }

  /** The flag-driven partner of each position for z, in zPositions order. */
  function PartnersFor(zPositions: seq<bool>, z: Complex): (r: seq<Complex>)
    ensures |r| == |zPositions|
    ensures forall i :: 0 <= i < |r| ==> r[i] == (if zPositions[i] then z else One)
  {
    seq(|zPositions|, i requires 0 <= i < |zPositions| => Partner(zPositions[i], z))
  }

  class Slot {
    const func: FunctionName
    const params: array2<Complex>   // row 0: constants of the extras; row 1: their partners
    const zPositions: seq<bool>     // flags for B, A, t, p, q, extras[0], ...
    const B: array<Complex>
    const A: array<Complex>
    const t: array<Complex>
    const p: array<Complex>
    const q: array<Complex>

    /** The arrays this slot owns. */
    ghost function Repr(): set<object> {
      {B, A, t, p, q, params}
    }

    ghost predicate Valid() {
      B.Length == 2 && A.Length == 2 && t.Length == 2 && p.Length == 2 && q.Length == 2 &&
      params.Length0 == 2 && |zPositions| == 5 + params.Length1 &&
      B != A && B != t && B != p && B != q && A != t && A != p && A != q && t != p && t != q && p != q
    }

    /** Row k of the parameter matrix. */
    ghost function Row(k: nat): (s: seq<Complex>)
      reads params
      requires k < params.Length0
      ensures |s| == params.Length1
    {
      seq(params.Length1, i requires 0 <= i < params.Length1 reads params => params[k, i])
    }

    /** The slot's term: its function, the constants (element 0 / row 0) and the flags. */
    ghost function AsTerm(): Term
      reads Repr()
      requires Valid()
    {
      Describe(func, B[0], A[0], t[0], p[0], q[0], Row(0), zPositions)
    }

    /** The current partners (element 1 / row 1), in zPositions order. */
    ghost function Partners(): (s: seq<Complex>)
      reads Repr()
      requires Valid()
      ensures |s| == |zPositions|
    {
      [B[1], A[1], t[1], p[1], q[1]] + Row(1)
    }

    /** Builds the pairs {c, c} for B, A, t, p, q and two clones of the extras as the two rows. */
    constructor(functionName: string, bValue: Complex, aValue: Complex, tValue: Complex, pValue: Complex,
                qValue: Complex, paramValues: seq<Complex>, zPositions: seq<bool>)
      requires CheckSlot(functionName, paramValues, zPositions).Ok?
      ensures Valid() && fresh(Repr())
      ensures AsTerm() == Describe(CheckSlot(functionName, paramValues, zPositions).value,
                                   bValue, aValue, tValue, pValue, qValue, paramValues, zPositions)
      ensures Partners() == [bValue, aValue, tValue, pValue, qValue] + paramValues
      ensures Row(0) == paramValues && Row(1) == paramValues
    {
      func := CheckSlot(functionName, paramValues, zPositions).value;
      B := new Complex[2](_ => bValue);
      A := new Complex[2](_ => aValue);
      t := new Complex[2](_ => tValue);
      p := new Complex[2](_ => pValue);
      q := new Complex[2](_ => qValue);
      this.zPositions := zPositions;
      params := new Complex[2, |paramValues|]((_, i) requires 0 <= i < |paramValues| => paramValues[i]);
      new;
      assert Row(0) == paramValues && Row(1) == paramValues;
    }

    /** The Java constructor: validation first, construction only if it passes. */
    static method Create(functionName: string, bValue: Complex, aValue: Complex, tValue: Complex,
                         pValue: Complex, qValue: Complex, paramValues: seq<Complex>, zPositions: seq<bool>)
      returns (r: Result<Slot, Failure>)
      ensures r.Err? ==> CheckSlot(functionName, paramValues, zPositions) == Err(r.error)
      ensures r.Ok? ==> CheckSlot(functionName, paramValues, zPositions).Ok?
      ensures r.Ok? ==> fresh(r.value.Repr()) && r.value.Valid()
      ensures r.Ok? ==> r.value.AsTerm() == Describe(CheckSlot(functionName, paramValues, zPositions).value,
                                     bValue, aValue, tValue, pValue, qValue, paramValues, zPositions)
    {
      var check := CheckSlot(functionName, paramValues, zPositions);
      if check.Err? {
        return Err(check.error);
      }
      var s := new Slot(functionName, bValue, aValue, tValue, pValue, qValue, paramValues, zPositions);
      r := Ok(s);
    }

    /** Lines one to five of eval: element 1 of B, A, t, p, q becomes z or ONE per its flag. */
    method RebindCoefficients(z: Complex)
      requires Valid()
      modifies B, A, t, p, q
      ensures B[0] == old(B[0]) && B[1] == Partner(zPositions[0], z)
      ensures A[0] == old(A[0]) && A[1] == Partner(zPositions[1], z)
      ensures t[0] == old(t[0]) && t[1] == Partner(zPositions[2], z)
      ensures p[0] == old(p[0]) && p[1] == Partner(zPositions[3], z)
      ensures q[0] == old(q[0]) && q[1] == Partner(zPositions[4], z)
    {
      B[1] := if zPositions[0] then z else One;
      A[1] := if zPositions[1] then z else One;
      t[1] := if zPositions[2] then z else One;
      p[1] := if zPositions[3] then z else One;
      q[1] := if zPositions[4] then z else One;
    }

    /** The extras loop of eval as intended: row 1 of the parameters becomes z or ONE per flag. */
    method RebindExtras(z: Complex)
      requires Valid()
      modifies params
      ensures Row(0) == old(Row(0))
      ensures Row(1) == PartnersFor(zPositions[5..], z)
    {
      for i := 0 to params.Length1
        invariant forall j :: 0 <= j < i ==> params[1, j] == Partner(zPositions[j + 5], z)
        invariant forall j :: 0 <= j < params.Length1 ==> params[0, j] == old(params[0, j])
      {
        if zPositions[i + 5] {
          params[1, i] := z;
        } else {
          params[1, i] := One;
        }
      }
    }

    /** The products of the two parameter rows, column by column. */
    ghost function RowProducts(): (s: seq<Complex>)
      reads params
      requires Valid()
      ensures |s| == params.Length1
    {
      seq(params.Length1, i requires 0 <= i < params.Length1 reads params => Mul(params[0, i], params[1, i]))
    }

    /** The final expression of eval, read from the current pairs and parameter rows. */
    method Combine(lib: MathLib) returns (r: Result<Complex, Failure>)
      requires Valid()
      ensures r == Formula(lib, func, MultiplyCoefficient(B), MultiplyCoefficient(A), MultiplyCoefficient(t),
                           MultiplyCoefficient(p), MultiplyCoefficient(q), RowProducts())
    {
      var extras := MultiplyRows(params);
      assert extras[..] == RowProducts();
      var value := Apply(lib, func,
        Mul(MultiplyCoefficient(A), lib.pow(MultiplyCoefficient(t), MultiplyCoefficient(p))), extras[..]);
      if value.Err? {
        return Err(value.error);
      }
      r := Ok(Mul(MultiplyCoefficient(B), lib.pow(value.value, MultiplyCoefficient(q))));
    }

    /**
     * eval: plugs z (or ONE) into element 1 of B, A, t, p, q and into row 1 of the parameters, then
     * computes B * f(A * t^p, extras)^q. The constants are never written, and the new partners depend
     * only on z and the flags, so a second eval with the same z leaves the same state.
     */
    method Eval(lib: MathLib, z: Complex) returns (r: Result<Complex, Failure>)
      requires Valid()
      modifies Repr()
      ensures AsTerm() == old(AsTerm())
      ensures Partners() == PartnersFor(zPositions, z)
      ensures Row(0) == old(Row(0)) && Row(1) == PartnersFor(zPositions[5..], z)
      ensures r == TermValue(lib, AsTerm(), z)
    {
      RebindCoefficients(z);
      RebindExtras(z);
      assert Partners() == PartnersFor(zPositions, z);
      assert RowProducts() == ExtraScalars(AsTerm(), z);
      r := Combine(lib);
    }

    /**
     * The extras loop of eval as the source writes it: params[i][1] instead of params[1][i]. With
     * one extra argument the write params[0][1] is past the end of a row of length 1; with three
     * or more, params[2] is past the end of the two rows; the exception ends eval.
     */
    method RebindExtrasAsWritten(z: Complex) returns (failure: Option<Failure>)
      requires Valid()
      modifies params
      ensures failure.Some? <==> params.Length1 == 1 || params.Length1 >= 3
      ensures params.Length1 == 1 ==> failure == Some(IndexOutOfBounds(1, 1))
      ensures params.Length1 >= 3 ==> failure == Some(IndexOutOfBounds(2, 2))
      ensures params.Length1 <= 1 ==> Row(0) == old(Row(0)) && Row(1) == old(Row(1))
      ensures params.Length1 >= 2 ==>
        Row(0) == old(Row(0))[1 := Partner(zPositions[5], z)] &&
        Row(1) == old(Row(1))[1 := Partner(zPositions[6], z)]
    {
      for i := 0 to params.Length1
        invariant i <= 2
        invariant i > 0 ==> params.Length1 >= 2
        invariant forall k, j :: 0 <= k < 2 && 0 <= j < params.Length1 && (j != 1 || k >= i) ==>
          params[k, j] == old(params[k, j])
        invariant i > 0 ==> params[0, 1] == Partner(zPositions[5], z)
        invariant i > 1 ==> params[1, 1] == Partner(zPositions[6], z)
      {
        if i >= params.Length0 {
          return Some(IndexOutOfBounds(i, params.Length0));
        }
        if 1 >= params.Length1 {
          return Some(IndexOutOfBounds(1, params.Length1));
        }
        if zPositions[i + 5] {
          params[i, 1] := z;
        } else {
          params[i, 1] := One;
        }
      }
      failure := None;
    }

    /**
     * eval with the extras loop as the source writes it. With exactly two extra arguments it
     * overwrites the constant params[0][1] and the partner params[1][1] and leaves column 0 alone,
     * so the function receives [params[0][0] * params[1][0], partner5 * partner6].
     */
    method EvalAsWritten(lib: MathLib, z: Complex) returns (r: Result<Complex, Failure>)
      requires Valid()
      modifies Repr()
      ensures params.Length1 == 1 ==> r == Err(IndexOutOfBounds(1, 1))
      ensures params.Length1 >= 3 ==> r == Err(IndexOutOfBounds(2, 2))
      ensures params.Length1 <= 1 ==> AsTerm() == old(AsTerm()) && Row(1) == old(Row(1))
      ensures params.Length1 >= 2 ==>
        AsTerm() == old(AsTerm()).(extras := old(AsTerm()).extras[1 := Coefficient(Partner(zPositions[5], z), zPositions[6])]) &&
        Row(1) == old(Row(1))[1 := Partner(zPositions[6], z)]
      ensures params.Length1 == 0 || params.Length1 == 2 ==> r == ValueWithExtras(lib, AsTerm(), z, RowProducts())
    {
      RebindCoefficients(z);
      var failure := RebindExtrasAsWritten(z);
      if failure.Some? {
        return Err(failure.value);
      }
      r := Combine(lib);
    }
  }

  /**
   * The as-written extras loop on a concrete slot: two extra arguments 2 and 3, z plugged in nowhere.
   * The function should receive [2, 3]; as written it receives [2 * 2, 1 * 1] (the loop of eval,
   * after which eval multiplies the two rows).
   */
  method AsWrittenCounterexample() returns (extras: seq<Complex>)
    ensures extras == [Complex(4.0, 0.0), One]
  {
    var s := new Slot("identity", One, One, One, One, One, [Complex(2.0, 0.0), Complex(3.0, 0.0)],
                      [false, false, false, false, false, false, false]);
    var _ := s.RebindExtrasAsWritten(Zero);
    assert s.Row(0)[0] == s.params[0, 0] == Complex(2.0, 0.0) && s.Row(1)[0] == s.params[1, 0] == Complex(2.0, 0.0);
    assert s.Row(0)[1] == s.params[0, 1] == One && s.Row(1)[1] == s.params[1, 1] == One;
    extras := TwoColumnProducts(s.params);
    assert Mul(Complex(2.0, 0.0), Complex(2.0, 0.0)) == Complex(4.0, 0.0);
    assert Mul(One, One) == One;
  }

  /** multiplyRows on a matrix with two columns, as a sequence. */
  method TwoColumnProducts(params: array2<Complex>) returns (extras: seq<Complex>)
    requires params.Length0 >= 2 && params.Length1 == 2
    ensures extras == [Mul(params[0, 0], params[1, 0]), Mul(params[0, 1], params[1, 1])]
  {
    var products := MultiplyRows(params);
    extras := products[..];
  }

  /** The same slot with the corrected loop: the function receives [2, 3]. */
  method CorrectedExample() returns (extras: seq<Complex>)
    ensures extras == [Complex(2.0, 0.0), Complex(3.0, 0.0)]
  {
    var s := new Slot("identity", One, One, One, One, One, [Complex(2.0, 0.0), Complex(3.0, 0.0)],
                      [false, false, false, false, false, false, false]);
    s.RebindExtras(Zero);
    assert s.Row(0)[0] == Complex(2.0, 0.0) && s.Row(0)[1] == Complex(3.0, 0.0);
    assert s.Row(1)[0] == One && s.Row(1)[1] == One;
    var products := MultiplyRows(s.params);
    assert products[0] == Mul(Complex(2.0, 0.0), One);
    assert products[1] == Mul(Complex(3.0, 0.0), One);
    extras := products[..];
  }

  /** A pow slot with its one extra argument (the exponent) cannot be evaluated as written. */
  method AsWrittenPowFails(lib: MathLib) returns (r: Result<Complex, Failure>)
    ensures r == Err(IndexOutOfBounds(1, 1))
  {
    var s := new Slot("pow", One, One, One, One, One, [Two], [false, false, true, false, false, false]);
    r := s.EvalAsWritten(lib, Zero);
  }

  /** The same pow slot evaluated with the corrected loop: the exponent reaches pow and nothing fails. */
  method CorrectedPowEvaluates(lib: MathLib) returns (r: Result<Complex, Failure>)
    ensures r.Ok?
  {
    var s := new Slot("pow", One, One, One, One, One, [Two], [false, false, true, false, false, false]);
    r := EvalWithEnoughExtras(lib, s, Zero);
  }

  /** The corrected eval of a slot that has as many extra arguments as its function reads never fails. */
  method EvalWithEnoughExtras(lib: MathLib, s: Slot, z: Complex) returns (r: Result<Complex, Failure>)
    requires s.Valid() && s.params.Length1 >= Arity(s.func)
    modifies s.Repr()
    ensures r.Ok?
  {
    ghost var term := s.AsTerm();
    TermFailsOnlyOnMissingExtras(lib, term, z);
    r := s.Eval(lib, z);
  }

  /** Two slots either are the same object or own disjoint arrays, as separately constructed slots do. */
  ghost predicate Separate(s1: Slot, s2: Slot) {
    s1 == s2 || s1.Repr() !! s2.Repr()
  }
}
