/**
 * The immutable name -> function table. Each entry is one of five functions with a fixed way of
 * using its primary argument x and its extra arguments p.
 */
module FunctionRegistry {
  import opened Results
  import opened Complex

  /** The registered functions, one per lambda of the table. */
  datatype FunctionName = Identity | Sin | Pow | Gamma | Hyp2f1

  /** The table itself; it is a constant, so every lookup of a name gives the same entry. */
  const FractalFunctions: map<string, FunctionName> :=
    map["identity" := Identity, "sin" := Sin, "pow" := Pow, "gamma" := Gamma, "hyp2f1" := Hyp2f1]

  /** Map.get: the entry for a name, or None (Java's null) for any other name. */
  function Lookup(name: string): (r: Option<FunctionName>)
    ensures r.Some? <==> name in {"identity", "sin", "pow", "gamma", "hyp2f1"}
    ensures name == "identity" ==> r == Some(Identity)
    ensures name == "sin" ==> r == Some(Sin)
    ensures name == "pow" ==> r == Some(Pow)
    ensures name == "gamma" ==> r == Some(Gamma)
    ensures name == "hyp2f1" ==> r == Some(Hyp2f1)
  {
    if name in FractalFunctions then Some(FractalFunctions[name]) else None
  }

  /** How many extra arguments each function reads: p[0] for pow, p[0..2] for hyp2f1, none otherwise. */
  function Arity(f: FunctionName): nat {
    match f
    case Identity => 0
    case Sin => 0
    case Pow => 1
    case Gamma => 0
    case Hyp2f1 => 3
  }

  /**
   * FractalFunction.apply for a registered function. Reading p[k] past the end of the extras throws
   * ArrayIndexOutOfBoundsException; the arguments are read from left to right, so the first index
   * that fails is the length of the extras.
   */
  function Apply(lib: MathLib, f: FunctionName, x: Complex, p: seq<Complex>): Result<Complex, Failure> {
    match f
    case Identity => Ok(x)
    case Sin => Ok(lib.sin(x))
    case Pow => if |p| < 1 then Err(IndexOutOfBounds(|p|, |p|)) else Ok(lib.pow(x, p[0]))
    case Gamma => Ok(lib.gamma(x))
    case Hyp2f1 =>
      if |p| < 3 then Err(IndexOutOfBounds(|p|, |p|)) else Ok(lib.hyp2f1(x, p[0], p[1], p[2]))
  }

  /** An application fails exactly when fewer extras are supplied than the function reads. */
  lemma ApplyFailsOnlyOnMissingExtras(lib: MathLib, f: FunctionName, x: Complex, p: seq<Complex>)
    ensures Apply(lib, f, x, p).Err? <==> |p| < Arity(f)
    ensures Apply(lib, f, x, p).Err? ==> Apply(lib, f, x, p).error == IndexOutOfBounds(|p|, |p|)
  {
  }

  /** Only the first Arity(f) extras are read: anything after them is ignored. */
  lemma ApplyIgnoresUnusedExtras(lib: MathLib, f: FunctionName, x: Complex, p: seq<Complex>, more: seq<Complex>)
    requires |p| >= Arity(f)
    ensures Apply(lib, f, x, p + more) == Apply(lib, f, x, p)
  {
  }

  /** identity returns its primary argument unchanged, whatever the extras. */
  lemma IdentityReturnsArgument(lib: MathLib, x: Complex, p: seq<Complex>)
    ensures Apply(lib, Identity, x, p) == Ok(x)
  {
  }

  /** sin and gamma depend only on the primary argument. */
  lemma UnaryIgnoresExtras(lib: MathLib, f: FunctionName, x: Complex, p: seq<Complex>, p': seq<Complex>)
    requires f == Sin || f == Gamma
    ensures Apply(lib, f, x, p) == Apply(lib, f, x, p')
    ensures Apply(lib, f, x, p) == Ok(if f == Sin then lib.sin(x) else lib.gamma(x))
  {
  }

  /** pow uses the primary argument as the base and the first extra as the exponent. */
  lemma PowArgumentOrder(lib: MathLib, x: Complex, p: seq<Complex>)
    requires |p| >= 1
    ensures Apply(lib, Pow, x, p) == Ok(lib.pow(x, p[0]))
  {
  }

  /** hyp2f1 passes (x, p[0], p[1], p[2]) in that order. */
  lemma Hyp2f1ArgumentOrder(lib: MathLib, x: Complex, p: seq<Complex>)
    requires |p| >= 3
    ensures Apply(lib, Hyp2f1, x, p) == Ok(lib.hyp2f1(x, p[0], p[1], p[2]))
  {
  }
}
