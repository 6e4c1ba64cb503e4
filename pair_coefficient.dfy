/**
 * A pair coefficient is a two-element array {constant, partner}: the partner is the loop variable z
 * when z is plugged into the coefficient and Apcomplex.ONE otherwise, and the coefficient's scalar
 * value is constant * partner.
 */
module PairCoefficients {
  import opened Complex

  /** The value written into element 1 before an evaluation: z if substituted, ONE otherwise. */
  function Partner(substitute: bool, z: Complex): Complex {
    if substitute then z else One
  }

  /** The scalar of a coefficient with the given constant once its partner is rebound. */
  function Resolve(constant: Complex, substitute: bool, z: Complex): (r: Complex)
    ensures r == if substitute then Mul(constant, z) else constant
  {
    MulIdentity(constant);
    Mul(constant, Partner(substitute, z))
  }

  /** multiplyCoefficient: element 0 times element 1 of a two-element coefficient. */
  function MultiplyCoefficient(c: array<Complex>): (r: Complex)
    reads c
    requires c.Length >= 2
    ensures c[1] == One ==> r == c[0]
  {
    MulIdentity(c[0]);
    Mul(c[0], c[1])
  }

  /**
   * multiplyRows: element i of the result is params[0][i] * params[1][i]. The two rows of a slot's
   * parameter matrix are equal-length clones, so the matrix is a 2 x n array.
   */
  method MultiplyRows(params: array2<Complex>) returns (result: array<Complex>)
    requires params.Length0 >= 2
    ensures fresh(result)
    ensures result.Length == params.Length1
    ensures forall i :: 0 <= i < result.Length ==> result[i] == Mul(params[0, i], params[1, i])
  {
    var length := params.Length1;
    result := new Complex[length];
    for i := 0 to length
      invariant forall j :: 0 <= j < i ==> result[j] == Mul(params[0, j], params[1, j])
    {
      result[i] := Mul(params[0, i], params[1, i]);
    }
  }

  /**
   * A single pair coefficient as an object: the constructor, insertz and computeScalar that
   * FractalFunctionExtendedParameters calls (their semantics are those of the slot coefficients).
   */
  class PairCoefficient {
    const pair: array<Complex>

    ghost predicate Valid() {
      pair.Length == 2
    }

    /** Both elements start as the constant, as the slot coefficients do. */
    constructor(c: Complex)
      ensures Valid() && fresh(pair)
      ensures pair[..] == [c, c]
    {
      pair := new Complex[2](_ => c);
    }

    /** Rebinds the partner to z or ONE; the constant is never touched. */
    method InsertZ(z: Complex, insert: bool)
      requires Valid()
      modifies pair
      ensures pair[..] == [old(pair[0]), Partner(insert, z)]
      ensures ComputeScalar() == Resolve(pair[0], insert, z)
    {
      pair[1] := if insert then z else One;
    }

    /** computeScalar: the coefficient's value, constant * partner. */
    function ComputeScalar(): (r: Complex)
      reads pair
      requires Valid()
      ensures pair[1] == One ==> r == pair[0]
    {
      MultiplyCoefficient(pair)
    }
  }
}
