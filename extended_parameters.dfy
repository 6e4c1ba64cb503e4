/**
 * The extra arguments of a multi-argument function, one pair coefficient per argument (only the
 * arguments after the primary one).
 */
module ExtendedParameters {
  import opened Complex
  import opened PairCoefficients

  class FractalFunctionExtendedParameters {
    const params: array<PairCoefficient>

    /** Every element is a well-formed pair, and no two elements share their pair array. */
    ghost predicate Valid()
      reads params
    {
      (forall i :: 0 <= i < params.Length ==> params[i].Valid()) &&
      (forall i, j :: 0 <= i < j < params.Length ==> params[i].pair != params[j].pair)
    }

    /** The pair arrays, which insertz updates. */
    ghost function Pairs(): set<array<Complex>>
      reads params
    {
      set i | 0 <= i < params.Length :: params[i].pair
    }

    /** The constants, element 0 of each pair, in order. */
    ghost function Constants(): (s: seq<Complex>)
      reads params, Pairs()
      requires Valid()
      ensures |s| == params.Length
    {
      seq(params.Length, i requires 0 <= i < params.Length && params[i].Valid() reads params, Pairs() => params[i].pair[0])
    }

    /** The partners, element 1 of each pair, in order. */
    ghost function Partners(): (s: seq<Complex>)
      reads params, Pairs()
      requires Valid()
      ensures |s| == params.Length
    {
      seq(params.Length, i requires 0 <= i < params.Length && params[i].Valid() reads params, Pairs() => params[i].pair[1])
    }

    /** One fresh pair coefficient per input value, in order; every pair starts as {c, c}. */
    constructor(input: seq<Complex>)
      ensures Valid() && fresh(params) && params.Length == |input|
      ensures forall i :: 0 <= i < params.Length ==> fresh(params[i].pair)
      ensures Constants() == input && Partners() == input
    {
      var a := new PairCoefficient?[|input|];
      var built: seq<PairCoefficient> := [];
      for i := 0 to |input|
        invariant |built| == i
        invariant forall j :: 0 <= j < i ==> built[j].Valid() && fresh(built[j].pair)
        invariant forall j :: 0 <= j < i ==> built[j].pair[..] == [input[j], input[j]]
        invariant forall j, k :: 0 <= j < k < i ==> built[j].pair != built[k].pair
      {
        var pc := new PairCoefficient(input[i]);
        built := built + [pc];
      }
      params := new PairCoefficient[|input|](i requires 0 <= i < |input| => built[i]);
      new;
      assert forall i :: 0 <= i < params.Length ==> params[i] == built[i];
    }

    /** length() */
    function Length(): (r: nat)
      reads params
      requires Valid()
      ensures r == |Constants()|
    {
      params.Length
    }

    /** insertz(index, z, insert): rebinds the partner of one argument and nothing else. */
    method InsertZ(index: int, z: Complex, insert: bool)
      requires Valid()
      requires 0 <= index < params.Length
      modifies params[index].pair
      ensures Valid()
      ensures Constants() == old(Constants())
      ensures Partners() == old(Partners())[index := Partner(insert, z)]
      ensures params[index].ComputeScalar() == Resolve(Constants()[index], insert, z)
    {
      params[index].InsertZ(z, insert);
    }

    /** The scalar value of every argument, in order. */
    ghost function Scalars(): (s: seq<Complex>)
      reads params, Pairs()
      requires Valid()
      ensures |s| == params.Length
      ensures forall i :: 0 <= i < |s| && Partners()[i] == One ==> s[i] == Constants()[i]
    {
      seq(params.Length, i requires 0 <= i < params.Length && params[i].Valid() reads params, Pairs() =>
        params[i].ComputeScalar())
    }

    /** computeScalarArray: a fresh array of the arguments' scalars; nothing is modified. */
    method ComputeScalarArray() returns (result: array<Complex>)
      requires Valid()
      ensures fresh(result)
      ensures result[..] == Scalars()
    {
      var length := params.Length;
      result := new Complex[length];
      for i := 0 to length
        invariant forall j :: 0 <= j < i ==> result[j] == params[j].ComputeScalar()
      {
        result[i] := params[i].ComputeScalar();
      }
    }
  }
}
