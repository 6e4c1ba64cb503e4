/**
 * The escape-time count shared by the three iteration loops, stated once over an abstract state S,
 * a step that may fail with an error E, and a squared-magnitude function norm.
 *
 * Starting from z0, step k (k = 0, 1, ...) produces the iterate Orbit(k + 1). The count is the index
 * of the first step whose iterate has norm >= thr (that step itself is not counted), or max when
 * none of the steps 0 .. max - 1 escapes. A failing step aborts the count with its error.
 */
module Escape {
  import opened Results

  /** The iterate after n steps from z0, or the first failure on the way. */
  function Orbit<S, E>(step: S -> Result<S, E>, z0: S, n: nat): Result<S, E> {
    if n == 0 then Ok(z0)
    else
      match Orbit(step, z0, n - 1)
      case Err(e) => Err(e)
      case Ok(z) => step(z)
  }

  /** Step k completes and its iterate is still inside the threshold. */
  ghost predicate Survives<S, E>(step: S -> Result<S, E>, norm: S -> real, thr: real, z0: S, k: nat) {
    Orbit(step, z0, k + 1).Ok? && norm(Orbit(step, z0, k + 1).value) < thr
  }

  /** Step k completes and its iterate meets or exceeds the threshold. */
  ghost predicate EscapesAt<S, E>(step: S -> Result<S, E>, norm: S -> real, thr: real, z0: S, k: nat) {
    Orbit(step, z0, k + 1).Ok? && norm(Orbit(step, z0, k + 1).value) >= thr
  }

  /** Step k fails with error e. */
  ghost predicate FailsAt<S, E>(step: S -> Result<S, E>, z0: S, k: nat, e: E) {
    Orbit(step, z0, k + 1) == Err(e)
  }

  /** The count of the remaining steps from index i on, given that steps 0 .. i - 1 survived. */
  function CountFrom<S, E>(step: S -> Result<S, E>, norm: S -> real, thr: real, z0: S, i: nat, max: int): Result<nat, E>
    decreases max - i
  {
    if i >= max then Ok(i)
    else
      match Orbit(step, z0, i + 1)
      case Err(e) => Err(e)
      case Ok(z) => if norm(z) >= thr then Ok(i) else CountFrom(step, norm, thr, z0, i + 1, max)
  }

  /** The escape-time count of z0 with an iteration budget of max. */
  function EscapeTime<S, E>(step: S -> Result<S, E>, norm: S -> real, thr: real, z0: S, max: int): Result<nat, E> {
    CountFrom(step, norm, thr, z0, 0, max)
  }

  /** A first step that escapes gives the count 0, whatever the budget. */
  lemma EscapeAtFirstStep<S, E>(step: S -> Result<S, E>, norm: S -> real, thr: real, z0: S, max: int)
    requires 0 < max && EscapesAt(step, norm, thr, z0, 0)
    ensures EscapeTime(step, norm, thr, z0, max) == Ok(0)
  {
  }

  /** With a budget of one step, a first step that survives gives the count 1. */
  lemma SurviveFirstStep<S, E>(step: S -> Result<S, E>, norm: S -> real, thr: real, z0: S)
    requires Survives(step, norm, thr, z0, 0)
    ensures EscapeTime(step, norm, thr, z0, 1) == Ok(1)
  {
  }

  /**
   * One round of a counting loop: from the iterate z after i steps, the next step either fails (the
   * count is that failure), escapes (the count is i), or survives (the count is the count from i + 1).
   */
  lemma CountStep<S, E>(step: S -> Result<S, E>, norm: S -> real, thr: real, z0: S, i: nat, max: int, z: S)
    requires i < max
    requires Orbit(step, z0, i) == Ok(z)
    ensures Orbit(step, z0, i + 1) == step(z)
    ensures step(z).Err? ==> CountFrom(step, norm, thr, z0, i, max) == Err(step(z).error)
    ensures step(z).Ok? && norm(step(z).value) >= thr ==> CountFrom(step, norm, thr, z0, i, max) == Ok(i)
    ensures step(z).Ok? && norm(step(z).value) < thr ==>
      CountFrom(step, norm, thr, z0, i, max) == CountFrom(step, norm, thr, z0, i + 1, max)
  {
  }

  /** A state the step maps to itself is the whole orbit. */
  lemma {:induction false} FixedPointOrbit<S, E>(step: S -> Result<S, E>, z0: S, n: nat)
    requires step(z0) == Ok(z0)
    ensures Orbit(step, z0, n) == Ok(z0)
  {
    if n > 0 {
      FixedPointOrbit(step, z0, n - 1);
    }
  }

  /** z0 is a fixed point of the step and lies inside the threshold. */
  ghost predicate FixedInside<S, E>(step: S -> Result<S, E>, norm: S -> real, thr: real, z0: S) {
    step(z0) == Ok(z0) && norm(z0) < thr
  }

  /** A fixed point inside the threshold never escapes: its count is the whole budget. */
  lemma FixedPointNeverEscapes<S, E>(step: S -> Result<S, E>, norm: S -> real, thr: real, z0: S, max: nat)
    requires FixedInside(step, norm, thr, z0)
    ensures EscapeTime(step, norm, thr, z0, max) == Ok(max)
  {
    forall j | 0 <= j < max
      ensures Survives(step, norm, thr, z0, j)
    {
      FixedPointOrbit(step, z0, j + 1);
    }
    EscapeTimeWithoutEscape(step, norm, thr, z0, max);
  }

  /** Surviving steps i .. k - 1 can be skipped: the count from i is the count from k. */
  lemma {:induction false} CountFromSkip<S, E>(step: S -> Result<S, E>, norm: S -> real, thr: real, z0: S, i: nat, k: nat, max: int)
    requires i <= k <= max
    requires forall j :: i <= j < k ==> Survives(step, norm, thr, z0, j)
    ensures CountFrom(step, norm, thr, z0, i, max) == CountFrom(step, norm, thr, z0, k, max)
    decreases k - i
  {
    if i < k {
      assert Survives(step, norm, thr, z0, i);
      CountFromSkip(step, norm, thr, z0, i + 1, k, max);
    }
  }

  /** What a count from i means, given that steps 0 .. i - 1 survived. */
  lemma {:induction false} CountFromMeaning<S, E>(step: S -> Result<S, E>, norm: S -> real, thr: real, z0: S, i: nat, max: int)
    requires i <= max
    requires forall j :: 0 <= j < i ==> Survives(step, norm, thr, z0, j)
    ensures var r := CountFrom(step, norm, thr, z0, i, max);
      r.Ok? ==>
        i <= r.value <= max &&
        (forall j :: 0 <= j < r.value ==> Survives(step, norm, thr, z0, j)) &&
        (r.value < max ==> EscapesAt(step, norm, thr, z0, r.value))
    ensures var r := CountFrom(step, norm, thr, z0, i, max);
      r.Err? ==>
        exists k :: i <= k < max && FailsAt(step, z0, k, r.error) &&
          forall j :: 0 <= j < k ==> Survives(step, norm, thr, z0, j)
    decreases max - i
  {
    if i < max {
      match Orbit(step, z0, i + 1)
      case Err(e) =>
        assert FailsAt(step, z0, i, e);
      case Ok(z) =>
        if norm(z) < thr {
          assert Survives(step, norm, thr, z0, i);
          CountFromMeaning(step, norm, thr, z0, i + 1, max);
        }
    }
  }

  /**
   * For a budget max >= 0, the count n lies in [0, max]; the steps before n all survived; n < max means
   * step n escaped, and n == max means that no step within the budget escaped. An error is the first
   * failing step's, after only surviving steps.
   */
  lemma EscapeTimeMeaning<S, E>(step: S -> Result<S, E>, norm: S -> real, thr: real, z0: S, max: int)
    requires max >= 0
    ensures var r := EscapeTime(step, norm, thr, z0, max);
      r.Ok? ==>
        r.value <= max &&
        (forall j :: 0 <= j < r.value ==> Survives(step, norm, thr, z0, j)) &&
        (r.value < max ==> EscapesAt(step, norm, thr, z0, r.value))
    ensures var r := EscapeTime(step, norm, thr, z0, max);
      r.Err? ==>
        exists k :: 0 <= k < max && FailsAt(step, z0, k, r.error) &&
          forall j :: 0 <= j < k ==> Survives(step, norm, thr, z0, j)
  {
    CountFromMeaning(step, norm, thr, z0, 0, max);
  }

  /** Conversely, the first escaping step within the budget is the count. */
  lemma EscapeTimeOfFirstEscape<S, E>(step: S -> Result<S, E>, norm: S -> real, thr: real, z0: S, max: int, n: nat)
    requires n < max
    requires forall j :: 0 <= j < n ==> Survives(step, norm, thr, z0, j)
    requires EscapesAt(step, norm, thr, z0, n)
    ensures EscapeTime(step, norm, thr, z0, max) == Ok(n)
  {
    CountFromSkip(step, norm, thr, z0, 0, n, max);
  }

  /** Conversely, when every step within the budget survives, the count is the budget. */
  lemma EscapeTimeWithoutEscape<S, E>(step: S -> Result<S, E>, norm: S -> real, thr: real, z0: S, max: nat)
    requires forall j :: 0 <= j < max ==> Survives(step, norm, thr, z0, j)
    ensures EscapeTime(step, norm, thr, z0, max) == Ok(max)
  {
    CountFromSkip(step, norm, thr, z0, 0, max, max);
  }

  /** With no budget at all (max <= 0) nothing is iterated and the count is 0. */
  lemma EscapeTimeNoBudget<S, E>(step: S -> Result<S, E>, norm: S -> real, thr: real, z0: S, max: int)
    requires max <= 0
    ensures EscapeTime(step, norm, thr, z0, max) == Ok(0)
  {
  }

  /** A step that never fails gives a count that never fails. */
  lemma {:induction false} TotalStepNeverFails<S, E>(step: S -> Result<S, E>, norm: S -> real, thr: real, z0: S, i: nat, max: int)
    requires forall z :: step(z).Ok?
    ensures CountFrom(step, norm, thr, z0, i, max).Ok?
    decreases max - i
  {
    if i < max {
      OrbitTotal(step, z0, i + 1);
      TotalStepNeverFails(step, norm, thr, z0, i + 1, max);
    }
  }

  lemma {:induction false} OrbitTotal<S, E>(step: S -> Result<S, E>, z0: S, n: nat)
    requires forall z :: step(z).Ok?
    ensures Orbit(step, z0, n).Ok?
  {
    if n > 0 {
      OrbitTotal(step, z0, n - 1);
      TotalStepAt(step, Orbit(step, z0, n - 1).value);
    }
  }

  lemma TotalStepAt<S, E>(step: S -> Result<S, E>, z: S)
    requires forall z :: step(z).Ok?
    ensures step(z).Ok?
  {
  }

  /** Transport of a result along a map h of states. */
  function Lift<S, T, E>(h: S -> T, r: Result<S, E>): Result<T, E> {
    match r
    case Ok(s) => Ok(h(s))
    case Err(e) => Err(e)
  }

  lemma {:induction false} OrbitSimulation<S, T, E>(stepS: S -> Result<S, E>, stepT: T -> Result<T, E>, h: S -> T, z0: S, n: nat)
    requires forall s :: stepT(h(s)) == Lift(h, stepS(s))
    ensures Orbit(stepT, h(z0), n) == Lift(h, Orbit(stepS, z0, n))
  {
    if n > 0 {
      OrbitSimulation(stepS, stepT, h, z0, n - 1);
      match Orbit(stepS, z0, n - 1)
      case Err(e) =>
      case Ok(s) =>
        assert stepT(h(s)) == Lift(h, stepS(s));
    }
  }

  /**
   * Two loops whose states correspond through h — the step and the norm commute with h, and the
   * start states correspond — produce the same count.
   */
  lemma {:induction false} EscapeTimeSimulation<S, T, E>(
    stepS: S -> Result<S, E>, normS: S -> real, stepT: T -> Result<T, E>, normT: T -> real,
    h: S -> T, thr: real, z0: S, i: nat, max: int)
    requires forall s :: stepT(h(s)) == Lift(h, stepS(s))
    requires forall s :: normT(h(s)) == normS(s)
    ensures CountFrom(stepT, normT, thr, h(z0), i, max) == CountFrom(stepS, normS, thr, z0, i, max)
    decreases max - i
  {
    if i < max {
      OrbitSimulation(stepS, stepT, h, z0, i + 1);
      EscapeTimeSimulation(stepS, normS, stepT, normT, h, thr, z0, i + 1, max);
      match Orbit(stepS, z0, i + 1)
      case Err(e) =>
      case Ok(s) =>
        assert normT(h(s)) == normS(s);
    }
  }
}
