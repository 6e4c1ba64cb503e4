# FractalVoyager escape-time engine, modelled in Dafny

FractalVoyager renders escape-time fractals. For every point c it iterates
z ← pow((s1(z) + s2(z) + s3(z) + c) / J, K) from z = 0. Here s1, s2 and s3 are "z-slots", terms of the
form B · f(A · t^p, extras)^q. It counts the steps before |z|² reaches the squared escape
threshold. Two shortcut loops handle the plain Mandelbrot set (z ← z² + c): one in arbitrary
precision and one in doubles. A dispatcher picks between the three loops.

This project models:

- **the function registry**: the immutable name → function table;
- **pair coefficients**: two-element arrays {constant, partner}. The partner is z or ONE, and the
  scalar value is constant · partner. Also `multiplyRows` and `multiplyCoefficient`;
- **the extended-parameters wrapper**: an array of pair coefficients;
- **the z-slot**: constructor validation, the in-place rebinding of every partner in `eval`, and
  the nested result expression;
- **the renderer**: the dispatcher and its three counting loops.

How the model is built:

- Numbers are exact: an Apcomplex is a pair of Dafny `real`s with exact addition, multiplication and
  division. Division by zero is an explicit error.
- `pow`, `sin`, `gamma` and `hypergeometric2F1` are uninterpreted members of a `MathLib` value that
  every evaluation takes as a parameter.
- Java exceptions are `Err` values of `Results.Failure`.
- Module `Escape` defines the escape-time count once, over an abstract step that may fail. Each of
  the three loops is written out as the source writes it and proved equal to that count for its
  own step. Lemmas then relate the steps:
  - the double loop's closed-form update is z² + c read on the two parts of z;
  - the general loop, run on the Mandelbrot slot and two empty slots with J = K = 1, is the
    Mandelbrot loop.

Source discrepancies this model resolves:

- `FractalRenderer` builds its two static slots with a six-argument `Slot` constructor. No such
  constructor exists; `Slot` has only the eight-argument one. Here the four numbers are read as
  A, p, B and q, with z plugged into t. So the empty slot is 0 · (0 · z¹)¹ = 0 and the Mandelbrot
  slot is 1 · (1 · z²)¹ = z².
- `FractalFunctionExtendedParameters` calls a `PairCoefficient` constructor, `insertz` and
  `computeScalar`, none of which exist in `PairCoefficient.java`. They are modelled with the
  semantics the slot gives its coefficients:
  - the constructor builds {c, c};
  - `insertz` writes z or ONE into element 1;
  - `computeScalar` is element 0 × element 1.
- The extras loop of `Slot.eval` indexes `params[i][1]` where `params[1][i]` is evidently meant
  (see Findings). The rest of the model uses the corrected loop.
- `iterate` takes the Mandelbrot shortcuts whenever the slots are the two static ones, whatever J
  and K are, so for J ≠ 1 or K ≠ 1 it does not count the formula it was given (see Findings).
  `Iterate` models the route as written; `IterateCorrected` also demands J = K = 1.

## Model

| member | source | states |
|---|---|---|
| FunctionRegistry.Lookup | src/main/java/FunctionRegistry.java:16-26 | the table's key set is exactly identity, sin, pow, gamma, hyp2f1; every other name yields None (Java's null); each key maps to its own function |
| FunctionRegistry.ApplyFailsOnlyOnMissingExtras | src/main/java/FunctionRegistry.java:16-26 | with the library calls total (see Left out), applying a registered function fails exactly when fewer extras are given than it reads (pow 1, hyp2f1 3, the others 0), with an index-out-of-bounds at the extras' length |
| FunctionRegistry.Apply | src/main/java/FunctionRegistry.java:16-26 | identity, sin and gamma read no extra; pow reads extras[0] as its exponent; hyp2f1 reads extras[0..2]; a missing extra fails with an index-out-of-bounds at the extras' length |
| FunctionRegistry.ApplyIgnoresUnusedExtras | src/main/java/FunctionRegistry.java:16-26 | extras beyond those a function reads never change its result |
| FunctionRegistry.IdentityReturnsArgument | src/main/java/FunctionRegistry.java:17 | identity returns its primary argument unchanged, whatever the extras |
| FunctionRegistry.UnaryIgnoresExtras | src/main/java/FunctionRegistry.java:19-23 | sin and gamma use only the primary argument: any two extras arrays give the same result, sin(x) or gamma(x) |
| FunctionRegistry.PowArgumentOrder | src/main/java/FunctionRegistry.java:21 | pow takes the primary argument as base and extras[0] as exponent |
| FunctionRegistry.Hyp2f1ArgumentOrder | src/main/java/FunctionRegistry.java:25 | hyp2f1 receives (x, extras[0], extras[1], extras[2]) in that order |
| PairCoefficients.MultiplyRows | src/main/java/PairCoefficient.java:19-26 | returns a fresh array as long as a row, element i being params[0][i] · params[1][i] in order; the input is not modified |
| PairCoefficients.MultiplyCoefficient | src/main/java/PairCoefficient.java:28-30 | needs at least two elements; when element 1 is ONE the scalar is the constant, element 0 |
| PairCoefficients.Resolve | src/main/java/PairCoefficient.java:11-15 | a rebound coefficient's scalar is the constant when z is not plugged in and constant · z when it is, never z² |
| PairCoefficients.PairCoefficient.constructor | src/main/java/FractalFunctionExtendedParameters.java:27 | a new pair is {c, c} in a fresh two-element array |
| PairCoefficients.PairCoefficient.InsertZ | src/main/java/FractalFunctionExtendedParameters.java:33 | element 1 becomes z or ONE by the flag, element 0 is kept, and the scalar is then the resolved value |
| PairCoefficients.PairCoefficient.ComputeScalar | src/main/java/FractalFunctionExtendedParameters.java:43 | the scalar is the constant whenever the partner is ONE |
| ExtendedParameters.FractalFunctionExtendedParameters.constructor | src/main/java/FractalFunctionExtendedParameters.java:24-29 | one fresh pair per input value, same length and order, each pair's constant and partner both equal to input i |
| ExtendedParameters.FractalFunctionExtendedParameters.Length | src/main/java/FractalFunctionExtendedParameters.java:49-51 | the number of arguments, one per constant |
| ExtendedParameters.FractalFunctionExtendedParameters.InsertZ | src/main/java/FractalFunctionExtendedParameters.java:32-34 | requires 0 <= index < length; only the partner at index changes (to z or ONE), every constant and every other partner is unchanged, and that argument's scalar is the resolved value |
| ExtendedParameters.FractalFunctionExtendedParameters.ComputeScalarArray | src/main/java/FractalFunctionExtendedParameters.java:38-47 | a fresh array with one scalar per argument, in order; nothing is modified |
| Slots.CheckSlot | src/main/java/Slot.java:33-47 | construction succeeds iff the name is registered and the flag vector has 5 + (number of params) entries; an unknown name is reported first, a length mismatch carries both lengths |
| Slots.Slot.constructor | src/main/java/Slot.java:33-50 | B, A, t, p, q become pairs {c, c}, both parameter rows are copies of params, and the flag vector has room for every flag eval reads |
| Slots.Slot.Create | src/main/java/Slot.java:33-50 | throws exactly the validation's error, otherwise returns a fresh valid slot describing its arguments |
| Slots.Slot.RebindCoefficients | src/main/java/Slot.java:54-58 | element 1 of each of B, A, t, p, q becomes z if its flag is set and ONE otherwise; element 0 is never touched |
| Slots.Slot.RebindExtras | src/main/java/Slot.java:59-65 | (corrected loop) row 1 becomes z or ONE per extra flag; row 0, the constants, is unchanged |
| Slots.Slot.Combine | src/main/java/Slot.java:67-74 | the result is B · pow(f(A · pow(t, p), multiplyRows(params)), q) of the current scalars: the outer power applies to f's result, not to B |
| Slots.Slot.Eval | src/main/java/Slot.java:52-75 | the slot's term is unchanged; every partner afterwards depends only on z and the flags (so repeating eval with the same z gives the same state); the result is the term's value at z |
| Slots.TermFailsOnlyOnMissingExtras | src/main/java/Slot.java:68-74 | with the library calls total, a slot's value fails exactly when its function reads more extras than the slot has |
| Slots.FixedTermIgnoresZ | src/main/java/Slot.java:52-75 | a slot into which z is plugged nowhere has the same value for every z |
| Slots.NoExtrasMeansEmptyArray | src/main/java/Slot.java:59-73 | with no extra parameters the function receives an empty extras array |
| Slots.EmptyTermIsZero | src/main/java/FractalRenderer.java:16-17 | the empty slot evaluates to 0 for every z |
| Slots.MandelbrotTermIsSquare | src/main/java/FractalRenderer.java:19-20 | the Mandelbrot slot evaluates to z · z when pow is exact on the exponents 1 and 2 |
| Slots.Slot.RebindExtrasAsWritten | src/main/java/Slot.java:59-65 | (as written) fails for 1 or at least 3 extras, with the index and length Java reports; with 0 or 1 extras both rows are unchanged; with 2 or more extras, before any failure, it overwrites constant params[0][1] with the partner of extra 0 and partner params[1][1] with that of extra 1, and nothing else |
| Slots.Slot.EvalAsWritten | src/main/java/Slot.java:52-75 | (as written) eval fails for 1 or at least 3 extras; on every path it states the slot's new term and row 1 (unchanged with fewer than 2 extras, otherwise extra 1's constant replaced by extra 0's partner and row 1 entry 1 rebound); with 0 or 2 extras it returns the formula on the products of the rows as the loop left them |
| Slots.AsWrittenCounterexample | src/main/java/Slot.java:59-65 | (as written) for extras [2, 3] with no z plugged in, the function receives [4, 1] |
| Slots.CorrectedExample | src/main/java/Slot.java:59-65 | (corrected) the same slot hands the function [2, 3] |
| Slots.AsWrittenPowFails | src/main/java/Slot.java:59-65 | (as written) a pow slot with its one exponent argument fails with index 1 out of bounds for length 1 |
| Slots.CorrectedPowEvaluates | src/main/java/Slot.java:59-65 | (corrected) the same pow slot evaluates without failure, the library's pow being total |
| Slots.EvalWithEnoughExtras | src/main/java/Slot.java:52-75 | (corrected) with the library calls total, eval of a slot with as many extras as its function reads never fails |
| Complex.Divide | src/main/java/FractalRenderer.java:45 | division fails exactly on a zero divisor; otherwise the quotient times the divisor is the dividend |
| Complex.DivTimesDivisor | src/main/java/FractalRenderer.java:45 | exact division is the inverse of multiplication |
| Complex.SquarePlusClosedForm | src/main/java/FractalRenderer.java:118-120 | the real and imaginary parts of z · z + c are zr² − zi² + cr and 2 · zr · zi + ci |
| Escape.CountFromMeaning | src/main/java/FractalRenderer.java:42-52 | a count from step i lies in [i, max]; all earlier steps survived; a count below max is an escape at that step; an error is the first failing step's |
| Escape.EscapeTimeMeaning | src/main/java/FractalRenderer.java:42-52 | for maxIterations >= 0 the count lies in [0, maxIterations]; the steps before it stayed inside the threshold; a count below the budget means that step reached the threshold (>=, the escaping step not counted) |
| Escape.EscapeTimeOfFirstEscape | src/main/java/FractalRenderer.java:81-89 | if the first escaping step within the budget is i, the count is i |
| Escape.EscapeTimeWithoutEscape | src/main/java/FractalRenderer.java:81-90 | if no step within the budget escapes, the count is exactly maxIterations |
| Escape.EscapeTimeNoBudget | src/main/java/FractalRenderer.java:35-42 | with maxIterations <= 0 nothing is iterated and the count is 0 |
| Escape.TotalStepNeverFails | src/main/java/FractalRenderer.java:81-90 | a step that cannot fail gives a count that cannot fail |
| Escape.EscapeTimeSimulation | src/main/java/FractalRenderer.java:107-135 | two loops whose states correspond through a map commuting with step and norm give the same count |
| Escape.FixedPointNeverEscapes | src/main/java/FractalRenderer.java:81-90 | a start point the step fixes, inside the threshold, is counted as the whole budget |
| Renderer.IterateMandelbrot | src/main/java/FractalRenderer.java:72-104 | the loop from z = 0 with z ← z · z + c returns the escape-time count (0 for a budget <= 0) |
| Renderer.SquarePlus | src/main/java/FractalRenderer.java:117-120 | the update written on the mutable pair (zr, zi) through temp, so that the new zi uses the old zr, is one step of the closed-form map |
| Renderer.IterateMandelbrotFast | src/main/java/FractalRenderer.java:107-138 | for maxIterations >= 0 the "record index from -1, patch to maxIterations" scheme returns the escape-time count of the closed-form step; a negative budget is returned unchanged |
| Renderer.FastStepIsMandelbrotStep | src/main/java/FractalRenderer.java:118-120 | the double loop's update on (zr, zi) is z · z + c read on its two parts |
| Renderer.FastMatchesMandelbrot | src/main/java/FractalRenderer.java:107-135 | over exact reals the double loop's step and the arbitrary-precision Mandelbrot step give the same escape-time count for every c, threshold and budget; the two loops return that count for every budget >= 0 |
| Renderer.Evaluate | src/main/java/FractalRenderer.java:45 | one general step: s1, s2, s3 evaluated in order, summed with c, divided by J, raised to K, the first failure ending it; the slots' terms are unchanged |
| Renderer.IterateArbitraryFractal | src/main/java/FractalRenderer.java:34-69 | the general loop from z = 0 returns the escape-time count of the general step (or the first failure); the slots' terms are unchanged |
| Renderer.GeneralStepWithSentinels | src/main/java/FractalRenderer.java:45 | the general step on the Mandelbrot slot and two empty slots with J = K = 1 is z · z + c |
| Renderer.GeneralMatchesMandelbrot | src/main/java/FractalRenderer.java:23-30 | the dispatcher's shortcut is sound for J = K = 1: the general loop on those slots counts what the Mandelbrot loop counts |
| Renderer.NegativeBudgetDisagrees | src/main/java/FractalRenderer.java:73-90 | for a negative maxIterations the Mandelbrot loop returns 0 while the double loop returns the negative budget itself (lines 108, 133-135) |
| Renderer.SentinelStepDivided | src/main/java/FractalRenderer.java:45 | on the Mandelbrot slot and two empty slots with K = 1, the general step is (z · z + c) / J for any non-zero J |
| Renderer.ShortcutIgnoresDivisor | src/main/java/FractalRenderer.java:23-27 | (as written) with the two static slots, J = 2, c = 2.5, threshold 4 and a budget of 1, the dispatcher returns 0, while the general formula it stands for counts 1 |
| Renderer.ShortcutEscapesAtOnce | src/main/java/FractalRenderer.java:81-89 | for c = 2.5 and threshold 4 the Mandelbrot loop escapes at its first step |
| Renderer.HalvedStaysInside | src/main/java/FractalRenderer.java:42-52 | for c = 2.5, J = 2 and threshold 4 the general step survives its first step: (0 · 0 + 2.5) / 2 = 1.25 |
| Renderer.OriginNeverEscapes | src/main/java/FractalRenderer.java:72-104 | c = 0 never escapes a positive threshold: its count is the whole budget |
| Renderer.FractalRenderer.constructor | src/main/java/FractalRenderer.java:16-20 | the two static slots are distinct, valid, and describe the empty term and the Mandelbrot term |
| Renderer.FractalRenderer.Route | src/main/java/FractalRenderer.java:23-30 | the Mandelbrot loop is chosen iff s1 is the Mandelbrot slot, s2 and s3 are the empty slot (by reference) and not fast; the double loop iff the same with fast; otherwise the general loop; J and K play no part |
| Renderer.FractalRenderer.RouteCorrected | src/main/java/FractalRenderer.java:23-30 | (corrected) a shortcut loop is chosen iff the route would choose it and also J = K = 1; otherwise the general loop |
| Renderer.FractalRenderer.CorrectedShortcutIsSound | src/main/java/FractalRenderer.java:23-30 | (corrected) whenever the corrected route picks a shortcut, the general formula on the given slots counts what the Mandelbrot loop and the double loop count |
| Renderer.FractalRenderer.Iterate | src/main/java/FractalRenderer.java:23-31 | returns the count of the loop the route picks; the double loop starts at (0, 0) with c's two parts as its constants |
| Renderer.FractalRenderer.IterateCorrected | src/main/java/FractalRenderer.java:23-31 | (corrected) the dispatcher on the corrected route: for a budget >= 0, whichever loop runs, the result is the general formula's count on the given slots, J and K; the slots' terms are unchanged |

## Left out

- Main.java is not part of this model. It loads a properties file from hard-coded paths, runs a
  thread pool and benchmarks; all of that is I/O and concurrency.
- Timing, message formatting and synchronized console printing inside the loops are left out;
  `threadId` and `PrintLock` serve only that logging.
- The numerics of ApcomplexMath (`pow`, `sin`, `gamma`, `hypergeometric2F1`) are foreign library
  calls. They are uninterpreted members of `MathLib`. `Renderer.GeneralMatchesMandelbrot` needs
  only that `pow` be exact on the exponents 1 and 2.
- Apfloat precision (`maxPrecision`) and IEEE double rounding are not modelled: all arithmetic is
  exact over the reals. So the equivalence of the double loop with the arbitrary-precision loop
  holds only in this abstraction, and `doubleValue()` of c and of the threshold is the identity.
- The static mutable configuration (`maxIterations`, `maxPrecision`, `escapeThreshold2`) is passed
  as a `Config` value, not modelled as global state.
- FractalFunction.java is only the functional interface. It is modelled by the closed set of
  registered functions, `FunctionRegistry.FunctionName`, applied by `FunctionRegistry.Apply`.
- PairCoefficients.MultiplyRows: takes a 2 × n matrix, so it does not model two rows of different
  lengths. The rows of a slot are equal-length clones, so it cannot express the source's weaker
  demand that row 1 be at least as long as row 0.
- Slots.Slot.constructor: keeps the flag vector as an immutable sequence. Java stores the
  caller's array by reference, so a caller could change the flags later; that aliasing is not
  modelled.
- Renderer.IterateArbitraryFractal: requires any two of the three slots to be either the same
  slot or to own disjoint arrays. Every slot built by the constructor owns fresh arrays, so this
  excludes nothing the source can produce.
- Renderer.FractalRenderer.Iterate: keeps the source's route, which ignores J and K (see
  Findings); `Renderer.FractalRenderer.IterateCorrected` is the corrected dispatcher. Neither
  states that the two static slots keep describing the empty and Mandelbrot terms after a
  general-loop run that evaluates them; each evaluated slot's term is stated unchanged.
- The counts are Java `long`s and `maxIterations` an `int`. A count never exceeds `maxIterations`,
  so no overflow is possible and integers are left unbounded.
- Null arguments, on which Java throws, are not modelled.
- FunctionRegistry.ApplyFailsOnlyOnMissingExtras: "exactly" holds only because `MathLib`'s calls are
  total. ApcomplexMath throws for some arguments, for example pow(0, 0) (a z^z slot at z = 0) or
  gamma at a non-positive integer; those failures are not modelled.
- Slots.TermFailsOnlyOnMissingExtras: the same; a library call that throws is not a failure of the
  model.
- Slots.EvalWithEnoughExtras: "never fails" is relative to total library calls, as above.
- Slots.CorrectedPowEvaluates: the same; the pow call itself is assumed not to throw.
- Renderer.FastMatchesMandelbrot: the equality is between escape-time counts. For a negative
  budget the two loops return different values (0 and the budget itself), which
  `Renderer.NegativeBudgetDisagrees` states.

## Findings

| source | as written | input that shows it | evidently intended | confidence | as-written member | corrected member |
|---|---|---|---|---|---|---|
| src/main/java/Slot.java:59-65 | the extras loop writes `params[i][1]`: row i, column 1 | a slot with extras [2, 3] and no z plugged in: the function receives [2·2, 1·1] = [4, 1] | write `params[1][i]`, so the function receives [2, 3] | high; not executed | Slots.AsWrittenCounterexample | Slots.CorrectedExample |
| src/main/java/Slot.java:59-65 | the same indexing reads past the ends for 1 or at least 3 extras | a pow slot with its one exponent argument: index 1 out of bounds for length 1 | every slot with as many extras as its function reads evaluates, unless a library call itself throws | high; not executed | Slots.AsWrittenPowFails | Slots.CorrectedPowEvaluates |
| src/main/java/FractalRenderer.java:23-27 | the shortcut loops are taken whenever the slots are the static ones, whatever J and K are | the static slots with J = 2, c = 2.5, threshold 4, a budget of 1: the dispatcher counts z² + c and returns 0, but (z² + c) / 2 stays inside for that step, so the general formula counts 1 | take a shortcut only when J = K = 1 as well | medium; not executed | Renderer.ShortcutIgnoresDivisor | Renderer.FractalRenderer.IterateCorrected |
