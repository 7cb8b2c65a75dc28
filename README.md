# Direct-search minimizers: Hooke–Jeeves and Nelder–Mead

This project models the two unconstrained minimizers of the repository and
proves properties of them. Neither routine uses derivatives. Both only
compare values of a caller-supplied objective `f`.

- **Hooke–Jeeves** (`hooke_jeeves.dfy`, module `HookeJeeves`) is the direct
  search of "Algorithm 178: Direct Search" (Kaupe, CACM 1963), with the
  Bell–Pike and Tomlin–Smith remarks.
  - `best_nearby` probes each coordinate in turn by plus or minus its step.
    It keeps a probe only when the value is strictly lower. A failed probe
    flips the sign of the step for good.
  - `hooke` repeats three things: an exploration around the base point,
    pattern moves that extrapolate along the last improvement, and a shrink
    of every step by `rho` when nothing improved.
  - The same two routines are transliterated line for line into C, C++,
    Java, JavaScript and Python (13 copies). They differ only in how `f` is
    reached. One model covers them all.
- **Nelder–Mead** (`nelder_mead.dfy`, module `NelderMead`) is `nelmin`, a C
  port of Applied Statistics Algorithm AS 47 (O'Neill 1971). It has:
  - parameter checks with fault codes;
  - construction of a coordinate-aligned simplex;
  - reflection, expansion, contraction and whole-simplex shrink;
  - a variance test every `konvge` passes;
  - an axis-probe test for a local minimum, with restarts.

`common.dfy` (module `Common`) holds the objective type
`seq<real> -> real`, `Abs` and `Option`.

**How the model is built.** Both routines update arrays in place, and the
model does too.

- Each routine is first written as functions on values. For Hooke–Jeeves
  these are `Explore`, `Advance`, `PatternMoves`, `Iteration`, `Run` and
  `Search`. For Nelder–Mead they are `Build`, `Step` (one pass from label
  `L2000`), `PassLoop`, `Factorial` (label `L3000`), `Round`, `Restarts` and
  `Minimize`, over a `Simplex` value (the columns of `p` and the values `y`).
- Each step of the source is then a method over `array<real>` (or
  `array2<real>` for the simplex). Every method is proved to compute exactly
  the matching function: its `ensures` equates the new contents of the
  arrays, and its results, with the function applied to the old contents.
- The properties are lemmas about those functions. The decision of a
  Nelder–Mead pass is the function `Choose`, and its rules are the lemma
  `ChooseRules`.
- Evaluation counts are explicit results: `evals` for Hooke–Jeeves,
  `icount` for `nelmin`.
- Arithmetic is exact (`real`), so rounding never interferes.

**`nelmin` as written.** The model follows the C text of `nelmin.c`, not
the Fortran original.

- The start vertex goes into column `n + 1`, the perturbed vertices go
  into columns `0 .. n - 1`, and every scan covers columns `0 .. n`.
  Column `n` is therefore never built. The model takes its contents as the
  inputs `colN` and `yN`. The results allow for that column to be the
  answer (`xmin == colN && ynewlo == yN`). The rest of the work arrays is
  written before it is read, and is shown as zeros before the first
  construction (`Unbuilt`).
- The scans seed the value with `y[0]` but the index with `1`. An index
  and its value can therefore disagree (`LowIndexMayMissValue`,
  `HighIndexMayMissValue`).
- At `n == VARS` the C code writes `p[i][VARS + 1]` and `y[VARS + 1]`, one
  past the end of its arrays. `Nelmin` requires `n != VARS`.

**The Hooke–Jeeves copies.** The rows for `HookeJeeves.BestNearby` and
`HookeJeeves.Hooke` cite `nlp-unconstrained-cli/hooke-jeeves/__orig/src/hooke.c`.
The same two routines, with the same branches and constants, are at:

| file | best_nearby | hooke |
|---|---|---|
| nlp-unconstrained-core/hooke-jeeves/java/hooke-jeeves/src/main/java/optimization/nonlinear/unconstrained/core/Rosenbrock.java | 232-270 (bestNearby) | 284-395 (hooke) |
| nlp-unconstrained-core/hooke-jeeves/js/src/woods.js | 197-236 (bestNearby) | 251-371 (hooke) |
| nlp-unconstrained-core/hooke-jeeves/java/hooke-jeeves/src/main/java/optimization/nonlinear/unconstrained/core/Woods.java | 135-178 (bestNearby) | 192-314 (hooke) |
| nlp-unconstrained-core/hooke-jeeves/js/src/rosenbrock.js | 112-151 (bestNearby) | 165-285 (hooke) |
| nlp-unconstrained-core/hooke-jeeves/java/src/main/java/optimization/nonlinear/unconstrained/core/Hooke.java | 77-127 (bestNearby) | 144-271 (findMinimum) |
| nlp-unconstrained-cli/hooke-jeeves/java/src/main/java/optimization/nonlinear/unconstrained/cli/Hooke.java | 87-143 (bestNearby) | 160-289 (hooke) |
| nlp-unconstrained-cli/hooke-jeeves/js/src/hooke.js | 102-141 (bestNearby) | 164-284 (hooke) |
| nlp-unconstrained-cli/hooke-jeeves/cc/src/hooke.cc | 64-120 (Hooke::bestNearby) | 123-262 (Hooke::hooke) |
| nlp-unconstrained-core/hooke-jeeves/cc/src/hooke.cc | 74-130 (Hooke::bestNearby) | 133-269 (Hooke::hooke) |
| nlp-unconstrained-core/hooke-jeeves/c/src/hooke.c | 54-93 (best_nearby) | 95-212 (hooke) |
| nlp-unconstrained-cli/hooke-jeeves/c/src/hooke.c | 33-85 (best_nearby) | 88-222 (hooke) |
| nlp-unconstrained-cli/hooke-jeeves/python/src/nlpuccorehooko/hooke.py | 35-93 (Hooke.best_nearby) | 95-231 (Hooke.hooke) |

## Model

| member | source | states |
|---|---|---|
| HookeJeeves.ProbeCoordinate | nlp-unconstrained-cli/hooke-jeeves/__orig/src/hooke.c:225-247 | probing coordinate i changes only coordinate i of the scratch point and of the steps; the step keeps its magnitude or is negated; the running best never rises; a lower best is f at the scratch point, moved by exactly the final step in coordinate i; an unchanged best puts point[i] back after 2 evaluations; the probe costs 1 or 2 evaluations |
| HookeJeeves.ProbeKeepsValue | nlp-unconstrained-cli/hooke-jeeves/__orig/src/hooke.c:225-247 | a probe keeps the running best at or below prevbest, and below it only as the value of f at the scratch point (else the scratch point is the input point) |
| HookeJeeves.ProbeKeepsSteps | nlp-unconstrained-cli/hooke-jeeves/__orig/src/hooke.c:225-247 | a probe of coordinate k keeps coordinates above k untouched, and for coordinate k: step negated or kept, point moved by exactly the final step or not at all, and a non-zero step that did not move was negated |
| HookeJeeves.ExploreFirstValue | nlp-unconstrained-cli/hooke-jeeves/__orig/src/hooke.c:216-249 | after the first k probes the best is at most prevbest, and below it only as f at the scratch point; otherwise the scratch point is the input point |
| HookeJeeves.ExploreFirstSteps | nlp-unconstrained-cli/hooke-jeeves/__orig/src/hooke.c:223-249 | after the first k probes the probed coordinates obey the step rules above and the others are untouched (Gauss–Seidel order) |
| HookeJeeves.ExploreFirstEvals | nlp-unconstrained-cli/hooke-jeeves/__orig/src/hooke.c:227-238 | the first k probes cost between k and 2k evaluations |
| HookeJeeves.ExploreImproves | nlp-unconstrained-cli/hooke-jeeves/__orig/src/hooke.c:216-256 | best_nearby returns at most prevbest; a smaller result is f at the written-back point; an equal result leaves the point unchanged |
| HookeJeeves.BestNearbyContract | nlp-unconstrained-cli/hooke-jeeves/__orig/src/hooke.c:216-256 | the whole contract of best_nearby: the value rules, every \|delta[i]\| kept, each step kept or negated, each coordinate moved by its final step or not at all, an unmoved non-zero step negated, nvars to 2 nvars evaluations |
| HookeJeeves.ProbeInPlace | nlp-unconstrained-cli/hooke-jeeves/__orig/src/hooke.c:225-247 | the in-place probe of one coordinate on the arrays z and delta computes ProbeCoordinate |
| HookeJeeves.ExploreInPlace | nlp-unconstrained-cli/hooke-jeeves/__orig/src/hooke.c:216-249 | the probing loop over z (a copy of point) leaves z, delta, the best value and the count as Explore says |
| HookeJeeves.BestNearby | nlp-unconstrained-cli/hooke-jeeves/__orig/src/hooke.c:204-257 | best_nearby in place: point, delta, the returned value and the evaluation count are those of Explore on the old point and steps |
| HookeJeeves.InitialStep | nlp-unconstrained-cli/hooke-jeeves/__orig/src/hooke.c:297-302 | the initial step \|x rho\| (rho where that is 0) is 0 exactly when rho is 0, and positive when rho is positive |
| HookeJeeves.Initial | nlp-unconstrained-cli/hooke-jeeves/__orig/src/hooke.c:293-311 | the state before the first iteration: newx = xbefore = start, every delta[i] the initial step of start[i], steplength = rho, fbefore = newf = f(start), no iteration and one evaluation |
| HookeJeeves.InitArrays | nlp-unconstrained-cli/hooke-jeeves/__orig/src/hooke.c:293-303 | the set-up loop leaves newx and xbefore equal to startpt and delta equal to the initial steps |
| HookeJeeves.PatternDelta | nlp-unconstrained-cli/hooke-jeeves/__orig/src/hooke.c:342-350 | a pattern move keeps every \|delta[i]\| and makes delta[i] non-positive exactly when newx[i] <= xbefore[i] (or the step is 0) |
| HookeJeeves.Extrapolate | nlp-unconstrained-cli/hooke-jeeves/__orig/src/hooke.c:353-355 | the new probe point repeats the last displacement: x[i] - newx[i] = newx[i] - xbefore[i] |
| HookeJeeves.PatternMove | nlp-unconstrained-cli/hooke-jeeves/__orig/src/hooke.c:340-356 | the in-place loop signs delta as PatternDelta, sets xbefore to the old newx, and newx to Extrapolate |
| HookeJeeves.SignificantDisplacement | nlp-unconstrained-cli/hooke-jeeves/__orig/src/hooke.c:373-387 | keep is true exactly when some \|newx[i] - xbefore[i]\| > 0.5 \|delta[i]\| |
| HookeJeeves.PatternStep | nlp-unconstrained-cli/hooke-jeeves/__orig/src/hooke.c:340-360 | one pass of the pattern-move body (move, fbefore := newf, explore) computes Advance |
| HookeJeeves.PatternMoves | nlp-unconstrained-cli/hooke-jeeves/__orig/src/hooke.c:336-388 | the pattern-move loop, when it finishes within fuel moves, keeps the shape of the state, the step length and the iteration count |
| HookeJeeves.PatternMovesFacts | nlp-unconstrained-cli/hooke-jeeves/__orig/src/hooke.c:336-388 | the pattern-move loop keeps fbefore = f(xbefore) (and newf = f(newx) when smaller); it either stops at once, with nothing changed, or strictly lowers fbefore |
| HookeJeeves.PatternLoop | nlp-unconstrained-cli/hooke-jeeves/__orig/src/hooke.c:334-388 | the in-place pattern-move loop computes PatternMoves; it reports exhaustion exactly when more than fuel moves would be needed |
| HookeJeeves.PatternMovesFuel | nlp-unconstrained-cli/hooke-jeeves/__orig/src/hooke.c:336-388 | more fuel never changes a pattern-move loop that finished, so the fuel bound only cuts runs off |
| HookeJeeves.ScaleSteps | nlp-unconstrained-cli/hooke-jeeves/__orig/src/hooke.c:394-397 | every delta[i] is multiplied by rho, in place |
| HookeJeeves.ShrinkInPlace | nlp-unconstrained-cli/hooke-jeeves/__orig/src/hooke.c:390-398 | when steplength >= epsilon and newf >= fbefore, steplength and every step are multiplied by rho; otherwise nothing changes |
| HookeJeeves.ShrinkOutcome | nlp-unconstrained-cli/hooke-jeeves/__orig/src/hooke.c:390-398 | after the pattern moves of an iteration the shrink keeps the base point and value, and either scales steplength by rho or follows a strict drop of fbefore; with no drop the base point stayed and steplength shrank |
| HookeJeeves.StartIteration | nlp-unconstrained-cli/hooke-jeeves/__orig/src/hooke.c:326-331 | copying xbefore into newx and exploring around it against fbefore computes Begin |
| HookeJeeves.Iterate | nlp-unconstrained-cli/hooke-jeeves/__orig/src/hooke.c:315-398 | one iteration of the outer loop in place computes Iteration, or reports exhaustion exactly when Iteration does |
| HookeJeeves.IterationFacts | nlp-unconstrained-cli/hooke-jeeves/__orig/src/hooke.c:313-399 | an iteration keeps fbefore = f(xbefore), never raises fbefore, and either strictly lowers it or shrinks steplength by rho; if fbefore did not fall, xbefore did not move |
| HookeJeeves.Run | nlp-unconstrained-cli/hooke-jeeves/__orig/src/hooke.c:313-399 | the outer loop, when it finishes, keeps the shape of the state and the number of coordinates |
| HookeJeeves.RunFacts | nlp-unconstrained-cli/hooke-jeeves/__orig/src/hooke.c:313-399 | the outer loop keeps fbefore = f(xbefore), never raises it, stops with iters <= itermax (or with no iteration) and with its guard false |
| HookeJeeves.RunFuel | nlp-unconstrained-cli/hooke-jeeves/__orig/src/hooke.c:313-399 | more fuel never changes a search that finished |
| HookeJeeves.SearchResult | nlp-unconstrained-cli/hooke-jeeves/__orig/src/hooke.c:293-406 | hooke returns endpt with f(endpt) = fbefore <= f(startpt), iters <= itermax (0 when itermax < 0), and stops because iters reached itermax or steplength fell to epsilon |
| HookeJeeves.Hooke | nlp-unconstrained-cli/hooke-jeeves/__orig/src/hooke.c:273-407 | hooke in place: endpt, iters and the evaluation count are those of Search; f(endpt) <= f(startpt); iters <= itermax or 0 |
| HookeJeeves.ConstantIteration | nlp-unconstrained-cli/hooke-jeeves/java/src/main/java/optimization/nonlinear/unconstrained/cli/Hooke.java:108-128 | with an objective that is the same everywhere (as for an unknown class), no probe improves: an iteration keeps the base point and value and multiplies steplength by rho |
| HookeJeeves.ConstantRun | nlp-unconstrained-cli/hooke-jeeves/java/src/main/java/optimization/nonlinear/unconstrained/cli/Hooke.java:207-288 | with a constant objective the outer loop always finishes, keeps the base point, and shrinks steplength once per iteration |
| HookeJeeves.ConstantObjective | nlp-unconstrained-cli/hooke-jeeves/java/src/main/java/optimization/nonlinear/unconstrained/cli/Hooke.java:197-203 | with a constant objective hooke always finishes, returns endpt = startpt, and ends with steplength rho multiplied by rho once per iteration (rho^(iters+1)) |
| NelderMead.Zeros | nlp-unconstrained-core/nelder-mead/c/src/nelmin.c:67-69 | the point reported on a parameter fault: n zeros |
| NelderMead.Nudge | nlp-unconstrained-core/nelder-mead/c/src/nelmin.c:368-381 | a probe point differs from xmin only in coordinate i, by exactly d |
| NelderMead.Reflect | nlp-unconstrained-core/nelder-mead/c/src/nelmin.c:185-187 | the reflection pstar lies as far beyond pbar as the highest vertex lies before it |
| NelderMead.Toward | nlp-unconstrained-core/nelder-mead/c/src/nelmin.c:195-197 | with the expansion coefficient the point lies as far beyond pstar as pstar lies beyond pbar; with the contraction coefficient it is halfway between pbar and the other point (lines 237 and 283) |
| NelderMead.Midpoint | nlp-unconstrained-core/nelder-mead/c/src/nelmin.c:248 | a shrunk vertex lies halfway between the old vertex and the lowest vertex |
| NelderMead.LowScan | nlp-unconstrained-core/nelder-mead/c/src/nelmin.c:147-155 | the low scan as written, seeded with value y[0] and index 1: the index it reports is 1 or one of the scanned indices |
| NelderMead.HighScan | nlp-unconstrained-core/nelder-mead/c/src/nelmin.c:159-167 | the high scan as written, seeded the same way: the index it reports is 1 or one of the scanned indices |
| NelderMead.LowScanFindsMinimum | nlp-unconstrained-core/nelder-mead/c/src/nelmin.c:147-155 | the low scan returns the minimum of y[0 .. n] and an index in 1 .. n; the index is 1 when y[0] is the minimum, and otherwise the first index holding a value below y[0] |
| NelderMead.HighScanFindsMaximum | nlp-unconstrained-core/nelder-mead/c/src/nelmin.c:159-167 | the high scan returns the maximum of y[0 .. n] and an index in 1 .. n; the index is 1 when y[0] is the maximum, and otherwise the first index holding a value above y[0] |
| NelderMead.LowIndexMayMissValue | nlp-unconstrained-core/nelder-mead/c/src/nelmin.c:147-148 | on y = [0, 1, 2] the low scan reports value 0 at index 1, where y holds 1: y[ilo] == ylo is not an invariant |
| NelderMead.HighIndexMayMissValue | nlp-unconstrained-core/nelder-mead/c/src/nelmin.c:159-160 | on y = [2, 1, 0] the high scan reports value 2 at index 1, where y holds 1: y[ihi] == ynewlo is not an invariant |
| NelderMead.Choose | nlp-unconstrained-core/nelder-mead/c/src/nelmin.c:184-305 | the decision of a pass: a replacement vertex has n coordinates, and a pass costs 1 or 2 evaluations |
| NelderMead.ChooseRules | nlp-unconstrained-core/nelder-mead/c/src/nelmin.c:184-305 | the rules of a pass: a new vertex carries its value; a reflection below ylo ends below ylo; a new vertex is no worse than pstar, except a contraction toward p[ihi], which is no worse than y[ihi]; the simplex shrinks exactly when pstar beats no scanned value and the contraction is worse than y[ihi]; a pass costs 1 evaluation exactly when pstar beats two or more values and not ylo, else 2 |
| NelderMead.SumWithout | nlp-unconstrained-core/nelder-mead/c/src/nelmin.c:176-180 | the row sum minus the entry in column ihi is the sum of the row without that entry |
| NelderMead.SumSqNonnegative | nlp-unconstrained-core/nelder-mead/c/src/nelmin.c:329-333 | the sum of squared deviations is never negative |
| NelderMead.FlatValuesConverge | nlp-unconstrained-core/nelder-mead/c/src/nelmin.c:320-337 | when all scanned values are equal, their mean is that value and their spread is 0, so the variance test stops the passes |
| NelderMead.AboveNone | nlp-unconstrained-core/nelder-mead/c/src/nelmin.c:220-235 | l == 0 exactly when no scanned value is above ystar |
| NelderMead.Unbuilt | nlp-unconstrained-core/nelder-mead/c/src/nelmin.c:54-55 | the work arrays p and y before the first construction: n + 2 columns of n coordinates, with column n holding colN and y[n] holding yN |
| NelderMead.Build | nlp-unconstrained-core/nelder-mead/c/src/nelmin.c:117-138 | the construction: column j < n is start moved by step[j] del in coordinate j, column n + 1 is start, each with its value; column n and y[n] keep what they held |
| NelderMead.CentreIsMean | nlp-unconstrained-core/nelder-mead/c/src/nelmin.c:173-182 | each coordinate of pbar is the sum of its row over columns 0 .. n without column ihi, divided by n |
| NelderMead.Halve | nlp-unconstrained-core/nelder-mead/c/src/nelmin.c:245-253 | the whole-simplex shrink: every column 0 .. n gets its value, column ilo stays, column n + 1 and y[n + 1] are untouched |
| NelderMead.Dispersion | nlp-unconstrained-core/nelder-mead/c/src/nelmin.c:319-333 | the variance measure of y[0 .. n] is never negative |
| NelderMead.ShrinkEnd | nlp-unconstrained-core/nelder-mead/c/src/nelmin.c:255-271 | after a shrink the count grows by n + 1 and jcount is kept; the passes go on exactly when the count is still within kcount |
| NelderMead.ReplaceEnd | nlp-unconstrained-core/nelder-mead/c/src/nelmin.c:307-338 | after a replacement ylo and ilo follow y[ihi] when it is lower; jcount counts down and the passes go on while it is not 0; at 0 within budget jcount is reset to konvge and the passes go on exactly when rq < the dispersion; at 0 over budget they stop; the simplex and count are kept |
| NelderMead.Trial | nlp-unconstrained-core/nelder-mead/c/src/nelmin.c:157-191 | the move of a pass takes column ihi in 1 .. n, a replacement has n coordinates, and it costs 1 or 2 evaluations |
| NelderMead.Step | nlp-unconstrained-core/nelder-mead/c/src/nelmin.c:157-338 | one pass raises the count; if another pass follows, jcount is at least 1 and either the budget holds or jcount fell; if the passes stop within budget, jcount is konvge and the dispersion is at most rq |
| NelderMead.PassLoop | nlp-unconstrained-core/nelder-mead/c/src/nelmin.c:157-338 | the passes raise the count, and when they stop within budget jcount is konvge and the dispersion of the values is at most rq |
| NelderMead.StepKeeps | nlp-unconstrained-core/nelder-mead/c/src/nelmin.c:184-305 | a pass keeps every vertex 0 .. n - 1 valued and column n valued or still unbuilt |
| NelderMead.PassLoopKeeps | nlp-unconstrained-core/nelder-mead/c/src/nelmin.c:157-338 | the whole pass loop keeps every vertex valued and column n valued or still unbuilt |
| NelderMead.StepLow | nlp-unconstrained-core/nelder-mead/c/src/nelmin.c:307-311 | a pass keeps ylo at or below every scanned value, except a shrink that overspends the budget and ends the passes |
| NelderMead.PassLoopLow | nlp-unconstrained-core/nelder-mead/c/src/nelmin.c:157-338 | the pass loop keeps ylo at or below every scanned value, unless it ends by overspending the budget |
| NelderMead.Probes | nlp-unconstrained-core/nelder-mead/c/src/nelmin.c:365-394 | the probes from axis i on keep the point's length and cost between 0 and 2 evaluations per remaining axis |
| NelderMead.ProbesFind | nlp-unconstrained-core/nelder-mead/c/src/nelmin.c:365-394 | either every probe holds, xmin is restored and 2 evaluations per axis were spent; or xmin is the first probe below ynewlo in axis order, up before down, every earlier axis holding, after exactly 2k + 1 or 2k + 2 evaluations |
| NelderMead.Factorial | nlp-unconstrained-core/nelder-mead/c/src/nelmin.c:341-394 | label L3000: ynewlo is y[ilo]; a test that does not end the search found the budget unspent and spent at most 2n evaluations |
| NelderMead.FactorialFacts | nlp-unconstrained-core/nelder-mead/c/src/nelmin.c:341-394 | the search ends with column ilo, with fault 2 exactly when the budget was already spent, or with fault 0 at a local minimum after 2n probes; otherwise xmin is the first probe below y[ilo], every earlier axis holding |
| NelderMead.FactorialEnds | nlp-unconstrained-core/nelder-mead/c/src/nelmin.c:341-394 | from a valued simplex: an ending xmin is valued by ynewlo (or is the unbuilt column n); fault 2 means overspent, fault 0 a local minimum within kcount + 2n; a restart point is an axis probe of column ilo below y[ilo] |
| NelderMead.Opening | nlp-unconstrained-core/nelder-mead/c/src/nelmin.c:117-155 | a round opens with the built simplex, n + 1 more evaluations, ilo in 1 .. n and ylo at or below every scanned value |
| NelderMead.Round | nlp-unconstrained-core/nelder-mead/c/src/nelmin.c:117-394 | a round spends more than n evaluations and reports n coordinates; a round that does not end the search stays within kcount + 2n evaluations and leaves jcount at least 1 |
| NelderMead.RoundFacts | nlp-unconstrained-core/nelder-mead/c/src/nelmin.c:117-394 | a round keeps column n valued or unbuilt and ends as FactorialEnds says at the simplex and ilo the passes leave; a restart point is an axis probe of that column ilo |
| NelderMead.RestartsFacts | nlp-unconstrained-core/nelder-mead/c/src/nelmin.c:396-421 | the restart loop ends with fault 0 or 2 and a valued xmin (or the unbuilt column); fault 2 means overspent, fault 0 a local minimum within kcount + 2n; numres counts the restarts; without one start is unchanged, after one it is an axis probe |
| NelderMead.MinimizeFacts | nlp-unconstrained-core/nelder-mead/c/src/nelmin.c:21-422 | fault 1 exactly on invalid parameters, with zeros, value 0, no evaluation, no restart and start unchanged; otherwise the restart loop's promises, from the unbuilt work arrays |
| NelderMead.StoreColumn | nlp-unconstrained-core/nelder-mead/c/src/nelmin.c:119-121 | copying a vector into column j of p changes only that column |
| NelderMead.PlaceVertex | nlp-unconstrained-core/nelder-mead/c/src/nelmin.c:125-136 | one vertex of the construction: start[j] moved by step[j] del is stored as column j with its value, start is restored, nothing else changes |
| NelderMead.BuildSimplex | nlp-unconstrained-core/nelder-mead/c/src/nelmin.c:117-138 | the construction in place leaves start as it was, costs n + 1 evaluations and leaves p and y as Build says |
| NelderMead.ScanLow | nlp-unconstrained-core/nelder-mead/c/src/nelmin.c:147-155 | the low scan loop computes LowScan over y[0 .. n]: the minimum value and an index in 1 .. n (the same loop serves the rescan after a shrink, lines 261-269) |
| NelderMead.ScanHigh | nlp-unconstrained-core/nelder-mead/c/src/nelmin.c:159-167 | the high scan loop computes HighScan over y[0 .. n]: the maximum value and an index in 1 .. n |
| NelderMead.RowSum | nlp-unconstrained-core/nelder-mead/c/src/nelmin.c:176-178 | the inner centroid loop: the sum of row i over the first k columns |
| NelderMead.Centroid | nlp-unconstrained-core/nelder-mead/c/src/nelmin.c:173-182 | the centroid loop computes Centre: the row sums without column ihi, divided by n |
| NelderMead.CountAbove | nlp-unconstrained-core/nelder-mead/c/src/nelmin.c:220-226 | l is the number of scanned values y[0 .. n] strictly above ystar |
| NelderMead.SetVertex | nlp-unconstrained-core/nelder-mead/c/src/nelmin.c:205-209 | column j and y[j] take a new vertex and its value; nothing else changes |
| NelderMead.Pass | nlp-unconstrained-core/nelder-mead/c/src/nelmin.c:184-305 | one pass does what Choose decides: column ihi and y[ihi] take the new vertex and its value, or (shrink) stay; no other column or value changes; 1 or 2 evaluations |
| NelderMead.HalveColumn | nlp-unconstrained-core/nelder-mead/c/src/nelmin.c:247-250 | column j becomes the midpoint of itself and column ilo, xmin receives it, no other column changes |
| NelderMead.ShrinkSimplex | nlp-unconstrained-core/nelder-mead/c/src/nelmin.c:245-255 | the shrink in place leaves p and y as Halve says, at n + 1 evaluations |
| NelderMead.Spread | nlp-unconstrained-core/nelder-mead/c/src/nelmin.c:319-333 | the variance loops compute Dispersion of y[0 .. n] |
| NelderMead.ValueSum | nlp-unconstrained-core/nelder-mead/c/src/nelmin.c:322-324 | the first variance loop: the sum of the scanned values |
| NelderMead.Deviations | nlp-unconstrained-core/nelder-mead/c/src/nelmin.c:329-331 | the second variance loop: the sum of squared deviations from the mean |
| NelderMead.ProbeAxis | nlp-unconstrained-core/nelder-mead/c/src/nelmin.c:365-391 | the two probes of axis i: a probe below ynewlo stops with xmin there, as Probes says; otherwise xmin is restored after 2 evaluations and Probes goes on from axis i + 1 |
| NelderMead.AxisProbes | nlp-unconstrained-core/nelder-mead/c/src/nelmin.c:365-394 | the probe loop leaves xmin, the outcome and the count as Probes says, so with every property ProbesFind proves |
| NelderMead.ShrinkStep | nlp-unconstrained-core/nelder-mead/c/src/nelmin.c:245-271 | the shrink branch on the arrays ends p, y, ylo, ilo and the count as ShrinkEnd says |
| NelderMead.Converge | nlp-unconstrained-core/nelder-mead/c/src/nelmin.c:307-338 | the end of a replacing pass on the arrays gives ylo, ilo, jcount and whether to go on as ReplaceEnd says, writing nothing |
| NelderMead.MoveInPlace | nlp-unconstrained-core/nelder-mead/c/src/nelmin.c:157-305 | the high scan, centroid and move on the arrays give ihi, the shrink decision, the count and the new p and y as Trial says |
| NelderMead.StepInPlace | nlp-unconstrained-core/nelder-mead/c/src/nelmin.c:157-338 | one pass on the arrays ends p, y, ylo, ilo, jcount and the count as Step says |
| NelderMead.Passes | nlp-unconstrained-core/nelder-mead/c/src/nelmin.c:157-338 | the pass loop on the arrays ends p, y, ylo, ilo, jcount and the count as PassLoop says, so with every property of PassLoopKeeps and PassLoopLow |
| NelderMead.FactorialTest | nlp-unconstrained-core/nelder-mead/c/src/nelmin.c:341-394 | label L3000 on the arrays: xmin, ynewlo, the end decision, the fault and the count are those of Factorial on the current simplex |
| NelderMead.OpenRound | nlp-unconstrained-core/nelder-mead/c/src/nelmin.c:117-155 | the construction and low scan on the arrays leave start as it was and end as Opening says |
| NelderMead.RoundInPlace | nlp-unconstrained-core/nelder-mead/c/src/nelmin.c:117-394 | one round on the arrays leaves start as it was and ends p, y, jcount, xmin, ynewlo, the fault and the count as Round says |
| NelderMead.RestartLoop | nlp-unconstrained-core/nelder-mead/c/src/nelmin.c:117-421 | the restart loop on the arrays returns the result and leaves start as Restarts says, from del = 1, jcount = konvge and no evaluation |
| NelderMead.Restart | nlp-unconstrained-core/nelder-mead/c/src/nelmin.c:412-415 | the restart copies the probe point xmin into start |
| NelderMead.WorkArrays | nlp-unconstrained-core/nelder-mead/c/src/nelmin.c:54-55 | the work arrays are fresh, of n + 2 columns, and hold what Unbuilt says |
| NelderMead.Search | nlp-unconstrained-core/nelder-mead/c/src/nelmin.c:109-421 | past the checks: rq = reqmin n, and the result and final start are those of Restarts from the unbuilt work arrays |
| NelderMead.Nelmin | nlp-unconstrained-core/nelder-mead/c/src/nelmin.c:21-422 | the result and the final start are those of Minimize, so fault 1 exactly on invalid parameters (with zeros, no evaluation, start untouched), otherwise fault 0 or 2 with xmin valued by ynewlo (or column n and yN), fault 2 only when overspent, fault 0 only at a local minimum within kcount + 2n, start unchanged without a restart and an axis probe after one |

## Left out

- Trace output and drivers: the `printf`/`print` lines inside `hooke` and every `main` are I/O only.
- Concrete objectives (Rosenbrock, Woods): `f` is a parameter of every member, so any objective is covered.
- Evaluation-counter holders (`funevals` files, getters and setters): counts are returned as `evals` and `icount` instead.
- Header files: they only declare. The constants are taken from `nelmin.h`.
- Floating point: rounding, NaN and infinity are not modelled. All arithmetic is exact `real`. Claims that depend on rounding (convergence to (1, 1), the advice on rho) are out of scope.
- The unused `iadj` counter of `hooke`: it is never read.
- HookeJeeves.Hooke: the pattern-move loop has no integer bound in the source, only a strictly falling fbefore. The model allows at most `fuel` moves per loop and reports `exhausted` when more would be needed. `PatternMovesFuel` and `RunFuel` show that the bound never changes a run that finishes.
- HookeJeeves.Hooke: the `VARS = 250` capacity of the work arrays is not modelled. The arrays have any length.
- HookeJeeves.ConstantObjective: the command-line Java copy uses 0 for an unknown objective class, and the search on that objective is covered as any constant objective. On that path the Java copy skips `setFunEvals` (`Hooke.java` lines 108-114, 122-128 and 197-203), so its own counter leaves those calls out. The model's `evals` counts every call, so it does not model that counter.
- NelderMead.Nelmin: `n == VARS` is excluded by `requires n != VARS`. There the C code writes one column past `p[VARS][VARS + 1]` and `y[VARS + 1]`.
- NelderMead.Nelmin: `icount`, `kcount`, `numres` and `jcount` are `unsigned int` in C. The model uses unbounded naturals, so 32-bit wrap-around is not modelled.
- NelderMead.Nelmin: for `n > VARS` the C code zeroes `opt->xmin[0 .. n-1]` before its checks, which overruns `xmin[VARS]`. The model returns `n` zeros.
- NelderMead.Nelmin: "no evaluation of f on fault 1" is not stated. `f` is a pure function here, so its calls are not observable. The contract says `icount` is 0.
- NelderMead.WorkArrays: `p` and `y` are uninitialised locals in C. The model takes column `n` of `p` and `y[n]` as the inputs `colN` and `yN`, and shows every other entry as 0; those entries are written before they are read.
- NelderMead.Pass: the element-by-element loops that build `pstar` and `p2star` are the sequence functions `Reflect` and `Toward`, not loops.
- The mismatched `nelmin` prototype in `nelmin.h`, and the Java copies that do not build (calls to an undeclared `objectiveFunctionValue`, undefined constants): these are build wiring, not behaviour.
