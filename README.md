# A/B-test power and sample-size engine, in Dafny

This project models the calculation core of an A/B-test power and sample-size service.
The service answers three questions about a two-proportion test: what the power curve looks like for a
given per-variant sample size, how many users per variant a target power needs, and how
that need changes with the minimum detectable effect (MDE). The model covers both layers of
the core:

- `backend/app/powercalculator.py`, the engine:
  - the CUPED variance-reduction helpers;
  - `power_curve_proportions`: input checks in a fixed order, the critical value,
    the decision thresholds for each test type, beta and power, and the x grid with two
    normal densities;
  - `power_curve_payload`: the same result in percent units;
  - `ab_test_sample_size`: a 40-round bisection for the sample size.
- `backend/app/api.py`, the HTTP handlers:
  - the field bounds of the request models;
  - `get_power_curve`;
  - `calculate_sample_size`: the lift summaries and the exceeds-maximum flag;
  - `get_mde_curve`: a loop that skips infeasible candidate lifts and collects the others.

Files:

- `outcomes.dfy` (`Outcomes`): `Option` for Python's `None`, and `Result` for a value or a
  raised exception.
- `numerics.dfy` (`Numerics`): the foreign numerical routines the engine calls, from
  `statistics.NormalDist`, `math` and numpy. They are the record `Lib`. The ghost predicate
  `Lawful` states the only laws the model takes of them:
  - CDF values lie in [0, 1];
  - the CDF is monotone in x;
  - `inv_cdf(1/2) = 0`, and `inv_cdf(p) > 0` for p > 1/2;
  - `sqrt` is the non-negative root;
  - `exp` is positive;
  - `linspace(a, b, k)` has k points, starts at a, ends at b, and is evenly spaced;
  - `geomspace(a, b, k)` has k points within [a, b].

  Every member that needs these routines takes a `Lib` and requires `Lawful`. The ordering of grid points is
  derived from these laws by induction.
- `powercalculator.dfy` (`PowerCalculator`): the engine. Pure parts are functions. The
  bisection is the recursive specification `Bisect`, plus the method `SearchLoop`, whose
  `for` loop updates `low` and `high` in place.
- `api.dfy` (`Api`): the request models with their `Valid()` bounds, and the three handlers.
  The MDE loop is the method `CollectPoints`, with `continue`, proved against the
  specification `MdePoints`.

All arithmetic is over exact reals. Every statement is about the code's control flow and
algebra, not about floating-point accuracy. Python's `int(mid)` becomes `mid.Floor`; the
two agree because every midpoint is at least 10. `MAX_SAMPLE_SIZE_PER_VARIANT * 0.99` is
990000.

The bisection is stated over a power function `int -> Result<real, EngineError>`:
`Bisect`, `Search`, `BisectBrackets`, `BisectErrors`, `SearchBracket` and `SearchLoop` are
about any such function. `SearchPowers(m, s)` is the engine's own power function: the power
of a 51-point curve at each size. `SampleSize` and `AbTestSampleSize` use that one. The MDE
filter is stated the same way, over a function from comparison rate to sample size.
`CandidateSizes(m, req)` is the engine's instance.

About the CUPED percentage: the doc comment of `cuped_variance_reduction_pct` says that
rho = 0.7 gives about 51%. The code computes 100 * rho^2, which is 49% (`CupedPctMatchesFactor`).
The code agrees with its own formula and with the factor sqrt(1 - rho^2), so the model
follows the code. The comment quotes the share of variance that remains, not the share removed.

Two-sided tests with alpha in (1, 2) would make the engine's thresholds cross. Beta would
then be negative before the clip. At alpha = 1 the critical level is 1/2, `inv_cdf(1/2)` is
0, both thresholds equal the baseline and beta is 0, so the clip changes nothing. From
alpha = 2 up, `inv_cdf` raises. So `PowerCurvePowerIsRejectionMass` holds for two-sided tests
with alpha <= 1. The request models only admit alpha in (0, 1).

## Model

| member | source | states |
|---|---|---|
| Numerics.NormalCdf | backend/app/powercalculator.py:274 | `NormalDist(mu, sigma).cdf` with a positive sigma is a probability in [0, 1] |
| Numerics.NormalCdfMonotone | backend/app/powercalculator.py:274-293 | the alternative's CDF does not decrease from the lower threshold to the upper one |
| Numerics.NormalPdf | backend/app/powercalculator.py:306-321 | the density written out in the engine is strictly positive at every x |
| Numerics.Clip | backend/app/powercalculator.py:296 | `np.clip` lands in [lo, hi]; it leaves a value inside unchanged and replaces a value outside with the nearer bound |
| Numerics.LinspaceOrdered | backend/app/powercalculator.py:304 | for a <= b every grid point lies in [a, b]; for a < b the points strictly increase from first to last |
| Numerics.LinspaceRises | backend/app/powercalculator.py:304 | chaining equal steps: for a < b any earlier grid point lies strictly below any later one, and at or below it for a <= b |
| PowerCalculator.CupedFactor | backend/app/powercalculator.py:57-63 | raises exactly when rho < 0 or rho >= 1 (the `correlation == 0` branch inside that test is dead); otherwise the factor f is in (0, 1] with f^2 = 1 - rho^2, and rho = 0 gives exactly 1 |
| PowerCalculator.CupedPct | backend/app/powercalculator.py:81-83 | 0 for rho <= 0, 100 rho^2 for rho > 0, and in [0, 100) for rho < 1 |
| PowerCalculator.CupedPctMatchesFactor | backend/app/powercalculator.py:79-83 | the percentage is the variance the factor removes, 100 (1 - f^2); at rho = 0.7 it is 49 |
| PowerCalculator.CriticalZ | backend/app/powercalculator.py:266-270 | `inv_cdf` of 1 - alpha/2 (two-sided) or 1 - alpha raises exactly when that level is outside (0, 1); above 1/2 the critical z is positive, and at exactly 1/2 it is 0 |
| PowerCalculator.StdErr | backend/app/powercalculator.py:255-262 | the CUPED-scaled standard error of a proportion in (0, 1) with n > 0 is positive, and its square is the binomial variance p(1 - p)/n times factor^2 |
| PowerCalculator.CupedStdErr | backend/app/powercalculator.py:209-214 | with the factor CupedFactor computes, the curve's variance of a sample proportion is p(1 - p)(1 - rho^2)/n: reduced by (1 - rho^2), never above the uncorrected p(1 - p)/n |
| PowerCalculator.DecisionRule | backend/app/powercalculator.py:276-293 | two-sided has both thresholds p0 -/+ z se0 and beta = cdf(high) - cdf(low); greater has no low threshold and beta = cdf(high); less has no high threshold and beta = 1 - cdf(low) |
| PowerCalculator.DecisionBetaIsProbability | backend/app/powercalculator.py:276-297 | with z >= 0 and se0 >= 0 the unclipped beta is already in [0, 1] for every test type |
| PowerCalculator.GridBounds | backend/app/powercalculator.py:300-302 | x_min = max(0, min(p0, p1) - 4 se_max): it is 0 or that value, and at least both; it lies in [0, both means). Symmetrically x_max = min(1, max(p0, p1) + 4 se_max) lies in (both means, 1] |
| PowerCalculator.PowerCurve | backend/app/powercalculator.py:242-337 | fails exactly on a non-positive size, then baseline, comparison, correlation, critical level and negative point count, in that order; on success power and beta lie in [0, 1] with power + beta = 1, the three curves have num_points entries with positive densities, the thresholds have the shape of the test type, and the inputs are echoed in proportion units |
| PowerCalculator.PowerCurveGrid | backend/tests/test_powercalculator.py:256-269 | for at least two points the x grid starts exactly at x_min and ends exactly at x_max of `GridBounds` for the curve's own standard errors, lies in [0, 1], strictly increases, and has baseline and comparison strictly between its first and last points |
| PowerCalculator.PowerCurveThresholdsAroundBaseline | backend/tests/test_powercalculator.py:198-207 | when the critical level exceeds 1/2, crit_low < p0 < crit_high wherever those thresholds exist |
| PowerCalculator.PowerCurvePowerIsRejectionMass | backend/app/powercalculator.py:280-297 | the clip is inert: power is exactly the probability under N(p1, se1) of landing in the rejection region of each test type |
| PowerCalculator.ToPct | backend/app/powercalculator.py:363-364 | None stays None; a value v becomes the v' with v' / 100 = v |
| PowerCalculator.Payload | backend/app/powercalculator.py:340-381 | fails exactly when the power curve does, with its error; otherwise echoes the input percentages, alpha, size and test type, passes power, beta and densities through, and gives grid and thresholds times 100 |
| PowerCalculator.PayloadInPercent | backend/tests/test_powercalculator.py:346-361 | in percent the grid lies in [0, 100], strictly increases and brackets the echoed baseline and comparison; thresholds sit on their own side of the baseline when the critical level exceeds 1/2 |
| PowerCalculator.Rejection | backend/app/powercalculator.py:245-270 | the first failing input check of a setup; none exactly when the engine accepts the setup |
| PowerCalculator.SearchPower | backend/app/powercalculator.py:172-182 | the power the search reads at size n: a non-positive n raises; at a positive n it fails exactly when the setup is rejected, with that rejection, and otherwise it is a probability |
| PowerCalculator.BisectBrackets | backend/app/powercalculator.py:164-186 | throughout the search low <= low' < high' <= high and the width halves every round; `high` only moves to a point whose power reached the target, `low` only to one whose power did not |
| PowerCalculator.BisectErrors | backend/app/powercalculator.py:168-180 | if computing the power fails at every size from 1 up or at none, a search over sizes >= 1 fails exactly when the power at 1 does, with the same error |
| PowerCalculator.SearchBracket | backend/app/powercalculator.py:164-187 | the answer n lies in (10, 1e6]; unless it is 1e6 the power at floor(n) reached the target, and at the last lower end n - (1e6 - 10)/2^40 it did not unless that end is 10 |
| PowerCalculator.SampleSizeErrors | backend/app/powercalculator.py:154-160 | the sample size fails exactly when the setup is rejected, with the first failing check in the order baseline, comparison, correlation, critical level |
| PowerCalculator.SearchLoop | backend/app/powercalculator.py:165-187 | the 40-round loop updating low and high in place answers exactly the recursive specification `Search` |
| PowerCalculator.AbTestSampleSize | backend/app/powercalculator.py:116-187 | validates both proportions, then runs the loop over the power of 51-point curves; the answer is `SampleSize` |
| Api.CriticalLevelInside | backend/app/api.py:41 | for a request alpha in (0, 1) the critical level of every test type lies in (0, 1), above 1/2 for two-sided tests |
| Api.GetPowerCurve | backend/app/api.py:138-161 | a request within the model's bounds always gets a 201-point payload whose power is a probability and whose grid increases and brackets both rates, echoing the request |
| Api.SampleSizeSummary | backend/app/api.py:188-209 | total = 2n; absolute lift = comparison - baseline; relative lift times baseline = 100 times absolute lift; the flag is raised exactly when n >= 0.99 * 1,000,000; variance reduction is `CupedPct` of the correlation |
| Api.VarianceReductionOnlyFromCorrelation | backend/app/api.py:195 | two sample-size responses with the same correlation report the same variance reduction, whatever their rates and sizes |
| Api.ValidSampleSizeAccepted | backend/app/api.py:70-76 | every request within the sample-size model's bounds passes all of the engine's checks |
| Api.CalculateSampleSize | backend/app/api.py:167-209 | a valid request never makes the search fail; the response is built around the size found, which lies in (10, 1e6] |
| Api.CandidateSize | backend/app/api.py:232-246 | for a valid MDE request every candidate comparison from the baseline up to 100% is accepted, and its sample size lies in (10, 1e6] |
| Api.PointFor | backend/app/api.py:252-259 | an emitted point carries the lift that generated it, the comparison baseline (1 + lift/100), and absolute lift = comparison - baseline; when the lift is kept, comparison < 100 and size < 1,000,000 |
| Api.MdePoints | backend/app/api.py:229-261 | the filter never emits more points than there are lifts |
| Api.MdePointsAppend | backend/app/api.py:229-261 | the points of a + b are the points of a followed by those of b, so emitted points keep the order of their lifts |
| Api.MdePointsSingle | backend/app/api.py:234-250 | a single lift yields its point exactly when its comparison is below 100% and its size below the maximum |
| Api.MdePointsComplete | backend/app/api.py:229-261 | every feasible lift has its point among the emitted ones |
| Api.MdePointsSound | backend/app/api.py:229-261 | every emitted point is the point of a feasible lift of the sequence |
| Api.CollectPoints | backend/app/api.py:229-261 | the loop with two `continue`s and an append produces exactly `MdePoints` |
| Api.MdePointsInRange | backend/app/api.py:229-261 | for lifts of at least 1%, every emitted point's comparison lies strictly between the baseline and 100%, and its size is the size function's value there, below the maximum |
| Api.MdeCurveSizes | backend/app/api.py:229-261 | every point of the MDE curve carries exactly the size the sample-size search returns for its comparison, in (10, 1e6) |
| Api.GetMdeCurve | backend/app/api.py:212-268 | the points are the filter of the geometric lifts from 1% to 100%, at most `numPoints` of them, with the request echoed |

## Left out

- Floating-point arithmetic: every quantity is an exact real. So test claims of accuracy
  are not modelled: power within 0.01 of the target, concrete sample sizes, densities that
  integrate to about 1, one-sided tests needing fewer users, larger effects needing fewer
  users.
- `statistics.NormalDist`, `math.sqrt`, `math.exp`, `numpy.sqrt`, `numpy.linspace` and
  `numpy.geomspace` are foreign numerics. They are the fields of `Lib`, with only the laws
  in `Lawful`. Their algorithms and rounding are not modelled.
- SearchBracket: does not prove that the answer is the smallest size that reaches the
  target, as the comment on line 187 claims. That needs power to grow with n, which no
  law about the foreign routines gives.
- PowerCurvePowerIsRejectionMass: stated only for two-sided tests with alpha <= 1, plus all
  one-sided tests. With alpha in (1, 2) two-sided thresholds cross and the clip acts.
- The engine treats every test-type string other than "two-sided" and "greater" as
  "less". The model has exactly three test types, which are all the request models admit.
- The API's request validation (pydantic, HTTP 422 replies) is not modelled as code: each
  handler requires its request's `Valid()` bounds.
- CollectPoints: reads each candidate's sample size from the function `CandidateSizes`
  rather than calling the search method per lift. `AbTestSampleSize` is proved to answer
  the same value (`SampleSize`) that `CandidateSizes` gives.
- The uncorrected comparison fields of the power-curve response (`comparisonNullPdf` and
  the rest, backend/app/api.py:62-67) are declared but never filled in, so they are not
  represented.
- The FastAPI application object, CORS middleware, the health endpoint, JSON
  serialisation and the uvicorn entry point of backend/app/api.py are transport plumbing.
  server.py (static files and logging) is not part of this model.
