/**
  The power and sample-size engine of backend/app/powercalculator.py: CUPED helpers, the
  power curve of a two-proportion test, its percent-unit payload, and the 40-step
  bisection that searches for the per-variant sample size.

  Percentages (0-100) come in; the engine works in proportions (0-1) internally.
*/
module PowerCalculator {
  import opened Outcomes
  import opened Numerics

  /** The three test types; every value other than "two-sided" and "greater" is "less". */
  datatype Alternative = TwoSided | Greater | Less

  /** The exceptions the engine raises, one per failing check. */
  datatype EngineError =
    | SampleSizeNotPositive   // ValueError: sample_size_per_variant must be positive
    | BaselineOutOfRange      // ValueError: baseline_pct must be between 0 and 100
    | ComparisonOutOfRange    // ValueError: comparison_pct must be between 0 and 100
    | CorrelationOutOfRange   // ValueError: correlation must be in range [0, 1)
    | ProbabilityOutOfRange   // StatisticsError from inv_cdf: p must be in (0, 1)
    | NegativePointCount      // ValueError from numpy.linspace: negative number of samples

  /** The inputs shared by the power curve and the sample-size search. */
  datatype Setup = Setup(
    baselinePct: real,
    comparisonPct: real,
    alpha: real,
    alternative: Alternative,
    correlation: real)

  /** Ceiling and floor of the sample-size search, its step count and curve resolution. */
  const MaxSampleSize: real := 1000000.0
  const MinSearchSize: real := 10.0
  const SearchSteps: nat := 40
  const SearchPoints: int := 51
  /** Default number of x points of a power curve. */
  const DefaultPoints: int := 201
  /** The curve extends this many standard errors beyond the outer mean on each side. */
  const CurveHalfWidth: real := 4.0

  // ---------------------------------------------------------------------------
  // CUPED variance reduction
  // ---------------------------------------------------------------------------

  /**
    cuped_variance_reduction_factor: the standard-error multiplier sqrt(1 - rho^2). The
    `correlation == 0` test sits inside the out-of-range branch, where it can never hold.
  */
  function CupedFactor(m: Lib, rho: real): (r: Result<real, EngineError>)
    requires Lawful(m)
    ensures r.Ok? <==> 0.0 <= rho < 1.0
    ensures r.Err? ==> r.error == CorrelationOutOfRange
    ensures r.Ok? ==> 0.0 < r.value <= 1.0 && r.value * r.value == 1.0 - rho * rho
    ensures rho == 0.0 ==> r == Ok(1.0)
  {
    if rho < 0.0 || rho >= 1.0 then
      if rho == 0.0 then Ok(1.0) else Err(CorrelationOutOfRange)
    else
      var f := m.sqrt(1.0 - rho * rho);
      SqrtPositive(m, 1.0 - rho * rho);
      SqrtSquares(m, 1.0 - rho * rho);
      UnitSquareRoot(f, 1.0 - rho * rho);
      Ok(f)
  }

  /** A non-negative number whose square is at most one is at most one; one's root is one. */
  lemma UnitSquareRoot(f: real, v: real)
    requires 0.0 <= f && f * f == v && v <= 1.0
    ensures f <= 1.0
    ensures v == 1.0 ==> f == 1.0
  {
    SquareStrictlyMonotone(f, 1.0);
  }

  lemma SquareStrictlyMonotone(a: real, b: real)
    requires 0.0 <= a && 0.0 <= b
    ensures a < b ==> a * a < b * b
  {
    if a < b {
      var ab := a * b;
      assert a * a <= ab;
      assert ab < b * b;
    }
  }

  /** cuped_variance_reduction_pct: the share of variance removed, in percent. */
  function CupedPct(rho: real): (pct: real)
    ensures rho <= 0.0 ==> pct == 0.0
    ensures 0.0 < rho ==> pct == 100.0 * rho * rho
    ensures rho < 1.0 ==> 0.0 <= pct < 100.0
  {
    if rho <= 0.0 then 0.0
    else
      assert rho < 1.0 ==> rho * rho < rho;
      (1.0 - (1.0 - rho * rho)) * 100.0
  }

  /**
    The reported percentage is exactly the variance the factor removes, 100 * (1 - f^2);
    at rho = 0.7 that is 49 percent.
  */
  lemma CupedPctMatchesFactor(m: Lib, rho: real)
    requires Lawful(m) && 0.0 <= rho < 1.0
    ensures CupedPct(rho) == 100.0 * (1.0 - CupedFactor(m, rho).value * CupedFactor(m, rho).value)
    ensures rho == 0.7 ==> CupedPct(rho) == 49.0
  {
  }

  // ---------------------------------------------------------------------------
  // Power curve
  // ---------------------------------------------------------------------------

  /** The quantile whose inverse CDF is the critical z value. */
  function CriticalLevel(alpha: real, alt: Alternative): real {
    if alt == TwoSided then 1.0 - alpha / 2.0 else 1.0 - alpha
  }

  /** `std_norm.inv_cdf(...)` of the critical level; inv_cdf raises outside (0, 1). */
  function CriticalZ(m: Lib, alpha: real, alt: Alternative): (r: Result<real, EngineError>)
    requires Lawful(m)
    ensures r.Ok? <==> 0.0 < CriticalLevel(alpha, alt) < 1.0
    ensures r.Err? ==> r.error == ProbabilityOutOfRange
    ensures r.Ok? && 0.5 < CriticalLevel(alpha, alt) ==> 0.0 < r.value
    ensures CriticalLevel(alpha, alt) == 0.5 ==> r == Ok(0.0)
    ensures alt == TwoSided && 0.0 < alpha < 1.0 ==> r.Ok? && 0.0 < r.value
  {
    var p := CriticalLevel(alpha, alt);
    if p <= 0.0 || p >= 1.0 then Err(ProbabilityOutOfRange) else Ok(m.invCdf(p))
  }

  /**
    The standard error sqrt(p(1 - p) / n) of a sample proportion, times the CUPED factor:
    its square is the binomial variance p(1 - p) / n scaled by factor^2.
  */
  function StdErr(m: Lib, p: real, n: int, factor: real): (se: real)
    requires Lawful(m) && 0.0 < p < 1.0 && 0 < n && 0.0 < factor
    ensures 0.0 < se
    ensures se * se == p * (1.0 - p) / (n as real) * (factor * factor)
  {
    var v := p * (1.0 - p) / (n as real);
    assert 0.0 < p * (1.0 - p);
    SqrtPositive(m, v);
    SqrtSquares(m, v);
    var r := m.sqrt(v);
    calc {
      (r * factor) * (r * factor);
      (r * r) * (factor * factor);
      v * (factor * factor);
    }
    r * factor
  }

  /**
    With the factor CupedFactor computes, the variance of a sample proportion is reduced by
    (1 - rho^2): the squared standard error is p(1 - p)(1 - rho^2) / n, never more than
    without the covariate.
  */
  lemma {:induction false} CupedStdErr(m: Lib, p: real, n: int, rho: real)
    requires Lawful(m) && 0.0 < p < 1.0 && 0 < n && 0.0 <= rho < 1.0
    ensures var se := StdErr(m, p, n, CupedFactor(m, rho).value);
      && se * se == p * (1.0 - p) * (1.0 - rho * rho) / (n as real)
      && se * se <= p * (1.0 - p) / (n as real)
  {
    var f := CupedFactor(m, rho).value;
    var v := p * (1.0 - p) / (n as real);
    assert f * f == 1.0 - rho * rho;
    assert 0.0 <= rho * rho;
    assert 0.0 < v;
    assert v * (f * f) <= v;
  }

  /** The decision thresholds and the unclipped beta of one test. */
  datatype Decision = Decision(critLow: Option<real>, critHigh: Option<real>, rawBeta: real)

  /**
    The rejection region in proportion units and beta = P(not rejecting | H1), where the
    observed proportion under H1 is N(p1, se1).
  */
  function DecisionRule(m: Lib, alt: Alternative, p0: real, z: real, se0: real, p1: real, se1: real)
    : (d: Decision)
    requires Lawful(m) && 0.0 < se1
    ensures d.critLow.None? <==> alt == Greater
    ensures d.critHigh.None? <==> alt == Less
    ensures d.critLow.Some? ==> d.critLow.value == p0 - z * se0
    ensures d.critHigh.Some? ==> d.critHigh.value == p0 + z * se0
    ensures alt == TwoSided ==>
      d.rawBeta == NormalCdf(m, p1, se1, p0 + z * se0) - NormalCdf(m, p1, se1, p0 - z * se0)
    ensures alt == Greater ==> d.rawBeta == NormalCdf(m, p1, se1, p0 + z * se0)
    ensures alt == Less ==> d.rawBeta == 1.0 - NormalCdf(m, p1, se1, p0 - z * se0)
  {
    match alt
    case TwoSided =>
      var low, high := p0 - z * se0, p0 + z * se0;
      Decision(Some(low), Some(high), NormalCdf(m, p1, se1, high) - NormalCdf(m, p1, se1, low))
    case Greater =>
      var high := p0 + z * se0;
      Decision(None, Some(high), NormalCdf(m, p1, se1, high))
    case Less =>
      var low := p0 - z * se0;
      Decision(Some(low), None, 1.0 - NormalCdf(m, p1, se1, low))
  }

  /**
    When the thresholds are not crossed (z >= 0, se0 >= 0) beta is already a probability,
    so the clip in the engine never changes it.
  */
  lemma DecisionBetaIsProbability(m: Lib, alt: Alternative, p0: real, z: real, se0: real, p1: real, se1: real)
    requires Lawful(m) && 0.0 < se1 && 0.0 <= z && 0.0 <= se0
    ensures 0.0 <= DecisionRule(m, alt, p0, z, se0, p1, se1).rawBeta <= 1.0
  {
    if alt == TwoSided {
      assert 0.0 <= z * se0;
      NormalCdfMonotone(m, p1, se1, p0 - z * se0, p0 + z * se0);
    }
  }

  /** The x range of the curve: four largest standard errors beyond both means, within [0, 1]. */
  function GridBounds(p0: real, p1: real, se0: real, se1: real): (b: (real, real))
    requires 0.0 < p0 < 1.0 && 0.0 < p1 < 1.0 && 0.0 < se0 && 0.0 < se1
    ensures 0.0 <= b.0 < p0 && b.0 < p1
    ensures p0 < b.1 <= 1.0 && p1 < b.1
    ensures b.0 == 0.0 || b.0 == Min(p0, p1) - CurveHalfWidth * Max(se0, se1)
    ensures b.1 == 1.0 || b.1 == Max(p0, p1) + CurveHalfWidth * Max(se0, se1)
    ensures Min(p0, p1) - CurveHalfWidth * Max(se0, se1) <= b.0
    ensures b.1 <= Max(p0, p1) + CurveHalfWidth * Max(se0, se1)
  {
    var seMax := Max(se0, se1);
    (Max(0.0, Min(p0, p1) - CurveHalfWidth * seMax), Min(1.0, Max(p0, p1) + CurveHalfWidth * seMax))
  }

  function Min(a: real, b: real): real { if a <= b then a else b }
  function Max(a: real, b: real): real { if a >= b then a else b }

  /** PowerCurveResult: the curve, its thresholds and the power summary, in proportions. */
  datatype PowerCurveResult = PowerCurveResult(
    x: seq<real>,
    nullPdf: seq<real>,
    altPdf: seq<real>,
    critLow: Option<real>,
    critHigh: Option<real>,
    power: real,
    beta: real,
    alpha: real,
    baseline: real,
    comparison: real,
    sampleSizePerVariant: int,
    preExperimentCorrelation: real,
    varianceReductionPct: real)

  /** Every input check of power_curve_proportions passes. */
  predicate Accepts(s: Setup) {
    && 0.0 < s.baselinePct < 100.0
    && 0.0 < s.comparisonPct < 100.0
    && 0.0 <= s.correlation < 1.0
    && 0.0 < CriticalLevel(s.alpha, s.alternative) < 1.0
  }

  /**
    power_curve_proportions. The checks run in the order sample size, baseline, comparison,
    correlation, critical level, point count, and each failure returns before any curve is
    built; a success carries a power in [0, 1] with power + beta = 1 and three curves of
    `numPoints` entries with positive densities.
  */
  function PowerCurve(m: Lib, s: Setup, n: int, numPoints: int): (r: Result<PowerCurveResult, EngineError>)
    requires Lawful(m)
    ensures r.Ok? <==> 0 < n && Accepts(s) && 0 <= numPoints
    ensures n <= 0 ==> r == Err(SampleSizeNotPositive)
    ensures 0 < n && !(0.0 < s.baselinePct < 100.0) ==> r == Err(BaselineOutOfRange)
    ensures 0 < n && 0.0 < s.baselinePct < 100.0 && !(0.0 < s.comparisonPct < 100.0) ==>
      r == Err(ComparisonOutOfRange)
    ensures (0 < n && 0.0 < s.baselinePct < 100.0 && 0.0 < s.comparisonPct < 100.0
             && !(0.0 <= s.correlation < 1.0)) ==> r == Err(CorrelationOutOfRange)
    ensures (0 < n && 0.0 < s.baselinePct < 100.0 && 0.0 < s.comparisonPct < 100.0
             && 0.0 <= s.correlation < 1.0 && !(0.0 < CriticalLevel(s.alpha, s.alternative) < 1.0))
            ==> r == Err(ProbabilityOutOfRange)
    ensures 0 < n && Accepts(s) && numPoints < 0 ==> r == Err(NegativePointCount)
    ensures r.Ok? ==>
      && 0.0 <= r.value.power <= 1.0 && 0.0 <= r.value.beta <= 1.0
      && r.value.power + r.value.beta == 1.0
      && |r.value.x| == numPoints && |r.value.nullPdf| == numPoints && |r.value.altPdf| == numPoints
      && (forall i :: 0 <= i < numPoints ==> 0.0 < r.value.nullPdf[i] && 0.0 < r.value.altPdf[i])
      && (r.value.critLow.None? <==> s.alternative == Greater)
      && (r.value.critHigh.None? <==> s.alternative == Less)
      && r.value.baseline == s.baselinePct / 100.0
      && r.value.comparison == s.comparisonPct / 100.0
      && r.value.alpha == s.alpha
      && r.value.sampleSizePerVariant == n
      && r.value.preExperimentCorrelation == s.correlation
      && r.value.varianceReductionPct == CupedPct(s.correlation)
  {
    if n <= 0 then Err(SampleSizeNotPositive)
    else
      var p0 := s.baselinePct / 100.0;
      var p1 := s.comparisonPct / 100.0;
      if !(0.0 < p0 < 1.0) then Err(BaselineOutOfRange)
      else if !(0.0 < p1 < 1.0) then Err(ComparisonOutOfRange)
      else match CupedFactor(m, s.correlation)
        case Err(e) => Err(e)
        case Ok(factor) =>
          var se0 := StdErr(m, p0, n, factor);
          var se1 := StdErr(m, p1, n, factor);
          match CriticalZ(m, s.alpha, s.alternative)
          case Err(e) => Err(e)
          case Ok(z) =>
            var d := DecisionRule(m, s.alternative, p0, z, se0, p1, se1);
            var beta := Clip(d.rawBeta, 0.0, 1.0);
            if numPoints < 0 then Err(NegativePointCount)
            else
              var bounds := GridBounds(p0, p1, se0, se1);
              var x := m.linspace(bounds.0, bounds.1, numPoints);
              Ok(PowerCurveResult(
                x := x,
                nullPdf := seq(|x|, i requires 0 <= i < |x| => NormalPdf(m, p0, se0, x[i])),
                altPdf := seq(|x|, i requires 0 <= i < |x| => NormalPdf(m, p1, se1, x[i])),
                critLow := d.critLow,
                critHigh := d.critHigh,
                power := 1.0 - beta,
                beta := beta,
                alpha := s.alpha,
                baseline := p0,
                comparison := p1,
                sampleSizePerVariant := n,
                preExperimentCorrelation := s.correlation,
                varianceReductionPct := CupedPct(s.correlation)))
  }

  /**
    The x grid runs inside [0, 1], strictly increasing, and has both means strictly between
    its first and last points.
  */
  lemma PowerCurveGrid(m: Lib, s: Setup, n: int, numPoints: int)
    requires Lawful(m) && PowerCurve(m, s, n, numPoints).Ok? && 2 <= numPoints
    ensures var c := PowerCurve(m, s, n, numPoints).value;
      && 0.0 <= c.x[0] && c.x[0] < c.baseline && c.x[0] < c.comparison
      && c.baseline < c.x[numPoints - 1] && c.comparison < c.x[numPoints - 1] && c.x[numPoints - 1] <= 1.0
      && (forall i :: 0 <= i < numPoints ==> 0.0 <= c.x[i] <= 1.0)
      && (forall i, j :: 0 <= i < j < numPoints ==> c.x[i] < c.x[j])
    ensures var c := PowerCurve(m, s, n, numPoints).value;
      var f := CupedFactor(m, s.correlation).value;
      var bounds := GridBounds(c.baseline, c.comparison, StdErr(m, c.baseline, n, f), StdErr(m, c.comparison, n, f));
      c.x[0] == bounds.0 && c.x[numPoints - 1] == bounds.1
  {
    var c := PowerCurve(m, s, n, numPoints).value;
    var p0, p1 := s.baselinePct / 100.0, s.comparisonPct / 100.0;
    var f := CupedFactor(m, s.correlation).value;
    var bounds := GridBounds(p0, p1, StdErr(m, p0, n, f), StdErr(m, p1, n, f));
    assert c.x == m.linspace(bounds.0, bounds.1, numPoints);
    LinspaceOrdered(m, bounds.0, bounds.1, numPoints);
  }

  /**
    When the critical level exceeds one half (two-sided with alpha < 1, one-sided with
    alpha < 1/2), every present threshold lies on its own side of the baseline; two-sided
    thresholds bracket it.
  */
  lemma PowerCurveThresholdsAroundBaseline(m: Lib, s: Setup, n: int, numPoints: int)
    requires Lawful(m) && PowerCurve(m, s, n, numPoints).Ok?
    requires 0.5 < CriticalLevel(s.alpha, s.alternative)
    ensures var c := PowerCurve(m, s, n, numPoints).value;
      && (c.critLow.Some? ==> c.critLow.value < c.baseline)
      && (c.critHigh.Some? ==> c.baseline < c.critHigh.value)
  {
    var p0 := s.baselinePct / 100.0;
    var f := CupedFactor(m, s.correlation).value;
    var se0 := StdErr(m, p0, n, f);
    var z := CriticalZ(m, s.alpha, s.alternative).value;
    assert 0.0 < z * se0;
  }

  /**
    With untangled thresholds the clip is inert: power is exactly the probability, under
    the alternative N(p1, se1), of landing in the rejection region.
  */
  lemma PowerCurvePowerIsRejectionMass(m: Lib, s: Setup, n: int, numPoints: int)
    requires Lawful(m) && PowerCurve(m, s, n, numPoints).Ok?
    requires s.alternative == TwoSided ==> s.alpha <= 1.0
    ensures var c := PowerCurve(m, s, n, numPoints).value;
      var se1 := StdErr(m, c.comparison, n, CupedFactor(m, s.correlation).value);
      && (s.alternative == TwoSided ==>
            c.power == 1.0 - (NormalCdf(m, c.comparison, se1, c.critHigh.value)
                              - NormalCdf(m, c.comparison, se1, c.critLow.value)))
      && (s.alternative == Greater ==>
            c.power == 1.0 - NormalCdf(m, c.comparison, se1, c.critHigh.value))
      && (s.alternative == Less ==>
            c.power == NormalCdf(m, c.comparison, se1, c.critLow.value))
  {
    var p0, p1 := s.baselinePct / 100.0, s.comparisonPct / 100.0;
    var f := CupedFactor(m, s.correlation).value;
    var se0, se1 := StdErr(m, p0, n, f), StdErr(m, p1, n, f);
    var z := CriticalZ(m, s.alpha, s.alternative).value;
    if s.alternative == TwoSided {
      assert 0.0 <= z;
      DecisionBetaIsProbability(m, s.alternative, p0, z, se0, p1, se1);
    }
  }

  // ---------------------------------------------------------------------------
  // Percent-unit payload
  // ---------------------------------------------------------------------------

  /** The dictionary power_curve_payload returns: every rate in percent. */
  datatype PowerCurvePayload = PowerCurvePayload(
    alpha: real,
    baselinePct: real,
    comparisonPct: real,
    sampleSizePerVariant: int,
    power: real,
    beta: real,
    critLowPct: Option<real>,
    critHighPct: Option<real>,
    xPct: seq<real>,
    nullPdf: seq<real>,
    altPdf: seq<real>,
    alternative: Alternative,
    preExperimentCorrelation: real,
    varianceReductionPct: real)

  /** to_pct: a missing threshold stays missing. */
  function ToPct(v: Option<real>): (r: Option<real>)
    ensures r.None? <==> v.None?
    ensures r.Some? ==> r.value / 100.0 == v.value
  {
    match v
    case None => None
    case Some(p) => Some(p * 100.0)
  }

  /**
    power_curve_payload: the same errors as the power curve; on success the thresholds and
    grid are the curve's times 100, the densities and power pass through, and the input
    percentages are echoed unchanged.
  */
  function Payload(m: Lib, s: Setup, n: int, numPoints: int): (r: Result<PowerCurvePayload, EngineError>)
    requires Lawful(m)
    ensures r.Err? <==> PowerCurve(m, s, n, numPoints).Err?
    ensures r.Err? ==> r.error == PowerCurve(m, s, n, numPoints).error
    ensures r.Ok? ==>
      var c := PowerCurve(m, s, n, numPoints).value;
      && r.value.baselinePct == s.baselinePct && r.value.comparisonPct == s.comparisonPct
      && r.value.alpha == s.alpha && r.value.alternative == s.alternative
      && r.value.preExperimentCorrelation == s.correlation
      && r.value.sampleSizePerVariant == n
      && r.value.power == c.power && r.value.beta == c.beta
      && r.value.nullPdf == c.nullPdf && r.value.altPdf == c.altPdf
      && |r.value.xPct| == |c.x|
      && (forall i :: 0 <= i < |c.x| ==> r.value.xPct[i] / 100.0 == c.x[i])
      && (r.value.critLowPct.None? <==> c.critLow.None?)
      && (r.value.critHighPct.None? <==> c.critHigh.None?)
      && (r.value.critLowPct.Some? ==> r.value.critLowPct.value / 100.0 == c.critLow.value)
      && (r.value.critHighPct.Some? ==> r.value.critHighPct.value / 100.0 == c.critHigh.value)
      && r.value.varianceReductionPct == c.varianceReductionPct
  {
    match PowerCurve(m, s, n, numPoints)
    case Err(e) => Err(e)
    case Ok(c) =>
      Ok(PowerCurvePayload(
        alpha := c.alpha,
        baselinePct := s.baselinePct,
        comparisonPct := s.comparisonPct,
        sampleSizePerVariant := c.sampleSizePerVariant,
        power := c.power,
        beta := c.beta,
        critLowPct := ToPct(c.critLow),
        critHighPct := ToPct(c.critHigh),
        xPct := seq(|c.x|, i requires 0 <= i < |c.x| => c.x[i] * 100.0),
        nullPdf := c.nullPdf,
        altPdf := c.altPdf,
        alternative := s.alternative,
        preExperimentCorrelation := c.preExperimentCorrelation,
        varianceReductionPct := c.varianceReductionPct))
  }

  /**
    In percent units the grid lies in [0, 100], increases strictly and has the echoed
    baseline and comparison strictly inside it; when the critical level exceeds one half,
    the thresholds sit on their own sides of the echoed baseline.
  */
  lemma PayloadInPercent(m: Lib, s: Setup, n: int, numPoints: int)
    requires Lawful(m) && Payload(m, s, n, numPoints).Ok? && 2 <= numPoints
    ensures var r := Payload(m, s, n, numPoints).value;
      && |r.xPct| == numPoints
      && (forall i :: 0 <= i < numPoints ==> 0.0 <= r.xPct[i] <= 100.0)
      && (forall i, j :: 0 <= i < j < numPoints ==> r.xPct[i] < r.xPct[j])
      && r.xPct[0] < r.baselinePct < r.xPct[numPoints - 1]
      && r.xPct[0] < r.comparisonPct < r.xPct[numPoints - 1]
    ensures var r := Payload(m, s, n, numPoints).value;
      0.5 < CriticalLevel(s.alpha, s.alternative) ==>
        && (r.critLowPct.Some? ==> r.critLowPct.value < r.baselinePct)
        && (r.critHighPct.Some? ==> r.baselinePct < r.critHighPct.value)
  {
    var r := Payload(m, s, n, numPoints).value;
    var c := PowerCurve(m, s, n, numPoints).value;
    PowerCurveGrid(m, s, n, numPoints);
    assert c.baseline * 100.0 == s.baselinePct && c.comparison * 100.0 == s.comparisonPct;
    forall i | 0 <= i < numPoints ensures r.xPct[i] == c.x[i] * 100.0 {
    }
    if 0.5 < CriticalLevel(s.alpha, s.alternative) {
      PowerCurveThresholdsAroundBaseline(m, s, n, numPoints);
    }
  }

  // ---------------------------------------------------------------------------
  // Sample size by bisection
  // ---------------------------------------------------------------------------

  /** The search interval [low, high] of ab_test_sample_size. */
  datatype Interval = Interval(low: real, high: real)

  /**
    The first check of power_curve_proportions that a setup fails, for a positive sample
    size and a non-negative point count; None when it passes them all.
  */
  function Rejection(s: Setup): (e: Option<EngineError>)
    ensures e.None? <==> Accepts(s)
  {
    if !(0.0 < s.baselinePct / 100.0 < 1.0) then Some(BaselineOutOfRange)
    else if !(0.0 < s.comparisonPct / 100.0 < 1.0) then Some(ComparisonOutOfRange)
    else if !(0.0 <= s.correlation < 1.0) then Some(CorrelationOutOfRange)
    else if !(0.0 < CriticalLevel(s.alpha, s.alternative) < 1.0) then Some(ProbabilityOutOfRange)
    else None
  }

  /**
    The power the search reads off a 51-point curve at sample size n. At every positive n
    it fails exactly when the setup is rejected, with that rejection, and otherwise gives a
    probability.
  */
  function SearchPower(m: Lib, s: Setup, n: int): (r: Result<real, EngineError>)
    requires Lawful(m)
    ensures n <= 0 ==> r == Err(SampleSizeNotPositive)
    ensures 0 < n ==> (r.Err? <==> Rejection(s).Some?)
    ensures 0 < n && r.Err? ==> r.error == Rejection(s).value
    ensures r.Ok? ==> 0.0 <= r.value <= 1.0
  {
    match PowerCurve(m, s, n, SearchPoints)
    case Err(e) => Err(e)
    case Ok(curve) => Ok(curve.power)
  }

  /** SearchPower at every sample size, as the one function value the search reads. */
  function SearchPowers(m: Lib, s: Setup): int -> Result<real, EngineError>
    requires Lawful(m)
  {
    n => SearchPower(m, s, n)
  }

  /** The power at `floor(x)` was computed and reaches the target. */
  predicate Reaches(power: int -> Result<real, EngineError>, target: real, x: real) {
    power(x.Floor).Ok? && power(x.Floor).value >= target
  }

  /**
    `steps` rounds of the search loop from [low, high], reading the power at the floor of
    each midpoint: the midpoint becomes `high` when the power reaches the target and `low`
    otherwise; an error in computing the power ends the search with that error.
  */
  function Bisect(power: int -> Result<real, EngineError>, target: real, low: real, high: real, steps: nat)
    : Result<Interval, EngineError>
    decreases steps
  {
    if steps == 0 then Ok(Interval(low, high))
    else
      var mid := (low + high) / 2.0;
      match power(mid.Floor)
      case Err(e) => Err(e)
      case Ok(p) =>
        if p >= target then Bisect(power, target, low, mid, steps - 1)
        else Bisect(power, target, mid, high, steps - 1)
  }

  /** 2^k */
  function Pow2(k: nat): (p: real)
    ensures 1.0 <= p
  {
    if k == 0 then 1.0 else 2.0 * Pow2(k - 1)
  }

  /**
    The search keeps `low < high` inside the starting interval and halves its width every
    round; `high` only ever moves to a point whose power reached the target, and `low` only
    to one whose power did not.
  */
  lemma {:induction false} BisectBrackets(
    power: int -> Result<real, EngineError>, target: real, low: real, high: real, steps: nat)
    requires low < high
    ensures var r := Bisect(power, target, low, high, steps);
      r.Ok? ==>
        && low <= r.value.low < r.value.high <= high
        && r.value.high - r.value.low == (high - low) / Pow2(steps)
        && (r.value.high == high || Reaches(power, target, r.value.high))
        && (r.value.low == low || !Reaches(power, target, r.value.low))
    decreases steps
  {
    if steps > 0 {
      var mid := (low + high) / 2.0;
      var half := (high - low) / 2.0;
      assert half / Pow2(steps - 1) == (high - low) / Pow2(steps);
      if power(mid.Floor).Ok? {
        if Reaches(power, target, mid) {
          BisectBrackets(power, target, low, mid, steps - 1);
        } else {
          BisectBrackets(power, target, mid, high, steps - 1);
        }
      }
    }
  }

  /** Computing the power fails at every size from 1 up, with one error, or at none. */
  ghost predicate FailsUniformly(power: int -> Result<real, EngineError>) {
    forall n :: 1 <= n ==> (power(n).Err? <==> power(1).Err?) && (power(n).Err? ==> power(n) == power(1))
  }

  /**
    When the power fails uniformly, a search of at least one round over sizes of at least 1
    fails exactly when the power at 1 does, with the same error.
  */
  lemma {:induction false} BisectErrors(
    power: int -> Result<real, EngineError>, target: real, low: real, high: real, steps: nat)
    requires FailsUniformly(power) && 1.0 <= low < high && 0 < steps
    ensures var r := Bisect(power, target, low, high, steps);
      && (r.Ok? <==> power(1).Ok?)
      && (r.Err? ==> r.error == power(1).error)
    decreases steps
  {
    var mid := (low + high) / 2.0;
    assert 1 <= mid.Floor;
    if power(mid.Floor).Ok? && 1 < steps {
      if Reaches(power, target, mid) {
        BisectErrors(power, target, low, mid, steps - 1);
      } else {
        BisectErrors(power, target, mid, high, steps - 1);
      }
    }
  }

  /**
    The 40-round search from [10, 1e6] over `power`, answering the final `high`, or the
    first error in computing a power.
  */
  function Search(power: int -> Result<real, EngineError>, target: real): Result<real, EngineError> {
    match Bisect(power, target, MinSearchSize, MaxSampleSize, SearchSteps)
    case Err(e) => Err(e)
    case Ok(interval) => Ok(interval.high)
  }

  /**
    A found sample size n lies in (10, 1e6]; unless it is the ceiling, the power at floor(n)
    reached the target, and at the search's final lower end n - (1e6 - 10) / 2^40 it did
    not (unless that end is still 10).
  */
  lemma SearchBracket(power: int -> Result<real, EngineError>, target: real)
    requires Search(power, target).Ok?
    ensures var n := Search(power, target).value;
      var lowEnd := n - (MaxSampleSize - MinSearchSize) / Pow2(SearchSteps);
      && MinSearchSize < n <= MaxSampleSize
      && MinSearchSize <= lowEnd < n
      && (n == MaxSampleSize || Reaches(power, target, n))
      && (lowEnd == MinSearchSize || !Reaches(power, target, lowEnd))
  {
    BisectBrackets(power, target, MinSearchSize, MaxSampleSize, SearchSteps);
  }

  /**
    ab_test_sample_size as a value: the two proportion checks, then the search over the
    power of 51-point curves.
  */
  function SampleSize(m: Lib, s: Setup, target: real): (r: Result<real, EngineError>)
    requires Lawful(m)
  {
    if !(0.0 < s.baselinePct / 100.0 < 1.0) then Err(BaselineOutOfRange)
    else if !(0.0 < s.comparisonPct / 100.0 < 1.0) then Err(ComparisonOutOfRange)
    else Search(SearchPowers(m, s), target)
  }

  /**
    The search fails exactly when the setup is rejected, with the first failing check in
    the engine's order: baseline, comparison, correlation, critical level.
  */
  lemma SampleSizeErrors(m: Lib, s: Setup, target: real)
    requires Lawful(m)
    ensures var r := SampleSize(m, s, target);
      && (r.Ok? <==> Accepts(s))
      && (r.Err? ==> r.error == Rejection(s).value)
  {
    var power := SearchPowers(m, s);
    if 0.0 < s.baselinePct < 100.0 && 0.0 < s.comparisonPct < 100.0 {
      assert FailsUniformly(power) by {
        forall n | 1 <= n
          ensures (power(n).Err? <==> power(1).Err?) && (power(n).Err? ==> power(n) == power(1))
        {
          assert power(n) == SearchPower(m, s, n) && power(1) == SearchPower(m, s, 1);
        }
      }
      BisectErrors(power, target, MinSearchSize, MaxSampleSize, SearchSteps);
    }
  }

  /**
    The 40-round loop of ab_test_sample_size on [10, 1e6], reading `power` at the floor of
    each midpoint and moving `high` or `low` to it.
  */
  method SearchLoop(power: int -> Result<real, EngineError>, target: real) returns (r: Result<real, EngineError>)
    ensures r == Search(power, target)
  {
    var low, high := MinSearchSize, MaxSampleSize;
    for i := 0 to SearchSteps
      invariant Bisect(power, target, low, high, SearchSteps - i)
             == Bisect(power, target, MinSearchSize, MaxSampleSize, SearchSteps)
    {
      var mid := (low + high) / 2.0;
      var result := power(mid.Floor);
      if result.Err? {
        return Err(result.error);
      }
      if result.value >= target {
        high := mid;
      } else {
        low := mid;
      }
    }
    r := Ok(high);
  }

  /**
    ab_test_sample_size: validate both proportions, then run the search loop over the power
    of 51-point curves.
  */
  method AbTestSampleSize(m: Lib, s: Setup, target: real) returns (r: Result<real, EngineError>)
    requires Lawful(m)
    ensures r == SampleSize(m, s, target)
  {
    var baseline := s.baselinePct / 100.0;
    var comparison := s.comparisonPct / 100.0;
    if !(0.0 < baseline < 1.0) {
      return Err(BaselineOutOfRange);
    }
    if !(0.0 < comparison < 1.0) {
      return Err(ComparisonOutOfRange);
    }
    r := SearchLoop(SearchPowers(m, s), target);
  }
}
