/**
  The request handlers of backend/app/api.py: the field bounds the request models enforce
  before a handler runs, the power-curve and sample-size endpoints, and the loop of the
  MDE-curve endpoint that keeps only feasible candidate lifts.
*/
module Api {
  import opened Outcomes
  import opened Numerics
  import opened PowerCalculator

  /** MAX_SAMPLE_SIZE_PER_VARIANT */
  const MaxSampleSizePerVariant: real := 1000000.0
  /** A sample size at or above this share of the maximum is flagged as exceeding it. */
  const ExceedsShare: real := 0.99
  /** The MDE curve spans relative lifts from 1 to 100 percent. */
  const MinLiftPct: real := 1.0
  const MaxLiftPct: real := 100.0

  // ---------------------------------------------------------------------------
  // POST /power-curve
  // ---------------------------------------------------------------------------

  datatype PowerCurveRequest = PowerCurveRequest(
    baselinePct: real,
    comparisonPct: real,
    sampleSizePerVariant: int,
    alpha: real,
    alternative: Alternative,
    preExperimentCorrelation: real)
  {
    /** The field bounds of the request model; a request outside them never reaches the handler. */
    predicate Valid() {
      && 0.0 < baselinePct < 100.0
      && 0.0 < comparisonPct < 100.0
      && 0 < sampleSizePerVariant
      && 0.0 < alpha < 1.0
      && 0.0 <= preExperimentCorrelation < 1.0
    }

    function ToSetup(): Setup {
      Setup(baselinePct, comparisonPct, alpha, alternative, preExperimentCorrelation)
    }
  }

  /**
    Two-sided tests use alpha / 2 in each tail, one-sided tests alpha in one: for alpha in
    (0, 1) the critical level is a probability strictly inside (0, 1), so the engine's
    inverse CDF never raises.
  */
  lemma CriticalLevelInside(alpha: real, alt: Alternative)
    requires 0.0 < alpha < 1.0
    ensures 0.0 < CriticalLevel(alpha, alt) < 1.0
    ensures alt == TwoSided ==> 0.5 < CriticalLevel(alpha, alt)
  {
  }

  /**
    get_power_curve: a valid request always yields a payload of 201 points whose power is a
    probability, whose grid in percent increases and brackets both input rates, and which
    echoes the request.
  */
  function GetPowerCurve(m: Lib, req: PowerCurveRequest): (r: PowerCurvePayload)
    requires Lawful(m) && req.Valid()
    ensures Payload(m, req.ToSetup(), req.sampleSizePerVariant, DefaultPoints) == Ok(r)
    ensures 0.0 <= r.power <= 1.0 && r.power + r.beta == 1.0
    ensures r.baselinePct == req.baselinePct && r.comparisonPct == req.comparisonPct
    ensures r.alpha == req.alpha && r.alternative == req.alternative
    ensures r.sampleSizePerVariant == req.sampleSizePerVariant
    ensures r.preExperimentCorrelation == req.preExperimentCorrelation
    ensures |r.xPct| == DefaultPoints && |r.nullPdf| == DefaultPoints && |r.altPdf| == DefaultPoints
    ensures forall i, j :: 0 <= i < j < DefaultPoints ==> r.xPct[i] < r.xPct[j]
    ensures r.xPct[0] < r.baselinePct < r.xPct[DefaultPoints - 1]
    ensures r.xPct[0] < r.comparisonPct < r.xPct[DefaultPoints - 1]
    ensures r.critLowPct.None? <==> req.alternative == Greater
    ensures r.critHighPct.None? <==> req.alternative == Less
  {
    var s := req.ToSetup();
    CriticalLevelInside(req.alpha, req.alternative);
    PayloadInPercent(m, s, req.sampleSizePerVariant, DefaultPoints);
    Payload(m, s, req.sampleSizePerVariant, DefaultPoints).value
  }

  // ---------------------------------------------------------------------------
  // POST /sample-size
  // ---------------------------------------------------------------------------

  datatype SampleSizeRequest = SampleSizeRequest(
    baselinePct: real,
    comparisonPct: real,
    alpha: real,
    power: real,
    alternative: Alternative,
    preExperimentCorrelation: real)
  {
    /** The field bounds of the request model. */
    predicate Valid() {
      && 0.0 < baselinePct < 100.0
      && 0.0 < comparisonPct < 100.0
      && 0.0 < alpha < 1.0
      && 0.0 < power < 1.0
      && 0.0 <= preExperimentCorrelation < 1.0
    }

    function ToSetup(): Setup {
      Setup(baselinePct, comparisonPct, alpha, alternative, preExperimentCorrelation)
    }
  }

  datatype SampleSizeResponse = SampleSizeResponse(
    baselinePct: real,
    comparisonPct: real,
    alpha: real,
    power: real,
    sampleSizePerVariant: real,
    totalSampleSize: real,
    absoluteLiftPct: real,
    relativeLiftPct: real,
    exceedsMaxSampleSize: bool,
    preExperimentCorrelation: real,
    varianceReductionPct: real)

  /**
    The response calculate_sample_size builds around a per-variant size n: both variants
    together need 2n; the absolute lift is the difference of the two rates and the relative
    lift that difference as a percentage of the baseline; the flag is raised from 99% of
    the maximum up; the variance reduction is a function of the correlation alone.
  */
  function SampleSizeSummary(req: SampleSizeRequest, n: real): (r: SampleSizeResponse)
    requires req.Valid()
    ensures r.totalSampleSize == 2.0 * r.sampleSizePerVariant && r.sampleSizePerVariant == n
    ensures r.comparisonPct == r.baselinePct + r.absoluteLiftPct
    ensures r.relativeLiftPct * r.baselinePct == 100.0 * r.absoluteLiftPct
    ensures r.exceedsMaxSampleSize <==> n >= 990000.0
    ensures r.varianceReductionPct == CupedPct(req.preExperimentCorrelation)
    ensures r.baselinePct == req.baselinePct && r.comparisonPct == req.comparisonPct
    ensures r.alpha == req.alpha && r.power == req.power
    ensures r.preExperimentCorrelation == req.preExperimentCorrelation
  {
    var absoluteLift := req.comparisonPct - req.baselinePct;
    var relativeLift := (req.comparisonPct / req.baselinePct - 1.0) * 100.0;
    assert relativeLift * req.baselinePct == 100.0 * absoluteLift by {
      assert (req.comparisonPct / req.baselinePct) * req.baselinePct == req.comparisonPct;
    }
    SampleSizeResponse(
      baselinePct := req.baselinePct,
      comparisonPct := req.comparisonPct,
      alpha := req.alpha,
      power := req.power,
      sampleSizePerVariant := n,
      totalSampleSize := n * 2.0,
      absoluteLiftPct := absoluteLift,
      relativeLiftPct := relativeLift,
      exceedsMaxSampleSize := n >= MaxSampleSizePerVariant * ExceedsShare,
      preExperimentCorrelation := req.preExperimentCorrelation,
      varianceReductionPct := CupedPct(req.preExperimentCorrelation))
  }

  /**
    Two requests with the same correlation report the same variance reduction, whatever
    their rates, alpha, power and sample sizes.
  */
  lemma VarianceReductionOnlyFromCorrelation(req1: SampleSizeRequest, n1: real, req2: SampleSizeRequest, n2: real)
    requires req1.Valid() && req2.Valid()
    requires req1.preExperimentCorrelation == req2.preExperimentCorrelation
    ensures SampleSizeSummary(req1, n1).varianceReductionPct == SampleSizeSummary(req2, n2).varianceReductionPct
    ensures 0.0 <= SampleSizeSummary(req1, n1).varianceReductionPct < 100.0
  {
  }

  /** A valid request passes every check of the engine. */
  lemma ValidSampleSizeAccepted(req: SampleSizeRequest)
    requires req.Valid()
    ensures Accepts(req.ToSetup())
  {
    CriticalLevelInside(req.alpha, req.alternative);
  }

  /**
    calculate_sample_size: a valid request never makes the search fail; the response holds
    the size the search found, which lies in (10, 1e6], with the summary built around it.
  */
  method CalculateSampleSize(m: Lib, req: SampleSizeRequest) returns (r: SampleSizeResponse)
    requires Lawful(m) && req.Valid()
    ensures SampleSize(m, req.ToSetup(), req.power).Ok?
    ensures r == SampleSizeSummary(req, SampleSize(m, req.ToSetup(), req.power).value)
    ensures MinSearchSize < r.sampleSizePerVariant <= MaxSampleSize
  {
    var s := req.ToSetup();
    ValidSampleSizeAccepted(req);
    SampleSizeErrors(m, s, req.power);
    var n := AbTestSampleSize(m, s, req.power);
    SearchBracket(SearchPowers(m, s), req.power);
    r := SampleSizeSummary(req, n.value);
  }

  // ---------------------------------------------------------------------------
  // POST /mde-curve
  // ---------------------------------------------------------------------------

  datatype MdeCurveRequest = MdeCurveRequest(
    baselinePct: real,
    alpha: real,
    power: real,
    alternative: Alternative,
    numPoints: int,
    preExperimentCorrelation: real)
  {
    /** The field bounds of the request model. */
    predicate Valid() {
      && 0.0 < baselinePct < 100.0
      && 0.0 < alpha < 1.0
      && 0.0 < power < 1.0
      && 5 <= numPoints <= 50
      && 0.0 <= preExperimentCorrelation < 1.0
    }
  }

  datatype MdeCurvePoint = MdeCurvePoint(
    relativeLiftPct: real,
    absoluteLiftPct: real,
    comparisonPct: real,
    sampleSizePerVariant: real)

  datatype MdeCurveResponse = MdeCurveResponse(
    baselinePct: real,
    alpha: real,
    power: real,
    points: seq<MdeCurvePoint>)

  /** The comparison rate a relative lift (in percent) gives the baseline. */
  function CandidatePct(req: MdeCurveRequest, lift: real): real {
    req.baselinePct * (1.0 + lift / 100.0)
  }

  /** The engine inputs of one candidate comparison rate. */
  function CandidateSetup(req: MdeCurveRequest, comparisonPct: real): Setup {
    Setup(req.baselinePct, comparisonPct, req.alpha, req.alternative, req.preExperimentCorrelation)
  }

  /**
    The sample size the search finds for a candidate comparison rate from the baseline up
    to (not including) 100%: the engine accepts every such candidate of a valid request, so
    the search answers a size in (10, 1e6].
  */
  function CandidateSize(m: Lib, req: MdeCurveRequest, comparisonPct: real): (n: real)
    requires Lawful(m) && req.Valid() && req.baselinePct <= comparisonPct < 100.0
    ensures SampleSize(m, CandidateSetup(req, comparisonPct), req.power) == Ok(n)
    ensures MinSearchSize < n <= MaxSampleSize
  {
    var s := CandidateSetup(req, comparisonPct);
    CriticalLevelInside(req.alpha, req.alternative);
    SampleSizeErrors(m, s, req.power);
    SearchBracket(SearchPowers(m, s), req.power);
    SampleSize(m, s, req.power).value
  }

  /**
    CandidateSize for every rate the MDE loop can ask about, as one function value. The
    loop never asks below the baseline (its lifts are positive) or from 100% up (it skips
    those first), so the value there is immaterial and set to 0.
  */
  function CandidateSizes(m: Lib, req: MdeCurveRequest): real -> real
    requires Lawful(m) && req.Valid()
  {
    c => if req.baselinePct <= c < 100.0 then CandidateSize(m, req, c) else 0.0
  }

  /**
    A lift is kept when its comparison stays below 100% and the size `size` gives that
    comparison stays below the maximum.
  */
  predicate Feasible(req: MdeCurveRequest, size: real -> real, lift: real) {
    CandidatePct(req, lift) < 100.0 && size(CandidatePct(req, lift)) < MaxSampleSizePerVariant
  }

  /** The point a lift contributes. */
  function PointFor(req: MdeCurveRequest, size: real -> real, lift: real): (p: MdeCurvePoint)
    ensures p.relativeLiftPct == lift
    ensures p.comparisonPct == req.baselinePct * (1.0 + lift / 100.0)
    ensures p.absoluteLiftPct == p.comparisonPct - req.baselinePct
    ensures Feasible(req, size, lift) ==> p.comparisonPct < 100.0 && p.sampleSizePerVariant < MaxSampleSizePerVariant
  {
    var comparisonPct := CandidatePct(req, lift);
    MdeCurvePoint(lift, comparisonPct - req.baselinePct, comparisonPct, size(comparisonPct))
  }

  /**
    The points get_mde_curve emits for `lifts`, in their order, reading sample sizes from
    `size`: each feasible lift gives its point, every other lift is skipped.
  */
  function MdePoints(req: MdeCurveRequest, size: real -> real, lifts: seq<real>): (points: seq<MdeCurvePoint>)
    ensures |points| <= |lifts|
    decreases |lifts|
  {
    if |lifts| == 0 then []
    else
      var lift := lifts[|lifts| - 1];
      var earlier := MdePoints(req, size, lifts[..|lifts| - 1]);
      if Feasible(req, size, lift) then earlier + [PointFor(req, size, lift)] else earlier
  }

  /**
    Filtering distributes over concatenation: the points of `a + b` are those of `a`
    followed by those of `b`, so the emitted points keep the order of their lifts.
  */
  lemma {:induction false} MdePointsAppend(req: MdeCurveRequest, size: real -> real, a: seq<real>, b: seq<real>)
    ensures MdePoints(req, size, a + b) == MdePoints(req, size, a) + MdePoints(req, size, b)
    decreases |b|
  {
    if |b| > 0 {
      assert (a + b)[..|a + b| - 1] == a + b[..|b| - 1];
      MdePointsAppend(req, size, a, b[..|b| - 1]);
    } else {
      assert a + b == a;
    }
  }

  /** A single lift yields its point when it is feasible and nothing otherwise. */
  lemma MdePointsSingle(req: MdeCurveRequest, size: real -> real, lift: real)
    ensures MdePoints(req, size, [lift]) == if Feasible(req, size, lift) then [PointFor(req, size, lift)] else []
  {
    assert [lift][..0] == [];
  }

  /** Completeness: every feasible lift in the sequence has its point among the emitted ones. */
  lemma MdePointsComplete(req: MdeCurveRequest, size: real -> real, lifts: seq<real>, i: int)
    requires 0 <= i < |lifts| && Feasible(req, size, lifts[i])
    ensures PointFor(req, size, lifts[i]) in MdePoints(req, size, lifts)
  {
    var before, after := lifts[..i], lifts[i + 1..];
    assert lifts == before + [lifts[i]] + after;
    MdePointsSingle(req, size, lifts[i]);
    MdePointsAppend(req, size, before, [lifts[i]]);
    MdePointsAppend(req, size, before + [lifts[i]], after);
  }

  /**
    Soundness: every emitted point is the point of a feasible lift of the sequence, so its
    comparison is below 100%, its size below the maximum, its absolute lift the difference
    of the rates and its relative lift the lift that produced it.
  */
  lemma {:induction false} MdePointsSound(req: MdeCurveRequest, size: real -> real, lifts: seq<real>, k: int)
    requires 0 <= k < |MdePoints(req, size, lifts)|
    ensures exists i :: 0 <= i < |lifts| && Feasible(req, size, lifts[i])
              && MdePoints(req, size, lifts)[k] == PointFor(req, size, lifts[i])
    decreases |lifts|
  {
    var last := |lifts| - 1;
    var front := lifts[..last];
    var earlier := MdePoints(req, size, front);
    if k < |earlier| {
      MdePointsSound(req, size, front, k);
      var i :| 0 <= i < |front| && Feasible(req, size, front[i]) && earlier[k] == PointFor(req, size, front[i]);
      assert lifts[i] == front[i];
    } else {
      assert Feasible(req, size, lifts[last]);
    }
  }

  /**
    For lifts of at least 1%, every emitted point has its comparison strictly between the
    baseline and 100%, and carries the size `size` gives that comparison.
  */
  lemma MdePointsInRange(req: MdeCurveRequest, size: real -> real, lifts: seq<real>, k: int)
    requires 0.0 < req.baselinePct
    requires forall i :: 0 <= i < |lifts| ==> MinLiftPct <= lifts[i]
    requires 0 <= k < |MdePoints(req, size, lifts)|
    ensures var p := MdePoints(req, size, lifts)[k];
      && req.baselinePct < p.comparisonPct < 100.0
      && p.sampleSizePerVariant == size(p.comparisonPct) < MaxSampleSizePerVariant
  {
    MdePointsSound(req, size, lifts, k);
    var i :| 0 <= i < |lifts| && Feasible(req, size, lifts[i])
             && MdePoints(req, size, lifts)[k] == PointFor(req, size, lifts[i]);
    assert 0.0 < req.baselinePct * (lifts[i] / 100.0);
  }

  /**
    Every point the MDE curve emits carries the engine's own answer: the search, run on
    that point's comparison, returns exactly its sample size. So the value CandidateSizes
    gives outside [baseline, 100) is never read.
  */
  lemma MdeCurveSizes(m: Lib, req: MdeCurveRequest, k: int)
    requires Lawful(m) && req.Valid()
    requires 0 <= k < |MdePoints(req, CandidateSizes(m, req), m.geomspace(MinLiftPct, MaxLiftPct, req.numPoints))|
    ensures var p := MdePoints(req, CandidateSizes(m, req), m.geomspace(MinLiftPct, MaxLiftPct, req.numPoints))[k];
      && req.baselinePct < p.comparisonPct < 100.0
      && SampleSize(m, CandidateSetup(req, p.comparisonPct), req.power) == Ok(p.sampleSizePerVariant)
      && MinSearchSize < p.sampleSizePerVariant < MaxSampleSizePerVariant
  {
    var size := CandidateSizes(m, req);
    var lifts := m.geomspace(MinLiftPct, MaxLiftPct, req.numPoints);
    MdePointsInRange(req, size, lifts, k);
    var c := MdePoints(req, size, lifts)[k].comparisonPct;
    assert size(c) == CandidateSize(m, req, c);
  }

  /**
    The loop of get_mde_curve over `lifts`: skip a lift whose comparison reaches 100%, ask
    `size` for the sample size of the others, skip those that reach the maximum, and append
    a point for every other one.
  */
  method CollectPoints(req: MdeCurveRequest, size: real -> real, lifts: seq<real>)
    returns (points: seq<MdeCurvePoint>)
    ensures points == MdePoints(req, size, lifts)
  {
    points := [];
    for i := 0 to |lifts|
      invariant points == MdePoints(req, size, lifts[..i])
    {
      var lift := lifts[i];
      assert lifts[..i + 1][..i] == lifts[..i] && lifts[..i + 1][i] == lift;
      var comparisonPct := req.baselinePct * (1.0 + lift / 100.0);
      if comparisonPct >= 100.0 {
        assert !Feasible(req, size, lift);
        continue;
      }
      var n := size(comparisonPct);
      assert comparisonPct == CandidatePct(req, lift);
      if n >= MaxSampleSizePerVariant {
        assert !Feasible(req, size, lift);
        continue;
      }
      var absoluteLift := comparisonPct - req.baselinePct;
      assert MdeCurvePoint(lift, absoluteLift, comparisonPct, n) == PointFor(req, size, lift);
      points := points + [MdeCurvePoint(lift, absoluteLift, comparisonPct, n)];
    }
    assert lifts[..|lifts|] == lifts;
  }

  /**
    get_mde_curve: the geometrically spaced lifts from 1% to 100%, filtered by the sample
    sizes of the search; at most one point per lift.
  */
  method GetMdeCurve(m: Lib, req: MdeCurveRequest) returns (r: MdeCurveResponse)
    requires Lawful(m) && req.Valid()
    ensures r.points == MdePoints(req, CandidateSizes(m, req), m.geomspace(MinLiftPct, MaxLiftPct, req.numPoints))
    ensures |r.points| <= req.numPoints
    ensures r.baselinePct == req.baselinePct && r.alpha == req.alpha && r.power == req.power
  {
    var lifts := m.geomspace(MinLiftPct, MaxLiftPct, req.numPoints);
    var points := CollectPoints(req, CandidateSizes(m, req), lifts);
    r := MdeCurveResponse(req.baselinePct, req.alpha, req.power, points);
  }
}
