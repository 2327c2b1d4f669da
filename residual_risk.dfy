/** Residual risk: the number of infectious donations that escape the screen, per `per`
    donations a year, from the incidence and the infectious window period. */
module Residual {
  import opened Numerics
  import opened Detection
  import opened Window
  import opened Uncertainty

  const DaysPerYear: real := 365.25

  /** The quantile levels of the residual-risk interval (fixed, whatever alpha is). */
  const LowerLevel: real := 0.025
  const UpperLevel: real := 0.975

  /** incidence * iwp / 365.25 * per: the annual incidence applied to the fraction of a year
      during which an infection would be missed. No window, no risk; a window of a whole year
      misses every incident infection. */
  function AnnualRisk(incidence: real, iwp: real, per: real): (risk: real)
    ensures iwp == 0.0 ==> risk == 0.0
    ensures iwp == DaysPerYear ==> risk == incidence * per
  {
    incidence * iwp / DaysPerYear * per
  }

  /** residual_risk writes the point estimate as incidence * (iwp / 365.25) * per; over the reals
      this is the same quantity as residual_risk_iwp's incidence * iwp / 365.25 * per. */
  lemma AnnualRiskGrouping(incidence: real, iwp: real, per: real)
    ensures incidence * (iwp / DaysPerYear) * per == AnnualRisk(incidence, iwp, per)
  {
    assert incidence * (iwp / DaysPerYear) == incidence * iwp / DaysPerYear;
  }

  /** Non-negative inputs give a non-negative risk. */
  lemma AnnualRiskNonnegative(incidence: real, iwp: real, per: real)
    requires incidence >= 0.0 && iwp >= 0.0 && per >= 0.0
    ensures AnnualRisk(incidence, iwp, per) >= 0.0
  {
    assert incidence * iwp >= 0.0;
    assert incidence * iwp / DaysPerYear >= 0.0;
  }

  /** With non-negative incidence and base, a longer window never lowers the risk. */
  lemma AnnualRiskMonotoneInWindow(incidence: real, iwp1: real, iwp2: real, per: real)
    requires incidence >= 0.0 && per >= 0.0 && iwp1 <= iwp2
    ensures AnnualRisk(incidence, iwp1, per) <= AnnualRisk(incidence, iwp2, per)
  {
    var p1, p2 := incidence * iwp1, incidence * iwp2;
    assert p1 <= p2 by {
      ProductNonnegative(incidence, iwp2 - iwp1);
      assert p2 - p1 == incidence * (iwp2 - iwp1);
    }
    var x1, x2 := p1 / DaysPerYear, p2 / DaysPerYear;
    assert x1 <= x2;
    ProductNonnegative(x2 - x1, per);
    assert x2 * per - x1 * per == (x2 - x1) * per;
  }

  /** The risk list of the bootstrap: element i pairs incidence draw i with window replicate i. */
  function RiskSamples(incidenceDraws: seq<real>, iwp: seq<real>, per: real): (rr: seq<real>)
    requires |incidenceDraws| == |iwp|
    ensures |rr| == |iwp|
    ensures forall i :: 0 <= i < |iwp| ==> rr[i] == AnnualRisk(incidenceDraws[i], iwp[i], per)
  {
    if |iwp| == 0 then []
    else
      var m := |iwp| - 1;
      RiskSamples(incidenceDraws[..m], iwp[..m], per) + [AnnualRisk(incidenceDraws[m], iwp[m], per)]
  }

  lemma RiskSamplesSnoc(incidenceDraws: seq<real>, iwp: seq<real>, incidence: real, window: real, per: real)
    requires |incidenceDraws| == |iwp|
    ensures RiskSamples(incidenceDraws + [incidence], iwp + [window], per)
         == RiskSamples(incidenceDraws, iwp, per) + [AnnualRisk(incidence, window, per)]
  {
    var m := |iwp|;
    assert (incidenceDraws + [incidence])[..m] == incidenceDraws;
    assert (iwp + [window])[..m] == iwp;
  }

  lemma RiskSamplesExtend(incidenceDraws: seq<real>, iwp: seq<real>, i: nat, window: real, per: real)
    requires i < |incidenceDraws| && |iwp| == i
    ensures RiskSamples(incidenceDraws[..i + 1], iwp + [window], per)
         == RiskSamples(incidenceDraws[..i], iwp, per) + [AnnualRisk(incidenceDraws[i], window, per)]
  {
    assert incidenceDraws[..i + 1] == incidenceDraws[..i] + [incidenceDraws[i]];
    RiskSamplesSnoc(incidenceDraws[..i], iwp, incidenceDraws[i], window, per);
  }

  /** What residual_risk_iwp returns: point estimate, interval and standard error. */
  datatype RiskEstimate = RiskEstimate(pointEstimate: real, interval: (real, real), standardError: real)

  /** residual_risk_iwp: scales a given window bootstrap list, one incidence draw per element.
      alpha is accepted and ignored: the interval is always the 2.5% and 97.5% quantiles. */
  method ResidualRiskIwp(lib: Library, iwpPointEstimate: real, iwpSamples: seq<real>, incidence: real,
                         incidenceDraws: seq<real>, per: real, alpha: real) returns (r: RiskEstimate)
    requires |incidenceDraws| == |iwpSamples|
    ensures r.pointEstimate == AnnualRisk(incidence, iwpPointEstimate, per)
    ensures r.interval == Quantiles(lib, RiskSamples(incidenceDraws, iwpSamples, per), LowerLevel, UpperLevel)
    ensures r.standardError == Std(lib, RiskSamples(incidenceDraws, iwpSamples, per))
  {
    var pointEstimate := AnnualRisk(incidence, iwpPointEstimate, per);
    var n := |iwpSamples|;
    var rr: seq<real> := [];
    var i := 0;
    while i < n
      invariant i <= n
      invariant rr == RiskSamples(incidenceDraws[..i], iwpSamples[..i], per)
    {
      rr := rr + [AnnualRisk(incidenceDraws[i], iwpSamples[i], per)];
      assert incidenceDraws[..i + 1] == incidenceDraws[..i] + [incidenceDraws[i]];
      assert iwpSamples[..i + 1] == iwpSamples[..i] + [iwpSamples[i]];
      RiskSamplesSnoc(incidenceDraws[..i], iwpSamples[..i], incidenceDraws[i], iwpSamples[i], per);
      i := i + 1;
    }
    assert incidenceDraws[..n] == incidenceDraws && iwpSamples[..n] == iwpSamples;
    r := RiskEstimate(pointEstimate, Quantiles(lib, rr, LowerLevel, UpperLevel), Std(lib, rr));
  }

  /** What residual_risk returns: (iwp_pe, rr_pe) without a bootstrap, or
      (iwp_pe, iwp_ci, rr_pe, rr_ci, rr_se) with one. */
  datatype RiskReport =
    | PointOnly(iwpPointEstimate: real, rrPointEstimate: real)
    | WithUncertainty(iwpPointEstimate: real, iwpInterval: (real, real), rrPointEstimate: real,
                      rrInterval: (real, real), rrStandardError: real)

  /** residual_risk: the window point estimate (raising the validation error of risk_days), its
      annual risk, and for nBs > 0 a fused bootstrap whose risk list pairs incidence draw i with
      window replicate i; for nBs <= 0 only the two point estimates. */
  method ResidualRisk(lib: Library, nominal: RiskArgs, incidence: real, per: real, nBs: int,
                      d: Draws, incidenceDraws: seq<real>) returns (r: Result<RiskReport>)
    requires InDomain(lib, nominal)
    requires nBs > 0 ==> DrawsHaveLength(d, nBs) && |incidenceDraws| == nBs && DrawsInDomain(lib, nominal, d, nBs)
    ensures !CountsValid(nominal) ==> r.Err? && r.error == RiskDays(lib, nominal, DefaultZ, DefaultLimits).error
    ensures CountsValid(nominal) && nBs <= 0 ==>
              var iwpPe := RiskDays(lib, nominal, DefaultZ, DefaultLimits).value;
              r == Ok(PointOnly(iwpPe, AnnualRisk(incidence, iwpPe, per)))
    ensures CountsValid(nominal) && nBs > 0 ==>
              var iwpPe := RiskDays(lib, nominal, DefaultZ, DefaultLimits).value;
              var iwp := BootstrapSamples(lib, nominal, d, nBs, nBs);
              var rr := RiskSamples(incidenceDraws, iwp, per);
              r == Ok(WithUncertainty(iwpPe, Quantiles(lib, iwp, LowerLevel, UpperLevel), AnnualRisk(incidence, iwpPe, per),
                                      Quantiles(lib, rr, LowerLevel, UpperLevel), Std(lib, rr)))
  {
    var iwpPe :- RiskDays(lib, nominal, DefaultZ, DefaultLimits);
    var rrPe := incidence * (iwpPe / DaysPerYear) * per;
    AnnualRiskGrouping(incidence, iwpPe, per);
    if nBs > 0 {
      var iwp, rr := FusedBootstrap(lib, nominal, per, nBs, d, incidenceDraws);
      r := Ok(WithUncertainty(iwpPe, Quantiles(lib, iwp, LowerLevel, UpperLevel), rrPe,
                              Quantiles(lib, rr, LowerLevel, UpperLevel), Std(lib, rr)));
    } else {
      r := Ok(PointOnly(iwpPe, rrPe));
    }
  }

  /** The loop of residual_risk: one window replicate and one risk per index, the risk of index i
      built from replicate i and incidence draw i. */
  method FusedBootstrap(lib: Library, nominal: RiskArgs, per: real, n: nat, d: Draws, incidenceDraws: seq<real>)
    returns (iwp: seq<real>, rr: seq<real>)
    requires CountsValid(nominal)
    requires DrawsHaveLength(d, n) && |incidenceDraws| == n && DrawsInDomain(lib, nominal, d, n)
    ensures iwp == BootstrapSamples(lib, nominal, d, n, n)
    ensures rr == RiskSamples(incidenceDraws, iwp, per)
  {
    iwp, rr := [], [];
    var i := 0;
    while i < n
      invariant FusedProgress(lib, nominal, per, n, d, incidenceDraws, i, iwp, rr)
    {
      var rd := Replicate(lib, nominal, d, n, i);
      FusedStep(lib, nominal, per, n, d, incidenceDraws, i, iwp, rr);
      iwp := iwp + [rd];
      rr := rr + [AnnualRisk(incidenceDraws[i], iwp[i], per)];
      i := i + 1;
    }
    assert incidenceDraws[..n] == incidenceDraws;
  }

  /** After i iterations of the fused loop: the first i replicates, and their risks. */
  predicate FusedProgress(lib: Library, nominal: RiskArgs, per: real, n: nat, d: Draws, incidenceDraws: seq<real>,
                          i: nat, iwp: seq<real>, rr: seq<real>)
  {
    && CountsValid(nominal)
    && DrawsHaveLength(d, n) && |incidenceDraws| == n && DrawsInDomain(lib, nominal, d, n)
    && i <= n && |iwp| == i
    && iwp == BootstrapSamples(lib, nominal, d, n, i)
    && rr == RiskSamples(incidenceDraws[..i], iwp, per)
  }

  lemma FusedStep(lib: Library, nominal: RiskArgs, per: real, n: nat, d: Draws, incidenceDraws: seq<real>,
                  i: nat, iwp: seq<real>, rr: seq<real>)
    requires i < n && FusedProgress(lib, nominal, per, n, d, incidenceDraws, i, iwp, rr)
    ensures var rd := Replicate(lib, nominal, d, n, i);
            FusedProgress(lib, nominal, per, n, d, incidenceDraws, i + 1, iwp + [rd],
                          rr + [AnnualRisk(incidenceDraws[i], rd, per)])
  {
    var rd := Replicate(lib, nominal, d, n, i);
    assert BootstrapSamples(lib, nominal, d, n, i + 1) == iwp + [rd];
    RiskSamplesExtend(incidenceDraws, iwp, i, rd, per);
  }

  /** The fused residual_risk agrees with iwp_bs followed by residual_risk_iwp on the same draws:
      same point estimates, same risk interval and standard error, and, when iwp_bs uses its
      default alpha of 0.05, the same window interval. */
  method FusedMatchesTwoStage(lib: Library, nominal: RiskArgs, incidence: real, per: real, nBs: nat,
                              d: Draws, incidenceDraws: seq<real>, alpha: real)
    returns (fused: Result<RiskReport>, stage1: Result<IwpEstimate>, stage2: RiskEstimate)
    requires InDomain(lib, nominal) && CountsValid(nominal) && nBs > 0
    requires DrawsHaveLength(d, nBs) && |incidenceDraws| == nBs && DrawsInDomain(lib, nominal, d, nBs)
    ensures fused.Ok? && fused.value.WithUncertainty? && stage1.Ok?
    ensures fused.value.iwpPointEstimate == stage1.value.pointEstimate
    ensures fused.value.rrPointEstimate == stage2.pointEstimate
    ensures fused.value.rrInterval == stage2.interval
    ensures fused.value.rrStandardError == stage2.standardError
    ensures alpha == 0.05 ==> fused.value.iwpInterval == stage1.value.interval
  {
    fused := ResidualRisk(lib, nominal, incidence, per, nBs, d, incidenceDraws);
    stage1 := IwpBootstrap(lib, nominal, d, nBs, alpha);
    stage2 := ResidualRiskIwp(lib, stage1.value.pointEstimate, stage1.value.samples, incidence,
                              incidenceDraws, per, alpha);
  }
}
