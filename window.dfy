/** The window integrator: the probability of being infectious and undetected at time t
    since infection, and its integral over a fixed window ("risk days"). */
module Window {
  import opened Numerics
  import opened Infectivity
  import opened Detection

  /** Integration limits of risk_days, in days since infection. */
  const DefaultLimits: (real, real) := (-100.0, 500.0)

  /** Integration limits of risk_days_wc, in days since infection. */
  const DefaultLimitsWc: (real, real) := (-20.0, 100.0)

  /** The argument vector of risk_days, besides z and the limits (risk_days_wc does not read k). */
  datatype RiskArgs = RiskArgs(
    copiesPerVirion: real,
    c0: real,
    doublingTime: real,
    volumeTransfused: real,
    k: real,
    poolSize: PyNumber,
    lod50: real,
    lodRatio: real,
    retests: PyNumber)

  /** The two integer arguments pass validation. */
  predicate CountsValid(a: RiskArgs) {
    PoolSizeValid(a.poolSize) && RetestsValid(a.retests)
  }

  /** No division by zero occurs: t / doubling_time always, and once the pool size is accepted,
      C / (pool_size * lod50) and the division by log10(lod95_lod50_ratio). */
  predicate InDomain(lib: Library, a: RiskArgs) {
    a.doublingTime != 0.0 && (PoolSizeValid(a.poolSize) ==> a.lod50 != 0.0 && Log10(lib, a.lodRatio) != 0.0)
  }

  /** The screen's miss probability for these arguments at time t. */
  function Undetected(lib: Library, t: real, a: RiskArgs, z: real): (r: Result<real>)
    requires InDomain(lib, a)
  {
    ProbNondetection(lib, t, a.copiesPerVirion, a.c0, a.doublingTime, a.poolSize, a.lod50, a.lodRatio, a.retests, z)
  }

  /** prob_infectious_nondetection: prob_infectious times prob_nondetection. The infectivity factor
      is called without copies_per_virion and so always uses the default of 2 copies per virion.
      Validation errors are those of prob_nondetection; a valid value is below the infectivity ceiling. */
  function ProbInfectiousNondetection(lib: Library, t: real, a: RiskArgs, z: real): (r: Result<real>)
    requires InDomain(lib, a)
    ensures !PoolSizeValid(a.poolSize) ==> r == Err(PoolSizeError)
    ensures PoolSizeValid(a.poolSize) && !RetestsValid(a.retests) ==> r == Err(RetestsError)
    ensures CountsValid(a) ==> r.Ok? && r.value < InfectivityCeiling
  {
    var infectious := ProbInfectious(lib, t, a.c0, a.doublingTime, a.volumeTransfused, a.k, DefaultCopiesPerVirion);
    var undetected :- Undetected(lib, t, a, z);
    ScaledBelowCeiling(infectious, undetected);
    Ok(infectious * undetected)
  }

  lemma ScaledBelowCeiling(x: real, p: real)
    requires x < InfectivityCeiling && 0.0 <= p <= 1.0
    ensures x * p < InfectivityCeiling
  {
    if x > 0.0 {
      assert x * p <= x * 1.0;
    } else {
      ProductNonnegative(-x, p);
      assert x * p == -((-x) * p);
    }
  }

  /** For a non-negative initial concentration, volume and rate, and an exp that is increasing with
      exp(0) = 1, the joint probability lies in [0, 1.000000000001). */
  lemma ProbInfectiousNondetectionBounds(lib: Library, t: real, a: RiskArgs, z: real)
    requires ExpAnchored(lib) && ExpIncreasing(lib)
    requires InDomain(lib, a) && CountsValid(a)
    requires a.c0 >= 0.0 && a.volumeTransfused >= 0.0 && a.k >= 0.0
    ensures 0.0 <= ProbInfectiousNondetection(lib, t, a, z).value < InfectivityCeiling
  {
    InfectiousPositive(lib, t, a);
    var infectious := ProbInfectious(lib, t, a.c0, a.doublingTime, a.volumeTransfused, a.k, DefaultCopiesPerVirion);
    var undetected := Undetected(lib, t, a, z).value;
    assert infectious * undetected >= 0.0;
  }

  lemma InfectiousPositive(lib: Library, t: real, a: RiskArgs)
    requires ExpAnchored(lib) && ExpIncreasing(lib)
    requires a.doublingTime != 0.0
    requires a.c0 >= 0.0 && a.volumeTransfused >= 0.0 && a.k >= 0.0
    ensures ProbInfectious(lib, t, a.c0, a.doublingTime, a.volumeTransfused, a.k, DefaultCopiesPerVirion) > 0.0
  {
    var copies := CopiesTransfused(lib, t, a.c0, a.doublingTime, a.volumeTransfused, DefaultCopiesPerVirion);
    assert copies >= 0.0 by {
      var c := Concentration(lib, a.c0, a.doublingTime, t);
      assert c >= 0.0;
      assert c * DefaultCopiesPerVirion >= 0.0;
    }
    ProbInfectiousCopiesBounds(lib, copies, a.k);
  }

  /** prob_infectious_nondetection_wc: the step infectivity times prob_nondetection, so it is the
      miss probability once two copies are transfused and exactly 0 before. */
  function ProbInfectiousNondetectionWc(lib: Library, t: real, a: RiskArgs, z: real): (r: Result<real>)
    requires InDomain(lib, a)
    ensures !PoolSizeValid(a.poolSize) ==> r == Err(PoolSizeError)
    ensures PoolSizeValid(a.poolSize) && !RetestsValid(a.retests) ==> r == Err(RetestsError)
    ensures CountsValid(a) ==> r.Ok? && 0.0 <= r.value <= 1.0
    ensures CountsValid(a) ==>
              r.value == if CopiesTransfused(lib, t, a.c0, a.doublingTime, a.volumeTransfused, DefaultCopiesPerVirion)
                              >= WorstCaseThreshold
                         then Undetected(lib, t, a, z).value else 0.0
  {
    var infectious := ProbInfectiousWc(lib, t, a.c0, a.doublingTime, a.volumeTransfused, DefaultCopiesPerVirion);
    var undetected :- Undetected(lib, t, a, z);
    Ok(infectious * undetected)
  }

  /** The integrand handed to quad for valid arguments. */
  function Integrand(lib: Library, a: RiskArgs, z: real): real -> real
    requires InDomain(lib, a) && CountsValid(a)
  {
    t => ProbInfectiousNondetection(lib, t, a, z).value
  }

  /** The integrand handed to quad by risk_days_wc for valid arguments. */
  function IntegrandWc(lib: Library, a: RiskArgs, z: real): (f: real -> real)
    requires InDomain(lib, a) && CountsValid(a)
    ensures forall t: real :: 0.0 <= f(t) <= 1.0
  {
    t => ProbInfectiousNondetectionWc(lib, t, a, z).value
  }

  /** risk_days: quad raises the integrand's validation error on its first evaluation; otherwise
      the result is the integral of the joint probability over the limits. */
  function RiskDays(lib: Library, a: RiskArgs, z: real, limits: (real, real)): (r: Result<real>)
    requires InDomain(lib, a)
    ensures !PoolSizeValid(a.poolSize) ==> r == Err(PoolSizeError)
    ensures PoolSizeValid(a.poolSize) && !RetestsValid(a.retests) ==> r == Err(RetestsError)
    ensures CountsValid(a) ==> r == Ok(Quad(lib, Integrand(lib, a, z), limits.0, limits.1))
  {
    if !CountsValid(a) then Err(ProbInfectiousNondetection(lib, limits.0, a, z).error)
    else Ok(Quad(lib, Integrand(lib, a, z), limits.0, limits.1))
  }

  /** risk_days_wc: as risk_days, for the worst-case integrand. */
  function RiskDaysWc(lib: Library, a: RiskArgs, z: real, limits: (real, real)): (r: Result<real>)
    requires InDomain(lib, a)
    ensures !PoolSizeValid(a.poolSize) ==> r == Err(PoolSizeError)
    ensures PoolSizeValid(a.poolSize) && !RetestsValid(a.retests) ==> r == Err(RetestsError)
    ensures CountsValid(a) ==> r == Ok(Quad(lib, IntegrandWc(lib, a, z), limits.0, limits.1))
  {
    if !CountsValid(a) then Err(ProbInfectiousNondetectionWc(lib, limits.0, a, z).error)
    else Ok(Quad(lib, IntegrandWc(lib, a, z), limits.0, limits.1))
  }

  /** If quad keeps the integral of a [0, 1]-valued function within [0, b - a], worst-case risk days
      lie between 0 and the length of the window (120 days for the default limits). */
  lemma RiskDaysWcWithinWindow(lib: Library, a: RiskArgs, z: real, limits: (real, real))
    requires QuadRespectsUnitBounds(lib)
    requires InDomain(lib, a) && CountsValid(a)
    requires limits.0 <= limits.1
    ensures 0.0 <= RiskDaysWc(lib, a, z, limits).value <= limits.1 - limits.0
  {
    var f := IntegrandWc(lib, a, z);
    assert forall t: real :: 0.0 <= f(t) <= 1.0;
  }

  /** At the default limits (-20, 100) of risk_days_wc, worst-case risk days lie between 0 and 120. */
  lemma RiskDaysWcAtDefaultLimits(lib: Library, a: RiskArgs, z: real)
    requires QuadRespectsUnitBounds(lib)
    requires InDomain(lib, a) && CountsValid(a)
    ensures 0.0 <= RiskDaysWc(lib, a, z, DefaultLimitsWc).value <= 120.0
  {
    RiskDaysWcWithinWindow(lib, a, z, DefaultLimitsWc);
  }

  /** From one retest on, more retests never raise risk days, provided exp is increasing with
      exp(0) = 1, quad is monotone and the concentration, volume and rate are non-negative. */
  lemma RiskDaysAntitoneInRetests(lib: Library, a: RiskArgs, z: real, limits: (real, real), r1: int, r2: int)
    requires ExpAnchored(lib) && ExpIncreasing(lib) && QuadMonotone(lib)
    requires InDomain(lib, a) && PoolSizeValid(a.poolSize)
    requires a.c0 >= 0.0 && a.volumeTransfused >= 0.0 && a.k >= 0.0
    requires 1 <= r1 <= r2 && limits.0 <= limits.1
    ensures RiskDays(lib, a.(retests := PyInt(r2)), z, limits).value
         <= RiskDays(lib, a.(retests := PyInt(r1)), z, limits).value
  {
    var a1, a2 := a.(retests := PyInt(r1)), a.(retests := PyInt(r2));
    var f1, f2 := Integrand(lib, a1, z), Integrand(lib, a2, z);
    forall t: real
      ensures f2(t) <= f1(t)
    {
      ProbInfectiousNondetectionAntitoneInRetests(lib, t, a, z, r1, r2);
    }
  }

  /** From one retest on, more retests never raise the joint probability at any time t, for
      non-negative concentration, volume and rate and an exp that is increasing with exp(0) = 1. */
  lemma ProbInfectiousNondetectionAntitoneInRetests(lib: Library, t: real, a: RiskArgs, z: real, r1: int, r2: int)
    requires ExpAnchored(lib) && ExpIncreasing(lib)
    requires InDomain(lib, a) && PoolSizeValid(a.poolSize)
    requires a.c0 >= 0.0 && a.volumeTransfused >= 0.0 && a.k >= 0.0
    requires 1 <= r1 <= r2
    ensures ProbInfectiousNondetection(lib, t, a.(retests := PyInt(r2)), z).value
         <= ProbInfectiousNondetection(lib, t, a.(retests := PyInt(r1)), z).value
  {
    var a1, a2 := a.(retests := PyInt(r1)), a.(retests := PyInt(r2));
    var p1, p2 := ProbInfectiousNondetection(lib, t, a1, z).value, ProbInfectiousNondetection(lib, t, a2, z).value;
    var infectious := ProbInfectious(lib, t, a.c0, a.doublingTime, a.volumeTransfused, a.k, DefaultCopiesPerVirion);
    var u1, u2 := Undetected(lib, t, a1, z).value, Undetected(lib, t, a2, z).value;
    assert infectious > 0.0 by {
      InfectiousPositive(lib, t, a);
    }
    assert u2 <= u1 by {
      ProbNondetectionAntitoneInRetests(lib, t, a.copiesPerVirion, a.c0, a.doublingTime, a.poolSize,
                                        a.lod50, a.lodRatio, r1, r2, z);
    }
    assert p1 == infectious * u1 by {
      ProbInfectiousNondetectionParts(lib, t, a1, z);
    }
    assert p2 == infectious * u2 by {
      ProbInfectiousNondetectionParts(lib, t, a2, z);
    }
    ScaledPairOrdered(infectious, u2, u1, p2, p1);
  }

  /** The value of a valid joint probability in terms of its two factors. */
  lemma ProbInfectiousNondetectionParts(lib: Library, t: real, a: RiskArgs, z: real)
    requires InDomain(lib, a) && CountsValid(a)
    ensures ProbInfectiousNondetection(lib, t, a, z).value
         == ProbInfectious(lib, t, a.c0, a.doublingTime, a.volumeTransfused, a.k, DefaultCopiesPerVirion)
            * Undetected(lib, t, a, z).value
  {
  }

  lemma ScaledPairOrdered(x: real, u: real, v: real, p: real, q: real)
    requires x >= 0.0 && u <= v && p == x * u && q == x * v
    ensures p <= q
  {
    assert q - p == x * (v - u);
  }

  /** The worst-case counterpart: from one retest on, more retests never raise worst-case risk
      days, provided quad is monotone. */
  lemma RiskDaysWcAntitoneInRetests(lib: Library, a: RiskArgs, z: real, limits: (real, real), r1: int, r2: int)
    requires QuadMonotone(lib)
    requires InDomain(lib, a) && PoolSizeValid(a.poolSize)
    requires 1 <= r1 <= r2 && limits.0 <= limits.1
    ensures RiskDaysWc(lib, a.(retests := PyInt(r2)), z, limits).value
         <= RiskDaysWc(lib, a.(retests := PyInt(r1)), z, limits).value
  {
    var a1, a2 := a.(retests := PyInt(r1)), a.(retests := PyInt(r2));
    var f1, f2 := IntegrandWc(lib, a1, z), IntegrandWc(lib, a2, z);
    forall t: real
      ensures f2(t) <= f1(t)
    {
      ProbNondetectionAntitoneInRetests(lib, t, a.copiesPerVirion, a.c0, a.doublingTime, a.poolSize,
                                        a.lod50, a.lodRatio, r1, r2, z);
    }
  }

  /** Worst-case risk days are smallest without retests (a reactive pool is then final): any
      retest count gives at least the risk days of none, provided quad is monotone. */
  lemma RiskDaysWcLeastWithoutRetests(lib: Library, a: RiskArgs, z: real, limits: (real, real), retests: int)
    requires QuadMonotone(lib)
    requires InDomain(lib, a) && PoolSizeValid(a.poolSize)
    requires retests >= 0 && limits.0 <= limits.1
    ensures RiskDaysWc(lib, a.(retests := PyInt(0)), z, limits).value
         <= RiskDaysWc(lib, a.(retests := PyInt(retests)), z, limits).value
  {
    var a0, ar := a.(retests := PyInt(0)), a.(retests := PyInt(retests));
    var f0, fr := IntegrandWc(lib, a0, z), IntegrandWc(lib, ar, z);
    forall t: real
      ensures f0(t) <= fr(t)
    {
      ProbNondetectionLeastWithoutRetests(lib, t, a.copiesPerVirion, a.c0, a.doublingTime, a.poolSize,
                                          a.lod50, a.lodRatio, retests, z);
    }
  }
}
