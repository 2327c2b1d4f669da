/** The pooled nucleic-acid screen: the chance that an infected pool first screens
    positive, that every retest then clears it, and the chance the screen misses it. */
module Detection {
  import opened Numerics
  import opened Infectivity

  /** The default one-sided z-score (about the 95th percentile). */
  const DefaultZ: real := 1.6449

  /** pool_size must be a Python int of at least 1. */
  predicate PoolSizeValid(poolSize: PyNumber) {
    poolSize.PyInt? && poolSize.i >= 1
  }

  /** retests must be a Python int of at least 0. */
  predicate RetestsValid(retests: PyNumber) {
    retests.PyInt? && retests.i >= 0
  }

  /** The log-probit transform shared by both tests: z * log10(ratio) / log10(LOD95/LOD50),
      where ratio is the tested concentration over the LOD50. */
  function LogProbit(lib: Library, ratio: real, lodRatio: real, z: real): real
    requires Log10(lib, lodRatio) != 0.0
  {
    z * (Log10(lib, ratio) / Log10(lib, lodRatio))
  }

  /** The log-probit argument of the initial screen, on the pool-diluted concentration. */
  function ScreenProbit(lib: Library, c: real, poolSize: int, lod50: real, lodRatio: real, z: real): real
    requires poolSize >= 1 && lod50 != 0.0 && Log10(lib, lodRatio) != 0.0
  {
    LogProbit(lib, c / (poolSize as real * lod50), lodRatio, z)
  }

  /** The log-probit argument of a retest, on the undiluted concentration. */
  function RetestProbit(lib: Library, c: real, lod50: real, lodRatio: real, z: real): real
    requires lod50 != 0.0 && Log10(lib, lodRatio) != 0.0
  {
    LogProbit(lib, c / lod50, lodRatio, z)
  }

  /** Pooling n donations screens like one undiluted donation at a concentration n times lower,
      while retests see the undiluted concentration. */
  lemma ScreenProbitDilution(lib: Library, c: real, poolSize: int, lod50: real, lodRatio: real, z: real)
    requires poolSize >= 1 && lod50 != 0.0 && Log10(lib, lodRatio) != 0.0
    ensures ScreenProbit(lib, c, poolSize, lod50, lodRatio, z) == RetestProbit(lib, c / (poolSize as real), lod50, lodRatio, z)
    ensures ScreenProbit(lib, c, 1, lod50, lodRatio, z) == RetestProbit(lib, c, lod50, lodRatio, z)
  {
    assert ScreenProbit(lib, c, poolSize, lod50, lodRatio, z) == LogProbit(lib, c / (poolSize as real * lod50), lodRatio, z);
    assert RetestProbit(lib, c / (poolSize as real), lod50, lodRatio, z) == LogProbit(lib, (c / (poolSize as real)) / lod50, lodRatio, z);
    assert LogProbit(lib, c / (poolSize as real * lod50), lodRatio, z) == LogProbit(lib, (c / (poolSize as real)) / lod50, lodRatio, z) by {
      DilutedRatio(c, poolSize as real, lod50);
      LogProbitCongruence(lib, c / (poolSize as real * lod50), (c / (poolSize as real)) / lod50, lodRatio, z);
    }
    assert ScreenProbit(lib, c, 1, lod50, lodRatio, z) == RetestProbit(lib, c, lod50, lodRatio, z) by {
      DilutedRatio(c, 1 as real, lod50);
      LogProbitCongruence(lib, c / (1 as real * lod50), c / lod50, lodRatio, z);
    }
  }

  lemma LogProbitCongruence(lib: Library, x: real, y: real, lodRatio: real, z: real)
    requires x == y && Log10(lib, lodRatio) != 0.0
    ensures LogProbit(lib, x, lodRatio, z) == LogProbit(lib, y, lodRatio, z)
  {
  }

  lemma DilutedRatio(c: real, n: real, lod50: real)
    requires n != 0.0 && lod50 != 0.0
    ensures c / (n * lod50) == (c / n) / lod50
    ensures c / (1 as real * lod50) == c / lod50
  {
    var diluted := c / (n * lod50);
    assert diluted * (n * lod50) == c;
    assert ((c / n) / lod50) * (n * lod50) == c;
  }

  /** prob_pos_init: rejects an invalid pool size before any logarithm is taken, otherwise
      yields the normal CDF of the screen probit, a probability. */
  function ProbPosInit(lib: Library, c: real, poolSize: PyNumber, lod50: real, lodRatio: real, z: real): (r: Result<real>)
    requires PoolSizeValid(poolSize) ==> lod50 != 0.0 && Log10(lib, lodRatio) != 0.0
    ensures r.Err? <==> !PoolSizeValid(poolSize)
    ensures r.Err? ==> r.error == PoolSizeError
    ensures r.Ok? ==> 0.0 <= r.value <= 1.0
  {
    if !PoolSizeValid(poolSize) then Err(PoolSizeError)
    else Ok(NormCdf(lib, ScreenProbit(lib, c, poolSize.i, lod50, lodRatio, z)))
  }

  /** prob_neg_retest: the pool size is checked first, then the retest count; no retests give 0;
      otherwise every one of the retests must come back negative. */
  function ProbNegRetest(lib: Library, c: real, poolSize: PyNumber, lod50: real, lodRatio: real,
                         retests: PyNumber, z: real): (r: Result<real>)
    requires PoolSizeValid(poolSize) && RetestsValid(retests) && retests.i >= 1 ==>
               lod50 != 0.0 && Log10(lib, lodRatio) != 0.0
    ensures !PoolSizeValid(poolSize) ==> r == Err(PoolSizeError)
    ensures PoolSizeValid(poolSize) && !RetestsValid(retests) ==> r == Err(RetestsError)
    ensures PoolSizeValid(poolSize) && RetestsValid(retests) ==> r.Ok? && 0.0 <= r.value <= 1.0
    ensures PoolSizeValid(poolSize) && retests == PyInt(0) ==> r == Ok(0.0)
  {
    if !PoolSizeValid(poolSize) then Err(PoolSizeError)
    else if !RetestsValid(retests) then Err(RetestsError)
    else if retests.i == 0 then Ok(0.0)
    else
      var clear := 1.0 - NormCdf(lib, RetestProbit(lib, c, lod50, lodRatio, z));
      PowInUnitInterval(clear, retests.i);
      Ok(Pow(clear, retests.i))
  }

  /** A single retest clears a positive pool exactly when an undiluted screen would have
      missed it. */
  lemma SingleRetestComplementsUndilutedScreen(lib: Library, c: real, poolSize: PyNumber, lod50: real,
                                                lodRatio: real, z: real)
    requires PoolSizeValid(poolSize)
    requires lod50 != 0.0 && Log10(lib, lodRatio) != 0.0
    ensures ProbNegRetest(lib, c, poolSize, lod50, lodRatio, PyInt(1), z)
         == Ok(1.0 - ProbPosInit(lib, c, PyInt(1), lod50, lodRatio, z).value)
  {
    ScreenProbitDilution(lib, c, 1, lod50, lodRatio, z);
    var clear := 1.0 - NormCdf(lib, RetestProbit(lib, c, lod50, lodRatio, z));
    assert Pow(clear, 1) == clear * Pow(clear, 0) == clear;
  }

  /** From one retest on, more retests never make it likelier that all of them are negative. */
  lemma ProbNegRetestAntitone(lib: Library, c: real, poolSize: PyNumber, lod50: real, lodRatio: real,
                              r1: int, r2: int, z: real)
    requires PoolSizeValid(poolSize)
    requires lod50 != 0.0 && Log10(lib, lodRatio) != 0.0
    requires 1 <= r1 <= r2
    ensures ProbNegRetest(lib, c, poolSize, lod50, lodRatio, PyInt(r2), z).value
         <= ProbNegRetest(lib, c, poolSize, lod50, lodRatio, PyInt(r1), z).value
  {
    var clear := 1.0 - NormCdf(lib, RetestProbit(lib, c, lod50, lodRatio, z));
    PowAntitone(clear, r1, r2);
  }

  /** When a single retest is neither certain to clear nor certain to flag the pool, each
      further retest strictly lowers the chance that all retests are negative. */
  lemma ProbNegRetestStrictlyDecreasing(lib: Library, c: real, poolSize: PyNumber, lod50: real, lodRatio: real,
                                        r1: int, r2: int, z: real)
    requires PoolSizeValid(poolSize)
    requires lod50 != 0.0 && Log10(lib, lodRatio) != 0.0
    requires 0.0 < NormCdf(lib, RetestProbit(lib, c, lod50, lodRatio, z)) < 1.0
    requires 1 <= r1 < r2
    ensures ProbNegRetest(lib, c, poolSize, lod50, lodRatio, PyInt(r2), z).value
          < ProbNegRetest(lib, c, poolSize, lod50, lodRatio, PyInt(r1), z).value
  {
    var clear := 1.0 - NormCdf(lib, RetestProbit(lib, c, lod50, lodRatio, z));
    PowStrictlyAntitone(clear, r1, r2);
  }

  /** The copy concentration copies_per_virion * concentration(C0, doubling_time, t) both tests see. */
  function CopyConcentration(lib: Library, t: real, copiesPerVirion: real, c0: real, doublingTime: real): real
    requires doublingTime != 0.0
  {
    copiesPerVirion * Concentration(lib, c0, doublingTime, t)
  }

  /** 1 - p_pos * (1 - p_neg): the screen misses an infected donation when the pool never screens
      positive or when it does and every retest clears it. A probability, never below 1 - p_pos,
      and growing with the chance that the retests clear the pool. */
  function MissProbability(pPos: real, pNeg: real): (p: real)
    requires 0.0 <= pPos <= 1.0 && 0.0 <= pNeg <= 1.0
    ensures 0.0 <= p <= 1.0
    ensures 1.0 - pPos <= p
    ensures pNeg == 0.0 ==> p == 1.0 - pPos
  {
    ProductInUnitInterval(pPos, 1.0 - pNeg);
    1.0 - pPos * (1.0 - pNeg)
  }

  lemma MissProbabilityMonotone(pPos: real, n1: real, n2: real)
    requires 0.0 <= pPos <= 1.0 && 0.0 <= n1 <= n2 <= 1.0
    ensures MissProbability(pPos, n1) <= MissProbability(pPos, n2)
  {
    ProductNonnegative(pPos, n2 - n1);
    assert MissProbability(pPos, n2) - MissProbability(pPos, n1) == pPos * (n2 - n1);
  }

  lemma ProductNonnegative(a: real, b: real)
    requires a >= 0.0 && b >= 0.0
    ensures a * b >= 0.0
  {
  }

  /** prob_nondetection: the miss probability of the screen at the copy concentration at time t.
      Errors are those of prob_pos_init, then those of prob_neg_retest. */
  function ProbNondetection(lib: Library, t: real, copiesPerVirion: real, c0: real, doublingTime: real,
                            poolSize: PyNumber, lod50: real, lodRatio: real, retests: PyNumber, z: real): (r: Result<real>)
    requires doublingTime != 0.0
    requires PoolSizeValid(poolSize) ==> lod50 != 0.0 && Log10(lib, lodRatio) != 0.0
    ensures !PoolSizeValid(poolSize) ==> r == Err(PoolSizeError)
    ensures PoolSizeValid(poolSize) && !RetestsValid(retests) ==> r == Err(RetestsError)
    ensures PoolSizeValid(poolSize) && RetestsValid(retests) ==> r.Ok? && 0.0 <= r.value <= 1.0
    ensures PoolSizeValid(poolSize) && retests == PyInt(0) ==>
              r == Ok(1.0 - ProbPosInit(lib, CopyConcentration(lib, t, copiesPerVirion, c0, doublingTime),
                                        poolSize, lod50, lodRatio, z).value)
  {
    var cc := CopyConcentration(lib, t, copiesPerVirion, c0, doublingTime);
    var pPos :- ProbPosInit(lib, cc, poolSize, lod50, lodRatio, z);
    var pNeg :- ProbNegRetest(lib, cc, poolSize, lod50, lodRatio, retests, z);
    Ok(MissProbability(pPos, pNeg))
  }

  /** The value of a valid non-detection probability in terms of its two parts. */
  lemma ProbNondetectionParts(lib: Library, t: real, copiesPerVirion: real, c0: real, doublingTime: real,
                              poolSize: PyNumber, lod50: real, lodRatio: real, retests: int, z: real)
    requires doublingTime != 0.0
    requires PoolSizeValid(poolSize) && lod50 != 0.0 && Log10(lib, lodRatio) != 0.0
    requires retests >= 0
    ensures ProbNondetection(lib, t, copiesPerVirion, c0, doublingTime, poolSize, lod50, lodRatio, PyInt(retests), z).value
         == MissProbability(
              ProbPosInit(lib, CopyConcentration(lib, t, copiesPerVirion, c0, doublingTime), poolSize, lod50, lodRatio, z).value,
              ProbNegRetest(lib, CopyConcentration(lib, t, copiesPerVirion, c0, doublingTime), poolSize, lod50, lodRatio,
                            PyInt(retests), z).value)
  {
  }

  /** From one retest on, more retests never make the screen likelier to miss the donation. */
  lemma ProbNondetectionAntitoneInRetests(lib: Library, t: real, copiesPerVirion: real, c0: real,
                                          doublingTime: real, poolSize: PyNumber, lod50: real, lodRatio: real,
                                          r1: int, r2: int, z: real)
    requires doublingTime != 0.0
    requires PoolSizeValid(poolSize) && lod50 != 0.0 && Log10(lib, lodRatio) != 0.0
    requires 1 <= r1 <= r2
    ensures ProbNondetection(lib, t, copiesPerVirion, c0, doublingTime, poolSize, lod50, lodRatio, PyInt(r2), z).value
         <= ProbNondetection(lib, t, copiesPerVirion, c0, doublingTime, poolSize, lod50, lodRatio, PyInt(r1), z).value
  {
    var cc := CopyConcentration(lib, t, copiesPerVirion, c0, doublingTime);
    ProbNondetectionParts(lib, t, copiesPerVirion, c0, doublingTime, poolSize, lod50, lodRatio, r1, z);
    ProbNondetectionParts(lib, t, copiesPerVirion, c0, doublingTime, poolSize, lod50, lodRatio, r2, z);
    ProbNegRetestAntitone(lib, cc, poolSize, lod50, lodRatio, r1, r2, z);
    MissProbabilityMonotone(ProbPosInit(lib, cc, poolSize, lod50, lodRatio, z).value,
                            ProbNegRetest(lib, cc, poolSize, lod50, lodRatio, PyInt(r2), z).value,
                            ProbNegRetest(lib, cc, poolSize, lod50, lodRatio, PyInt(r1), z).value);
  }

  /** Without retests the screen misses the donation least often: any retest count gives a
      non-detection probability at least that of no retests, 1 - p_pos_init. */
  lemma ProbNondetectionLeastWithoutRetests(lib: Library, t: real, copiesPerVirion: real, c0: real,
                                            doublingTime: real, poolSize: PyNumber, lod50: real, lodRatio: real,
                                            retests: int, z: real)
    requires doublingTime != 0.0
    requires PoolSizeValid(poolSize) && lod50 != 0.0 && Log10(lib, lodRatio) != 0.0
    requires retests >= 0
    ensures ProbNondetection(lib, t, copiesPerVirion, c0, doublingTime, poolSize, lod50, lodRatio, PyInt(0), z).value
         <= ProbNondetection(lib, t, copiesPerVirion, c0, doublingTime, poolSize, lod50, lodRatio, PyInt(retests), z).value
  {
    ProbNondetectionParts(lib, t, copiesPerVirion, c0, doublingTime, poolSize, lod50, lodRatio, retests, z);
  }
}
