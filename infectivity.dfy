/** Viral growth and the two infectivity models: the probability that a transfused
    volume holds enough copies to transmit infection. */
module Infectivity {
  import opened Numerics

  /** The near-unity asymptote of the continuous infectivity curve, kept verbatim
      (it is deliberately not 1.0). */
  const InfectivityCeiling: real := 1.000000000001

  /** The default number of genome copies per virion. */
  const DefaultCopiesPerVirion: real := 2.0

  /** The copy count at which the worst-case model becomes infectious. */
  const WorstCaseThreshold: real := 2.0

  /** concentration: C0 * 2 ** (t / doubling_time). Its sign is that of C0. */
  function Concentration(lib: Library, c0: real, doublingTime: real, t: real): (c: real)
    requires doublingTime != 0.0
    ensures c0 > 0.0 ==> c > 0.0
    ensures c0 == 0.0 ==> c == 0.0
    ensures c0 < 0.0 ==> c < 0.0
  {
    c0 * Pow2(lib, t / doublingTime)
  }

  /** At the reference time the concentration is the initial concentration. */
  lemma ConcentrationAtReference(lib: Library, c0: real, doublingTime: real)
    requires Pow2Anchored(lib)
    requires doublingTime != 0.0
    ensures Concentration(lib, c0, doublingTime, 0.0) == c0
  {
  }

  /** With a positive doubling time the concentration grows strictly over time. */
  lemma ConcentrationIncreasing(lib: Library, c0: real, doublingTime: real, t1: real, t2: real)
    requires Pow2Increasing(lib)
    requires c0 > 0.0 && doublingTime > 0.0 && t1 < t2
    ensures Concentration(lib, c0, doublingTime, t1) < Concentration(lib, c0, doublingTime, t2)
  {
    var e1, e2 := t1 / doublingTime, t2 / doublingTime;
    assert e1 < e2 by {
      assert e2 - e1 == (t2 - t1) / doublingTime;
    }
    var p1, p2 := Pow2(lib, e1), Pow2(lib, e2);
    assert p1 < p2;
    assert c0 * p2 - c0 * p1 == c0 * (p2 - p1);
  }

  /** prob_infectious_copies: 1.000000000001 - exp(-k * n_copies), always below the ceiling. */
  function ProbInfectiousCopies(lib: Library, nCopies: real, k: real): (p: real)
    ensures p < InfectivityCeiling
  {
    InfectivityCeiling - Exp(lib, -k * nCopies)
  }

  /** With no copies (or a zero rate) the curve sits at its floor 1e-12, not at 0. */
  lemma ProbInfectiousCopiesFloor(lib: Library, nCopies: real, k: real)
    requires ExpAnchored(lib)
    requires nCopies == 0.0 || k == 0.0
    ensures ProbInfectiousCopies(lib, nCopies, k) == InfectivityCeiling - 1.0
    ensures ProbInfectiousCopies(lib, nCopies, k) == 0.000000000001
  {
    assert -k * nCopies == 0.0;
  }

  /** For non-negative copies and rate the curve lies in (0, 1.000000000001). */
  lemma ProbInfectiousCopiesBounds(lib: Library, nCopies: real, k: real)
    requires ExpAnchored(lib) && ExpIncreasing(lib)
    requires nCopies >= 0.0 && k >= 0.0
    ensures 0.0 < ProbInfectiousCopies(lib, nCopies, k) < InfectivityCeiling
  {
    var x := -k * nCopies;
    assert x <= 0.0 by {
      assert k * nCopies >= 0.0;
    }
    if x < 0.0 {
      assert Exp(lib, x) < Exp(lib, 0.0);
    }
  }

  /** With a positive rate, more copies give a strictly higher probability. */
  lemma ProbInfectiousCopiesIncreasingInCopies(lib: Library, n1: real, n2: real, k: real)
    requires ExpIncreasing(lib)
    requires k > 0.0 && n1 < n2
    ensures ProbInfectiousCopies(lib, n1, k) < ProbInfectiousCopies(lib, n2, k)
  {
    assert -k * n2 < -k * n1 by {
      assert k * n2 - k * n1 == k * (n2 - n1);
    }
    assert Exp(lib, -k * n2) < Exp(lib, -k * n1);
  }

  /** With a positive copy count, a higher rate gives a strictly higher probability. */
  lemma ProbInfectiousCopiesIncreasingInRate(lib: Library, nCopies: real, k1: real, k2: real)
    requires ExpIncreasing(lib)
    requires nCopies > 0.0 && k1 < k2
    ensures ProbInfectiousCopies(lib, nCopies, k1) < ProbInfectiousCopies(lib, nCopies, k2)
  {
    assert -k2 * nCopies < -k1 * nCopies by {
      assert k2 * nCopies - k1 * nCopies == (k2 - k1) * nCopies;
    }
    assert Exp(lib, -k2 * nCopies) < Exp(lib, -k1 * nCopies);
  }

  /** The number of copies in the transfused volume at time t: none while the donor has no
      virus, some as soon as there is any (for a positive volume and copies per virion). */
  function CopiesTransfused(lib: Library, t: real, c0: real, doublingTime: real,
                            volumeTransfused: real, copiesPerVirion: real): (n: real)
    requires doublingTime != 0.0
    ensures c0 == 0.0 ==> n == 0.0
    ensures c0 > 0.0 && copiesPerVirion > 0.0 && volumeTransfused > 0.0 ==> n > 0.0
  {
    Concentration(lib, c0, doublingTime, t) * copiesPerVirion * volumeTransfused
  }

  /** prob_infectious: the continuous model applied to the copies transfused at time t. */
  function ProbInfectious(lib: Library, t: real, c0: real, doublingTime: real,
                          volumeTransfused: real, k: real, copiesPerVirion: real): (p: real)
    requires doublingTime != 0.0
    ensures p < InfectivityCeiling
  {
    ProbInfectiousCopies(lib, CopiesTransfused(lib, t, c0, doublingTime, volumeTransfused, copiesPerVirion), k)
  }

  /** While the virus grows, the continuous infectivity rises strictly with time. */
  lemma ProbInfectiousIncreasingInTime(lib: Library, t1: real, t2: real, c0: real, doublingTime: real,
                                       volumeTransfused: real, k: real, copiesPerVirion: real)
    requires Pow2Increasing(lib) && ExpIncreasing(lib)
    requires c0 > 0.0 && doublingTime > 0.0 && volumeTransfused > 0.0 && k > 0.0 && copiesPerVirion > 0.0
    requires t1 < t2
    ensures ProbInfectious(lib, t1, c0, doublingTime, volumeTransfused, k, copiesPerVirion)
          < ProbInfectious(lib, t2, c0, doublingTime, volumeTransfused, k, copiesPerVirion)
  {
    CopiesIncreasing(lib, t1, t2, c0, doublingTime, volumeTransfused, copiesPerVirion);
    ProbInfectiousCopiesIncreasingInCopies(lib,
      CopiesTransfused(lib, t1, c0, doublingTime, volumeTransfused, copiesPerVirion),
      CopiesTransfused(lib, t2, c0, doublingTime, volumeTransfused, copiesPerVirion), k);
  }

  lemma CopiesIncreasing(lib: Library, t1: real, t2: real, c0: real, doublingTime: real,
                         volumeTransfused: real, copiesPerVirion: real)
    requires Pow2Increasing(lib)
    requires c0 > 0.0 && doublingTime > 0.0 && volumeTransfused > 0.0 && copiesPerVirion > 0.0
    requires t1 < t2
    ensures CopiesTransfused(lib, t1, c0, doublingTime, volumeTransfused, copiesPerVirion)
          < CopiesTransfused(lib, t2, c0, doublingTime, volumeTransfused, copiesPerVirion)
  {
    var c1, c2 := Concentration(lib, c0, doublingTime, t1), Concentration(lib, c0, doublingTime, t2);
    ConcentrationIncreasing(lib, c0, doublingTime, t1, t2);
    var m := copiesPerVirion * volumeTransfused;
    assert m > 0.0;
    assert c1 * copiesPerVirion * volumeTransfused == c1 * m;
    assert c2 * copiesPerVirion * volumeTransfused == c2 * m;
    assert c2 * m - c1 * m == (c2 - c1) * m;
  }

  /** prob_infectious_copies_wc: exactly 0.0 below two copies and exactly 1.0 from two copies on;
      the source's two guards cover every real, so its implicit third outcome never occurs. */
  function ProbInfectiousCopiesWc(nCopies: real): (p: real)
    ensures p == 0.0 || p == 1.0
    ensures p == 1.0 <==> nCopies >= WorstCaseThreshold
  {
    if nCopies < 2.0 then 0.0
    else if nCopies >= 2.0 then 1.0
    else assert false; 0.0
  }

  /** The step model never decreases as the copy count grows. */
  lemma ProbInfectiousCopiesWcMonotone(n1: real, n2: real)
    requires n1 <= n2
    ensures ProbInfectiousCopiesWc(n1) <= ProbInfectiousCopiesWc(n2)
  {
  }

  /** prob_infectious_wc: the step model applied to the copies transfused at time t. */
  function ProbInfectiousWc(lib: Library, t: real, c0: real, doublingTime: real,
                            volumeTransfused: real, copiesPerVirion: real): (p: real)
    requires doublingTime != 0.0
    ensures p == 0.0 || p == 1.0
    ensures p == 1.0 <==> CopiesTransfused(lib, t, c0, doublingTime, volumeTransfused, copiesPerVirion) >= WorstCaseThreshold
  {
    ProbInfectiousCopiesWc(CopiesTransfused(lib, t, c0, doublingTime, volumeTransfused, copiesPerVirion))
  }

  /** Once the worst-case model is infectious at some time it stays infectious later on. */
  lemma ProbInfectiousWcMonotoneInTime(lib: Library, t1: real, t2: real, c0: real, doublingTime: real,
                                       volumeTransfused: real, copiesPerVirion: real)
    requires Pow2Increasing(lib)
    requires c0 > 0.0 && doublingTime > 0.0 && volumeTransfused > 0.0 && copiesPerVirion > 0.0
    requires t1 <= t2
    ensures ProbInfectiousWc(lib, t1, c0, doublingTime, volumeTransfused, copiesPerVirion)
         <= ProbInfectiousWc(lib, t2, c0, doublingTime, volumeTransfused, copiesPerVirion)
  {
    if t1 < t2 {
      CopiesIncreasing(lib, t1, t2, c0, doublingTime, volumeTransfused, copiesPerVirion);
    }
  }
}
