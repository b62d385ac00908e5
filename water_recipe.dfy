/**
  A model of the brewing-water recipe calculator: a mineral-rich source water is
  diluted with distilled water until its alkalinity (KH) matches a target, and a
  GH booster concentrate makes up any hardness (GH) the diluted source water
  lacks. Quantities are ppm (mg/L) for KH, GH and TDS, mL for volumes and mL per
  litre of batch for the booster dose. Arithmetic is over `real`.
*/
module WaterRecipe {

  /** Dissolved solids the booster concentrate adds, in mg per mL of concentrate. */
  const BoosterSolidsMgPerMl: real := 11.0

  /** Millilitres in one litre: the caller derives the batch in mL from the batch in L. */
  const MlPerLitre: real := 1000.0

  /** The calculator's result, in the order the source returns its eight values. */
  datatype Recipe = Recipe(
    lmVol: real,           // mL of mineral source water
    diVol: real,           // mL of distilled water (negative when the recipe is infeasible)
    baseGH: real,          // GH of the diluted source water alone, ppm
    baseTDS: real,         // TDS of the diluted source water alone, mg/L
    boosterPerL: real,     // booster dose, mL per litre of batch
    totalBoosterMl: real,  // booster for the whole batch, mL
    boosterPpm: real,      // TDS the booster contributes, mg/L
    finalTDS: real         // TDS of the finished batch, mg/L
  )

  /**
    Fraction of the batch that is source water so that the blend has KH `khTgt`.
    Only a source KH of exactly zero takes the guard; any other value, negative
    ones included, is divided by.
  */
  function DilutionFraction(khSrc: real, khTgt: real): (frac: real)
    ensures khSrc == 0.0 ==> frac == 0.0
    ensures khSrc != 0.0 ==> frac * khSrc == khTgt
  {
    if khSrc != 0.0 then khTgt / khSrc else 0.0
  }

  /** The GH shortfall of the diluted source water, never negative. */
  function GhDeficit(ghTgt: real, baseGH: real): (d: real)
    ensures d >= 0.0 && d >= ghTgt - baseGH
    ensures d == 0.0 || d == ghTgt - baseGH
    ensures d == 0.0 <==> ghTgt <= baseGH
  {
    if ghTgt - baseGH >= 0.0 then ghTgt - baseGH else 0.0
  }

  /**
    The recipe for a batch of `batchL` litres (`batchMl` millilitres), a source water
    with alkalinity `khSrc`, hardness `ghSrc` and solids `tdsSrc`, a target alkalinity
    `khTgt` and hardness `ghTgt`, and a booster raising GH by `boosterStrength` ppm per
    mL dosed per litre.
  */
  function CalculateRecipe(khSrc: real, ghSrc: real, tdsSrc: real, khTgt: real, ghTgt: real,
                           batchMl: real, batchL: real, boosterStrength: real): (r: Recipe)
    requires boosterStrength != 0.0
    requires batchL != 0.0
    // the three streams make up the batch exactly
    ensures r.lmVol + r.diVol + r.totalBoosterMl == batchMl
    // the booster's solids per litre follow from its dose per litre alone
    ensures r.boosterPpm == BoosterSolidsMgPerMl * r.boosterPerL
    ensures r.finalTDS == r.baseTDS + BoosterSolidsMgPerMl * r.boosterPerL
    // the booster raises GH to the target, or leaves an overshoot alone
    ensures r.baseGH + r.boosterPerL * boosterStrength
            == (if ghTgt >= r.baseGH then ghTgt else r.baseGH)
  {
    var frac := DilutionFraction(khSrc, khTgt);
    var lmVol := frac * batchMl;
    var baseGH := ghSrc * frac;
    var baseTDS := tdsSrc * frac;
    var deltaGH := GhDeficit(ghTgt, baseGH);
    var boosterPerL := deltaGH / boosterStrength;
    var totalBoosterMl := boosterPerL * batchL;
    var diVol := batchMl - lmVol - totalBoosterMl;
    var totalBoosterSolidsMg := totalBoosterMl * BoosterSolidsMgPerMl;
    var boosterPpm := totalBoosterSolidsMg / batchL;
    var finalTDS := baseTDS + boosterPpm;
    Recipe(lmVol, diVol, baseGH, baseTDS, boosterPerL, totalBoosterMl, boosterPpm, finalTDS)
  }

  // ---------------------------------------------------------------------------
  // Edge policies
  // ---------------------------------------------------------------------------

  /** A source with no alkalinity contributes nothing: no source water, no base GH or TDS. */
  lemma ZeroAlkalinityGuard(ghSrc: real, tdsSrc: real, khTgt: real, ghTgt: real,
                            batchMl: real, batchL: real, boosterStrength: real)
    requires boosterStrength != 0.0 && batchL != 0.0
    ensures DilutionFraction(0.0, khTgt) == 0.0
    ensures var r := CalculateRecipe(0.0, ghSrc, tdsSrc, khTgt, ghTgt, batchMl, batchL, boosterStrength);
            r.lmVol == 0.0 && r.baseGH == 0.0 && r.baseTDS == 0.0
            && r.diVol == batchMl - r.totalBoosterMl
  {
  }

  /** With a positive strength the dose per litre is never negative; over a positive batch neither is the total. */
  lemma BoosterNonNegative(khSrc: real, ghSrc: real, tdsSrc: real, khTgt: real, ghTgt: real,
                           batchMl: real, batchL: real, boosterStrength: real)
    requires boosterStrength > 0.0 && batchL != 0.0
    ensures var r := CalculateRecipe(khSrc, ghSrc, tdsSrc, khTgt, ghTgt, batchMl, batchL, boosterStrength);
            r.boosterPerL >= 0.0 && (batchL > 0.0 ==> r.totalBoosterMl >= 0.0 && r.boosterPpm >= 0.0)
  {
  }

  /**
    The deficit floor: no booster is dosed exactly when the diluted source water
    already reaches the GH target, and then the final TDS is the base TDS.
  */
  lemma DeficitFloor(khSrc: real, ghSrc: real, tdsSrc: real, khTgt: real, ghTgt: real,
                     batchMl: real, batchL: real, boosterStrength: real)
    requires boosterStrength != 0.0 && batchL != 0.0
    ensures var r := CalculateRecipe(khSrc, ghSrc, tdsSrc, khTgt, ghTgt, batchMl, batchL, boosterStrength);
            (ghTgt <= r.baseGH <==> r.boosterPerL == 0.0)
            && (ghTgt <= r.baseGH ==>
                  r.totalBoosterMl == 0.0 && r.boosterPpm == 0.0 && r.finalTDS == r.baseTDS)
  {
  }

  /**
    When the diluted source water does not overshoot the GH target, the recipe's
    dose is the one and only dose per litre that brings the GH to the target; with
    a positive strength and a real shortfall that dose is positive.
  */
  lemma BoosterClosesGap(khSrc: real, ghSrc: real, tdsSrc: real, khTgt: real, ghTgt: real,
                         batchMl: real, batchL: real, boosterStrength: real, dose: real)
    requires boosterStrength != 0.0 && batchL != 0.0
    ensures var r := CalculateRecipe(khSrc, ghSrc, tdsSrc, khTgt, ghTgt, batchMl, batchL, boosterStrength);
            && (ghTgt >= r.baseGH ==> (r.baseGH + dose * boosterStrength == ghTgt <==> dose == r.boosterPerL))
            && (ghTgt > r.baseGH && boosterStrength > 0.0 ==> r.boosterPerL > 0.0)
  {
  }

  // ---------------------------------------------------------------------------
  // An independent reference: the blend computed from the volumes by mass balance
  // ---------------------------------------------------------------------------

  /** KH of the mixed batch: only the source water carries alkalinity. */
  function BlendKH(khSrc: real, r: Recipe, batchMl: real): real
    requires batchMl != 0.0
  {
    khSrc * r.lmVol / batchMl
  }

  /** GH of the mixed batch: the source water's share plus `boosterStrength` ppm per mL of booster per litre. */
  function BlendGH(ghSrc: real, r: Recipe, batchMl: real, batchL: real, boosterStrength: real): real
    requires batchMl != 0.0 && batchL != 0.0
  {
    ghSrc * r.lmVol / batchMl + boosterStrength * r.totalBoosterMl / batchL
  }

  /** TDS of the mixed batch: the source water's share plus the booster's solids per litre. */
  function BlendTDS(tdsSrc: real, r: Recipe, batchMl: real, batchL: real): real
    requires batchMl != 0.0 && batchL != 0.0
  {
    tdsSrc * r.lmVol / batchMl + BoosterSolidsMgPerMl * r.totalBoosterMl / batchL
  }

  /**
    Mixing the recipe's volumes gives the target KH (none at all from a source
    without alkalinity), the target GH or the diluted source's higher GH, and the
    reported final TDS.
  */
  lemma BlendMeetsTargets(khSrc: real, ghSrc: real, tdsSrc: real, khTgt: real, ghTgt: real,
                                             batchL: real, boosterStrength: real)
    requires boosterStrength != 0.0 && batchL != 0.0
    ensures var batchMl := MlPerLitre * batchL;
            var r := CalculateRecipe(khSrc, ghSrc, tdsSrc, khTgt, ghTgt, batchMl, batchL, boosterStrength);
            && BlendKH(khSrc, r, batchMl) == (if khSrc != 0.0 then khTgt else 0.0)
            && BlendGH(ghSrc, r, batchMl, batchL, boosterStrength) == (if ghTgt >= r.baseGH then ghTgt else r.baseGH)
            && BlendTDS(tdsSrc, r, batchMl, batchL) == r.finalTDS
  {
    var batchMl := MlPerLitre * batchL;
    var r := CalculateRecipe(khSrc, ghSrc, tdsSrc, khTgt, ghTgt, batchMl, batchL, boosterStrength);
    var frac := DilutionFraction(khSrc, khTgt);
    assert r.lmVol / batchMl == frac;
    assert r.totalBoosterMl / batchL == r.boosterPerL;
  }

  // ---------------------------------------------------------------------------
  // Relations between several calls
  // ---------------------------------------------------------------------------

  /**
    Scaling law: scaling the batch by `k` scales every volume by `k` and leaves
    every concentration and the dose per litre unchanged.
  */
  lemma ScalingLaw(khSrc: real, ghSrc: real, tdsSrc: real, khTgt: real, ghTgt: real,
                                      batchL: real, boosterStrength: real, k: real)
    requires boosterStrength != 0.0 && batchL != 0.0 && k > 0.0
    ensures var r := CalculateRecipe(khSrc, ghSrc, tdsSrc, khTgt, ghTgt,
                                     MlPerLitre * batchL, batchL, boosterStrength);
            var s := CalculateRecipe(khSrc, ghSrc, tdsSrc, khTgt, ghTgt,
                                     MlPerLitre * (k * batchL), k * batchL, boosterStrength);
            && s.lmVol == k * r.lmVol
            && s.diVol == k * r.diVol
            && s.totalBoosterMl == k * r.totalBoosterMl
            && s.baseGH == r.baseGH
            && s.baseTDS == r.baseTDS
            && s.boosterPerL == r.boosterPerL
            && s.boosterPpm == r.boosterPpm
            && s.finalTDS == r.finalTDS
  {
    var r := CalculateRecipe(khSrc, ghSrc, tdsSrc, khTgt, ghTgt, MlPerLitre * batchL, batchL, boosterStrength);
    var s := CalculateRecipe(khSrc, ghSrc, tdsSrc, khTgt, ghTgt, MlPerLitre * (k * batchL), k * batchL, boosterStrength);
    var frac := DilutionFraction(khSrc, khTgt);
    assert s.lmVol == frac * (MlPerLitre * (k * batchL)) == k * (frac * (MlPerLitre * batchL)) == k * r.lmVol;
    assert s.totalBoosterMl == r.boosterPerL * (k * batchL) == k * (r.boosterPerL * batchL) == k * r.totalBoosterMl;
  }

  /**
    Identity dilution: a target KH equal to the source's takes the whole batch as
    source water; if the source is also hard enough, no booster and no distilled
    water are needed.
  */
  lemma IdentityDilution(khSrc: real, ghSrc: real, tdsSrc: real, ghTgt: real,
                         batchMl: real, batchL: real, boosterStrength: real)
    requires boosterStrength != 0.0 && batchL != 0.0 && khSrc != 0.0
    ensures var r := CalculateRecipe(khSrc, ghSrc, tdsSrc, khSrc, ghTgt, batchMl, batchL, boosterStrength);
            && r.lmVol == batchMl
            && r.baseGH == ghSrc && r.baseTDS == tdsSrc
            && (ghTgt <= ghSrc ==> r.totalBoosterMl == 0.0 && r.diVol == 0.0 && r.finalTDS == tdsSrc)
  {
  }

  // ---------------------------------------------------------------------------
  // Feasibility: the distilled-water volume is returned even when negative
  // ---------------------------------------------------------------------------

  /**
    Over a positive batch, the recipe is feasible (no negative distilled water)
    exactly when the source water and booster needed per litre fit in one litre,
    whatever the batch size.
  */
  lemma FeasibleIffFitsPerLitre(khSrc: real, ghSrc: real, tdsSrc: real, khTgt: real, ghTgt: real,
                                                   batchL: real, boosterStrength: real)
    requires boosterStrength != 0.0 && batchL > 0.0
    ensures var r := CalculateRecipe(khSrc, ghSrc, tdsSrc, khTgt, ghTgt,
                                     MlPerLitre * batchL, batchL, boosterStrength);
            r.diVol >= 0.0 <==> MlPerLitre * DilutionFraction(khSrc, khTgt) + r.boosterPerL <= MlPerLitre
  {
    var r := CalculateRecipe(khSrc, ghSrc, tdsSrc, khTgt, ghTgt, MlPerLitre * batchL, batchL, boosterStrength);
    var perLitre := MlPerLitre - MlPerLitre * DilutionFraction(khSrc, khTgt) - r.boosterPerL;
    assert r.diVol == perLitre * batchL;
  }

  /**
    No GH target is rejected: for any source, target KH, positive batch and
    positive booster strength, a high enough GH target gives a negative
    distilled-water volume rather than an error.
  */
  lemma InfeasibleTargetExists(khSrc: real, ghSrc: real, tdsSrc: real, khTgt: real,
                                                  batchMl: real, batchL: real, boosterStrength: real)
    requires boosterStrength > 0.0 && batchL > 0.0 && batchMl == MlPerLitre * batchL
    ensures exists ghTgt :: CalculateRecipe(khSrc, ghSrc, tdsSrc, khTgt, ghTgt,
                                            batchMl, batchL, boosterStrength).diVol < 0.0
  {
    var frac := DilutionFraction(khSrc, khTgt);
    var spare := MlPerLitre - MlPerLitre * frac;
    var dose := (if spare >= 0.0 then spare else -spare) + 1.0;
    var baseGH := ghSrc * frac;
    var ghTgt := baseGH + dose * boosterStrength;
    var r := CalculateRecipe(khSrc, ghSrc, tdsSrc, khTgt, ghTgt, batchMl, batchL, boosterStrength);
    assert GhDeficit(ghTgt, baseGH) == dose * boosterStrength;
    assert r.boosterPerL == dose * boosterStrength / boosterStrength == dose;
    assert r.diVol == (spare - dose) * batchL;
    assert (spare - dose) * batchL <= -batchL;
  }

  /**
    The default scenario: the Le Minerale source (KH 133.2, GH 63.3, TDS 255.5), a
    target of KH 40 and GH 80, a 1 L batch and the 6.6 ppm-per-mL booster. The
    bounds are those under which each value shows as 300.3 mL, 690.5 mL, 19.0 ppm,
    76.7 mg/L, 9.24 mL per litre, 9.2 mL, 101.7 ppm and 178.4 mg/L at one or two
    decimals.
  */
  lemma LeMineraleDefault()
    ensures var r := CalculateRecipe(133.2, 63.3, 255.5, 40.0, 80.0, 1000.0, 1.0, 6.6);
            && r.lmVol == 100000.0 / 333.0
            && r.baseGH == 6330.0 / 333.0
            && r.boosterPerL == 203100.0 / 21978.0
            && 300.25 <= r.lmVol < 300.35
            && 690.45 <= r.diVol < 690.55
            && 18.95 <= r.baseGH < 19.05
            && 76.65 <= r.baseTDS < 76.75
            && 9.235 <= r.boosterPerL < 9.245
            && 9.15 <= r.totalBoosterMl < 9.25
            && 101.65 <= r.boosterPpm < 101.75
            && 178.35 <= r.finalTDS < 178.45
  {
  }
}
