# Brewing-water recipe calculator, modelled in Dafny

The calculator blends three streams into a batch of brewing water:
- a mineral-rich source water, described by its alkalinity (KH), hardness (GH) and total dissolved solids (TDS);
- distilled water;
- a GH booster concentrate.

The share of source water is the dilution fraction `KH_tgt / KH_src`, which brings the blend to the target KH. A source KH of exactly zero gives a fraction of zero. The diluted source water supplies a base GH and a base TDS. The booster makes up any GH shortfall. The shortfall is floored at zero, so an overshoot is left alone. Distilled water fills the rest of the batch. Each mL of booster adds 11 mg of solids.

`water_recipe.dfy` holds one module, `WaterRecipe`:
- `CalculateRecipe` models `calculate_recipe` as a pure function over `real`.
- Its result is a `Recipe` record with the same eight values, in the same order, as the source's return tuple: `lmVol, diVol, baseGH, baseTDS, boosterPerL, totalBoosterMl, boosterPpm, finalTDS`.
- `DilutionFraction` and `GhDeficit` are its two edge policies.
- `BlendKH`, `BlendGH` and `BlendTDS` are an independent mass-balance reference. They compute the mixed batch's KH, GH and TDS from the recipe's volumes.

Two things are kept as the source has them:
- The batch in mL and the batch in L are separate parameters. The caller's relation `batch_ml = batch_l * 1000` is a precondition only of the lemmas that need it.
- The distilled-water volume is not clamped. A negative value means the recipe is infeasible.

The function requires a non-zero booster strength and a non-zero batch in litres, because the source divides by both. Only a source KH of exactly zero takes the guard; a negative value is divided by, as Python's truthiness test does.

## Model

| member | source | states |
|---|---|---|
| WaterRecipe.DilutionFraction | streamlit_app.py:42 | zero source KH gives fraction 0; otherwise fraction times source KH is the target KH |
| WaterRecipe.GhDeficit | streamlit_app.py:48 | deficit is the least value that is both non-negative and at least target minus base GH; it is zero exactly when the base already reaches the target |
| WaterRecipe.CalculateRecipe | streamlit_app.py:40-57 | source, distilled and booster volumes sum to the batch in mL; booster TDS is 11 per mL of dose per litre; base GH plus dose times strength is the larger of target and base GH |
| WaterRecipe.ZeroAlkalinityGuard | streamlit_app.py:42-52 | with source KH 0 the fraction is 0, no source water is used, base GH and TDS are 0, and distilled water is the batch minus the booster |
| WaterRecipe.BoosterNonNegative | streamlit_app.py:48-55 | a positive strength gives a non-negative dose per litre; a positive batch also gives a non-negative total dose and booster TDS |
| WaterRecipe.DeficitFloor | streamlit_app.py:48-56 | no booster is dosed if and only if the target GH is at most the base GH; then total booster and booster TDS are 0 and final TDS is base TDS |
| WaterRecipe.BoosterClosesGap | streamlit_app.py:48-49 | when the base GH does not exceed the target, a dose per litre brings base GH plus dose times strength to the target if and only if it is the recipe's dose; a real shortfall with positive strength gives a positive dose |
| WaterRecipe.BlendMeetsTargets | streamlit_app.py:34-57 | with batch mL = 1000 x batch L, mixing the volumes gives the target KH (0 from a zero-KH source), the larger of target and base GH, and the reported final TDS |
| WaterRecipe.ScalingLaw | streamlit_app.py:34-56 | scaling the batch by k > 0 scales source, distilled and booster volumes by k and leaves base GH, base TDS, dose per litre, booster TDS and final TDS unchanged |
| WaterRecipe.IdentityDilution | streamlit_app.py:42-56 | target KH equal to a non-zero source KH uses the whole batch as source water with the source's GH and TDS; if the source GH reaches the target, no booster and no distilled water are used and final TDS is the source TDS |
| WaterRecipe.FeasibleIffFitsPerLitre | streamlit_app.py:34-52 | over a positive batch with batch mL = 1000 x batch L, distilled water is non-negative if and only if 1000 x fraction plus the dose per litre is at most 1000 mL, whatever the batch size |
| WaterRecipe.InfeasibleTargetExists | streamlit_app.py:48-52 | for every source, target KH, positive batch and positive strength, some GH target gives a negative distilled volume, which is returned rather than rejected |
| WaterRecipe.LeMineraleDefault | streamlit_app.py:10-37 | the Le Minerale source with target KH 40 and GH 80 in a 1 L batch gives exact fraction-based values that display as 300.3 mL source, 690.5 mL distilled, GH 19.0, TDS 76.7, 9.24 mL/L booster, 101.7 ppm booster and 178.4 mg/L final |

## Left out

- Streamlit interface (streamlit_app.py:1-33, 59-83): the title, sidebar, preset menus, number inputs, formatted result display and the booster recipe text are presentation over a library this model does not contain. The preset values appear only in `LeMineraleDefault`.
- IEEE-754 floating point: the arithmetic is exact over `real`, so the identities hold exactly rather than to a rounding tolerance. NaN and infinities are not modelled.
- Feasibility: the source returns a negative distilled volume silently, and so does the model. There is no error case for it. `FeasibleIffFitsPerLitre` and `InfeasibleTargetExists` describe when a negative volume happens.
- Zero batch: `CalculateRecipe` requires `batchL != 0.0`, so the ZeroDivisionError that streamlit_app.py:55 raises for a batch of 0 L is not modelled. The batch input at streamlit_app.py:33 has no lower bound, so a user can reach that crash. Over `real` the division has no value to return, and the model gives no result for this input.
