# Cost-breakdown engine of the 3D-print quoting app

This project models `calculateCosts`, the cost-breakdown engine of a
3D-printing quote application. The engine takes:
- a job description: parts with their material and grams, a machine, print
  and labour hours, an energy tariff with optional peak hours, a design cost,
  extra costs and an optional manual price;
- the material catalogue, the machine catalogue and the settings record.

It returns a `CostBreakdown` with these lines:
- material, machine depreciation, energy and labour;
- the production subtotal;
- the design cost and the extra costs;
- the cost subtotal, the profit and the total.

It returns nothing when the print time is positive but the machine is not in
the catalogue.

Money and hours are exact reals. An optional field is an `Option`. The
source's `x || 0` defaults are `OrZero`, and its `Array.find` lookups are
`FindById`, which returns the first entry with a matching id.

Modules:
- `Wrappers`: `Option` and `OrZero`.
- `Lists`:
  - `FindById`, a first-match lookup;
  - `SumOf`, a left fold that models both the `+=` loop and `reduce`;
  - lemmas proved once for the fold: non-negativity, zero terms,
    concatenation, permutation and pointwise scaling.
- `Types`: the catalogue records (material, machine, settings) and the job's
  parts and extra costs.
- `Calculations`, the engine itself:
  - `CalculateCosts` is a method, as in the source. The material total is a
    loop (`AccumulateMaterialCost`). Peak hours, profit and total are assigned
    in branches.
  - Each value the method computes is tied to a pure specification function.
    The properties of the engine are proved about those functions.
- `Scenarios`:
  - a worked job, priced automatically;
  - the same job naming an unknown machine;
  - the same job sold by hand below cost;
  - a proof that the same inputs always give the same breakdown.

Under the mixed tariff the requested peak hours are capped at the print
hours but not floored at 0 (`src/lib/calculations.ts:82`). A negative request
gives negative peak hours and more off-peak hours than print hours
(`MixedTariffKeepsNegativePeak`). With non-negative inputs the split stays
within [0, print hours] (`TariffSplit`).

## Model

| member | source | states |
|---|---|---|
| Lists.FindById | src/lib/calculations.ts:34 | The result is absent exactly when no entry has the id; otherwise it is an entry with that id and no earlier entry has it (first match, as `Array.find`) |
| Calculations.FindMachine | src/lib/calculations.ts:34 | The machine found has the job's machine id and is in the catalogue; none is found exactly when no catalogue machine has that id |
| Calculations.FindMaterial | src/lib/calculations.ts:50 | The material found has the part's material id and is in the catalogue; none is found exactly when no catalogue material has that id |
| Calculations.MaterialCost | src/lib/calculations.ts:47-56 | Absent or empty parts cost nothing |
| Calculations.AccumulateMaterialCost | src/lib/calculations.ts:47-56 | The loop over the parts accumulates exactly the sum over the parts of grams/1000 × cost per kg, counting parts without a catalogue material or with grams ≤ 0 as 0 |
| Calculations.MaterialCostOfOnePart | src/lib/calculations.ts:50-53 | A single part costs its grams/1000 × its material's price per kg, and nothing when its material is not in the catalogue or its grams are ≤ 0 |
| Calculations.MaterialCostNonNegative | src/lib/calculations.ts:47-56 | With non-negative prices per kg, the material cost is never negative, whatever the grams |
| Calculations.MaterialCostAppend | src/lib/calculations.ts:49-55 | The material cost of two lists of parts joined together is the sum of their costs |
| Calculations.MaterialCostIgnoresUnpriced | src/lib/calculations.ts:50-53 | Adding parts whose material is not in the catalogue or whose grams are ≤ 0 leaves the material cost unchanged |
| Calculations.MaterialCostOrderIrrelevant | src/lib/calculations.ts:49-55 | Reordering the parts leaves the material cost unchanged |
| Calculations.PartCostScale | src/lib/calculations.ts:51-53 | Multiplying a part's grams by a positive factor multiplies its cost by that factor |
| Calculations.MaterialCostDoublesWithGrams | src/lib/calculations.ts:47-56 | Doubling every part's grams doubles the material cost |
| Calculations.TariffSplit | src/lib/calculations.ts:78-84 | Peak plus off-peak hours equal the print hours. The peak tariff puts every hour at peak. The mixed tariff gives the smaller of the requested peak hours and the print hours. Any other or absent tariff puts every hour off-peak. With non-negative inputs both parts lie in [0, print hours] |
| Calculations.MixedTariffKeepsNegativePeak | src/lib/calculations.ts:82 | Under the mixed tariff a request of −1 peak hours over 2 print hours gives −1 peak and 3 off-peak hours: there is no floor at 0 |
| Calculations.DepreciationCost | src/lib/calculations.ts:71 | Depreciation is non-negative when the hourly cost and the print hours are |
| Calculations.EnergyCost | src/lib/calculations.ts:74-76 | When the peak and off-peak prices are equal, the energy cost is kW (watts/1000) × total hours × that price, however the hours are split; it is non-negative for non-negative inputs |
| Calculations.LaborCost | src/lib/calculations.ts:97 | Labour cost is non-negative when the hourly rate and the labour hours are |
| Calculations.ExtraCostsTotal | src/lib/calculations.ts:103 | Absent or empty extra costs total 0 |
| Calculations.ExtraCostsOfOne | src/lib/calculations.ts:103 | A single extra cost totals its amount, or 0 when the amount is absent |
| Calculations.ExtraCostsNonNegative | src/lib/calculations.ts:103 | With no negative amount, the extra costs total is non-negative, absent amounts counting 0 |
| Calculations.ExtraCostsAppend | src/lib/calculations.ts:103 | The total of two lists of extra costs joined together is the sum of their totals |
| Calculations.ExtraCostsOrderIrrelevant | src/lib/calculations.ts:103 | Reordering the extra costs leaves their total unchanged |
| Calculations.AutomaticProfit | src/lib/calculations.ts:118-120 | The cost subtotal plus the automatic profit is the cost subtotal × (1 + margin/100); the profit is non-negative for a non-negative subtotal and margin |
| Calculations.CalculateCosts | src/lib/calculations.ts:24-143 | No breakdown exactly when no machine matches and print hours are positive. Without a machine and with no positive print hours, the breakdown is partial: subtotal = cost subtotal = total = material cost, every other line 0, not manual. With a machine, every line is the specification function of the defaulted inputs: depreciation, tariff-split energy, labour, subtotal = material + depreciation + labour + energy, design cost, extras, cost subtotal = subtotal + design + extras. A manual price (override ≥ 0) is the total, and profit = total − cost subtotal, possibly negative. Otherwise profit is the margin's share and total = cost subtotal + profit. With non-negative inputs, 0 ≤ material ≤ subtotal ≤ cost subtotal, total ≥ 0, and an automatic total ≥ cost subtotal |
| Scenarios.SampleMaterialCost | src/lib/calculations.ts:47-56 | 200 g of a 20-per-kg material costs 4 |
| Scenarios.PricedAndUnpricedJob | src/lib/calculations.ts:24-143 | The worked job gives every line of its breakdown exactly; naming an unknown machine with 2 print hours gives no breakdown |
| Scenarios.UnderpricedManualJob | src/lib/calculations.ts:111-117 | A manual price of 5 below a cost subtotal of 7.53336 is kept as the total, with a negative profit |
| Scenarios.RecalculationIsStable | src/lib/calculations.ts:24-143 | Two calculations on the same inputs give the same result |

## Left out

- The `logs` array (src/lib/calculations.ts:30-32, 41-45, 57, 60, 72, 86-90, 95, 98, 101, 104, 107, 116-117, 121-122, 139-140) is diagnostic text. It has no effect on the breakdown.
- The `!settings` half of the missing-machine guard is not modelled: the settings record is always present.
- IEEE-754 doubles are not modelled. This covers rounding, NaN and `Number(x) || 0` coercion of non-numeric text. Numbers are exact reals, and an absent or non-numeric value is `None`, which counts as 0.
- The catalogue and settings fields read through `|| 0`: machine power, energy prices, labour rate and margin. They are plain reals, because for a number `x || 0` is `x` (NaN aside).
- Fields of the job, catalogue and settings that the engine does not read are not modelled, for example clients, quantity, currency, dates and spool data. A few unread fields are kept so that records stay recognisable: the names of materials and machines, the id and description of an extra cost, and the id of a part. No contract depends on them.
- The React components are not part of this model: forms, tables, dialogs and the cost summary. This includes the cost summary's display-only copy of the tariff split.
- Also not part of this model:
  - browser storage and backup/restore;
  - the exchange-rate fetch;
  - `formatCurrency`;
  - currency conversion, `toFixed` rounding and the quantity multiplication in the cost summary;
  - the hour/minute conversions of the quote form;
  - the client "total billed" sum and the spool cost-per-kg formula.

  They are UI, I/O or floating-point presentation outside the engine.
- MaterialCostDoublesWithGrams: only the factor 2 is proved for a whole job. General scaling by any positive factor is proved per part (`PartCostScale`), and for sums by `Lists.SumOfScaled`. Lifting it to a whole job with a symbolic factor is nonlinear real arithmetic that the solver does not close within the resource limit.
- Calculations.MaterialCost, Calculations.ExtraCostsTotal: their own contracts state only the empty cases. The sum they compute is stated by the one-element lemmas (`MaterialCostOfOnePart`, `ExtraCostsOfOne`) together with the append, permutation, non-negativity and skipping lemmas.
