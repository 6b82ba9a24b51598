/** The cost-breakdown engine of src/lib/calculations.ts: from a job's parts,
    machine, times, tariff, design cost, extra costs and optional manual price,
    together with the material and machine catalogues and the settings, it
    computes a price breakdown, or nothing when a claimed print time has no
    machine to price it. */
module Calculations {
  import opened Wrappers
  import opened Lists
  import opened Types

  /** The engine's loosely typed input: every field of the job may be absent. */
  datatype CalculationInput = CalculationInput(
    machineId: Option<string>,
    parts: Option<seq<QuotePart>>,
    printHours: Option<real>,
    laborHours: Option<real>,
    tariffType: Option<string>,
    peakHours: Option<real>,
    designCost: Option<real>,
    extraCosts: Option<seq<ExtraCost>>,
    finalPriceOverride: Option<real>)

  /** The price breakdown the engine returns. `subtotal` is the production
      cost; `costSubtotal` adds the design cost and the extras. */
  datatype CostBreakdown = CostBreakdown(
    materialCost: real,
    machineDepreciationCost: real,
    energyCost: real,
    laborCost: real,
    subtotal: real,
    designCost: real,
    totalExtraCosts: real,
    costSubtotal: real,
    profitAmount: real,
    total: real,
    isManualPrice: bool)

  lemma NonNegativeProduct(a: real, b: real)
    ensures a >= 0.0 && b >= 0.0 ==> a * b >= 0.0
  {
  }

  // ---------------------------------------------------------------------------
  // Catalogue lookups

  function MachineId(m: Machine): string { m.id }

  function MaterialId(m: Material): string { m.id }

  /** The first machine whose id equals the job's machine id. */
  function FindMachine(machines: seq<Machine>, id: Option<string>): (r: Option<Machine>)
    ensures r.Some? ==> Some(r.value.id) == id && r.value in machines
    ensures r.None? <==> forall i :: 0 <= i < |machines| ==> Some(machines[i].id) != id
  {
    FindById(machines, MachineId, id)
  }

  /** The first material whose id equals the part's material id. */
  function FindMaterial(materials: seq<Material>, id: Option<string>): (r: Option<Material>)
    ensures r.Some? ==> Some(r.value.id) == id && r.value in materials
    ensures r.None? <==> forall i :: 0 <= i < |materials| ==> Some(materials[i].id) != id
  {
    FindById(materials, MaterialId, id)
  }

  // ---------------------------------------------------------------------------
  // Material cost

  /** What one part adds to the material cost: its kilograms times the
      material's price per kilogram, or nothing when its material is not in the
      catalogue or its grams are not positive. */
  function PartCost(materials: seq<Material>, part: QuotePart): real {
    var material := FindMaterial(materials, part.materialId);
    var grams := OrZero(part.materialGrams);
    if material.Some? && grams > 0.0 then (grams / 1000.0) * material.value.cost else 0.0
  }

  function PartPricer(materials: seq<Material>): QuotePart -> real {
    (part: QuotePart) => PartCost(materials, part)
  }

  /** A part that adds nothing: its material is unknown or its grams are not positive. */
  predicate Unpriced(materials: seq<Material>, part: QuotePart) {
    FindMaterial(materials, part.materialId).None? || OrZero(part.materialGrams) <= 0.0
  }

  ghost predicate NonNegativePrices(materials: seq<Material>) {
    forall i :: 0 <= i < |materials| ==> materials[i].cost >= 0.0
  }

  /** The material cost of a job: the sum over its parts, in order, of what each adds. */
  function MaterialCost(parts: Option<seq<QuotePart>>, materials: seq<Material>): (r: real)
    ensures parts.None? || parts == Some([]) ==> r == 0.0
  {
    match parts
    case None => 0.0
    case Some(ps) => SumOf(ps, PartPricer(materials))
  }

  /** The material loop: starting from 0, add each priced part's kilograms times
      its material's price per kilogram. */
  method AccumulateMaterialCost(parts: Option<seq<QuotePart>>, materials: seq<Material>) returns (materialCost: real)
    ensures materialCost == MaterialCost(parts, materials)
  {
    materialCost := 0.0;
    if parts.Some? && |parts.value| > 0 {
      var ps := parts.value;
      for k := 0 to |ps|
        invariant materialCost == SumOf(ps[..k], PartPricer(materials))
      {
        var part := ps[k];
        var material := FindMaterial(materials, part.materialId);
        var grams := OrZero(part.materialGrams);
        assert ps[..k + 1][..k] == ps[..k];
        if material.Some? && grams > 0.0 {
          materialCost := materialCost + (grams / 1000.0) * material.value.cost;
        }
      }
      assert ps[..|ps|] == ps;
    }
  }

  /** A job of one part costs that part's kilograms times its material's price
      per kilogram, or nothing when the material is not in the catalogue or the
      grams are not positive. With `MaterialCostAppend` this fixes the cost of
      every list of parts. */
  lemma MaterialCostOfOnePart(part: QuotePart, materials: seq<Material>)
    ensures Unpriced(materials, part) ==> MaterialCost(Some([part]), materials) == 0.0
    ensures !Unpriced(materials, part) ==>
              var m := FindMaterial(materials, part.materialId).value;
              MaterialCost(Some([part]), materials) == (OrZero(part.materialGrams) / 1000.0) * m.cost
  {
    assert [part][..0] == [];
    assert SumOf([part], PartPricer(materials)) == SumOf([], PartPricer(materials)) + PartCost(materials, part);
  }

  /** With non-negative catalogue prices no job has a negative material cost. */
  lemma MaterialCostNonNegative(parts: Option<seq<QuotePart>>, materials: seq<Material>)
    requires NonNegativePrices(materials)
    ensures MaterialCost(parts, materials) >= 0.0
  {
    if parts.Some? {
      var ps := parts.value;
      forall i | 0 <= i < |ps| ensures PartPricer(materials)(ps[i]) >= 0.0 {
        var material := FindMaterial(materials, ps[i].materialId);
        var grams := OrZero(ps[i].materialGrams);
        if material.Some? && grams > 0.0 {
          var j :| 0 <= j < |materials| && materials[j] == material.value;
          NonNegativeProduct(grams / 1000.0, material.value.cost);
        }
      }
      SumOfNonNegative(ps, PartPricer(materials));
    }
  }

  /** The parts of two lists together cost what the two lists cost separately. */
  lemma MaterialCostAppend(a: seq<QuotePart>, b: seq<QuotePart>, materials: seq<Material>)
    ensures MaterialCost(Some(a + b), materials) == MaterialCost(Some(a), materials) + MaterialCost(Some(b), materials)
  {
    SumOfAppend(a, b, PartPricer(materials));
  }

  /** Adding parts whose material is unknown or whose grams are not positive
      changes nothing: unresolved ids are skipped, never an error. */
  lemma MaterialCostIgnoresUnpriced(ps: seq<QuotePart>, unpriced: seq<QuotePart>, materials: seq<Material>)
    requires forall i :: 0 <= i < |unpriced| ==> Unpriced(materials, unpriced[i])
    ensures MaterialCost(Some(ps + unpriced), materials) == MaterialCost(Some(ps), materials)
  {
    SumOfAppend(ps, unpriced, PartPricer(materials));
    SumOfZero(unpriced, PartPricer(materials));
  }

  /** The order of the parts does not matter, and a repeated part is counted each time. */
  lemma MaterialCostOrderIrrelevant(a: seq<QuotePart>, b: seq<QuotePart>, materials: seq<Material>)
    requires multiset(a) == multiset(b)
    ensures MaterialCost(Some(a), materials) == MaterialCost(Some(b), materials)
  {
    SumOfPermutation(a, b, PartPricer(materials));
  }

  /** The part with its grams multiplied by `k`. */
  function ScalePart(part: QuotePart, k: real): QuotePart {
    match part.materialGrams
    case None => part
    case Some(g) => part.(materialGrams := Some(k * g))
  }

  function ScaleGrams(parts: Option<seq<QuotePart>>, k: real): Option<seq<QuotePart>> {
    match parts
    case None => None
    case Some(ps) => Some(seq(|ps|, i requires 0 <= i < |ps| => ScalePart(ps[i], k)))
  }

  /** Multiplying one part's grams by a positive `k` multiplies what it adds by `k`. */
  lemma PartCostScale(materials: seq<Material>, part: QuotePart, k: real)
    requires k > 0.0
    ensures PartPricer(materials)(ScalePart(part, k)) == k * PartPricer(materials)(part)
  {
    var g := OrZero(part.materialGrams);
    assert OrZero(ScalePart(part, k).materialGrams) == k * g;
    assert k * g > 0.0 <==> g > 0.0 by {
      NonNegativeProduct(k, g);
      NonNegativeProduct(k, -g);
    }
    var material := FindMaterial(materials, part.materialId);
    if material.Some? && g > 0.0 {
      var c := material.value.cost;
      assert (k * g / 1000.0) * c == k * ((g / 1000.0) * c);
    }
  }

  /** Material cost is linear in the grams: doubling every part's grams doubles
      the material cost exactly. */
  lemma MaterialCostDoublesWithGrams(parts: Option<seq<QuotePart>>, materials: seq<Material>)
    ensures MaterialCost(ScaleGrams(parts, 2.0), materials) == 2.0 * MaterialCost(parts, materials)
  {
    if parts.Some? {
      PartsCostDouble(parts.value, ScaleGrams(parts, 2.0).value, materials);
    }
  }

  lemma PartsCostDouble(ps: seq<QuotePart>, scaled: seq<QuotePart>, materials: seq<Material>)
    requires |scaled| == |ps| && forall i :: 0 <= i < |ps| ==> scaled[i] == ScalePart(ps[i], 2.0)
    ensures SumOf(scaled, PartPricer(materials)) == 2.0 * SumOf(ps, PartPricer(materials))
  {
    forall i | 0 <= i < |ps| ensures PartPricer(materials)(scaled[i]) == 2.0 * PartPricer(materials)(ps[i]) {
      PartCostScale(materials, ps[i], 2.0);
    }
    SumOfScaled(ps, PartPricer(materials), scaled, PartPricer(materials), 2.0);
  }

  // ---------------------------------------------------------------------------
  // Machine, energy and labour costs

  /** `Math.min`. */
  function Min(a: real, b: real): real {
    if a <= b then a else b
  }

  /** The tariff in force: `tariffType || 'off-peak'`. */
  function EffectiveTariff(tariffType: Option<string>): string {
    match tariffType
    case None => "off-peak"
    case Some(t) => if t == "" then "off-peak" else t
  }

  /** The split of the print hours into (peak hours, off-peak hours): all peak
      under the peak tariff, the requested peak hours capped at the print hours
      under the mixed tariff, and all off-peak under any other tariff. */
  function TariffSplit(tariffType: Option<string>, requestedPeak: Option<real>, printHours: real): (split: (real, real))
    ensures split.0 + split.1 == printHours
    ensures EffectiveTariff(tariffType) == "peak" ==> split.1 == 0.0
    ensures EffectiveTariff(tariffType) == "mixed" ==>
              && split.0 <= printHours && split.0 <= OrZero(requestedPeak)
              && (split.0 == printHours || split.0 == OrZero(requestedPeak))
    ensures EffectiveTariff(tariffType) != "peak" && EffectiveTariff(tariffType) != "mixed" ==>
              split.1 == printHours
    ensures printHours >= 0.0 && OrZero(requestedPeak) >= 0.0 ==>
              0.0 <= split.0 <= printHours && 0.0 <= split.1 <= printHours
  {
    var tariff := EffectiveTariff(tariffType);
    var peak :=
      if tariff == "peak" then printHours
      else if tariff == "mixed" then Min(OrZero(requestedPeak), printHours)
      else 0.0;
    (peak, printHours - peak)
  }

  /** Under the mixed tariff the requested peak hours are capped at the print
      hours but not at zero: a negative request gives negative peak hours and
      more off-peak hours than print hours. */
  lemma MixedTariffKeepsNegativePeak()
    ensures TariffSplit(Some("mixed"), Some(-1.0), 2.0) == (-1.0, 3.0)
  {
  }

  /** The machine's depreciation over the print time. */
  function DepreciationCost(machine: Machine, printHours: real): (r: real)
    ensures machine.costPerHour >= 0.0 && printHours >= 0.0 ==> r >= 0.0
  {
    machine.costPerHour * printHours
  }

  /** The energy bill: each tariff's hours at the machine's draw in kW and that tariff's price. */
  function EnergyCost(machine: Machine, settings: Settings, peakHours: real, offPeakHours: real): (r: real)
    ensures settings.peakEnergyCostKwh == settings.offPeakEnergyCostKwh ==>
              r == (machine.powerConsumption / 1000.0) * (peakHours + offPeakHours) * settings.peakEnergyCostKwh
    ensures (machine.powerConsumption >= 0.0 && settings.peakEnergyCostKwh >= 0.0 &&
             settings.offPeakEnergyCostKwh >= 0.0 && peakHours >= 0.0 && offPeakHours >= 0.0) ==> r >= 0.0
  {
    var kW := machine.powerConsumption / 1000.0;
    var r := peakHours * kW * settings.peakEnergyCostKwh + offPeakHours * kW * settings.offPeakEnergyCostKwh;
    assert r == kW * (peakHours * settings.peakEnergyCostKwh + offPeakHours * settings.offPeakEnergyCostKwh);
    NonNegativeProduct(peakHours, settings.peakEnergyCostKwh);
    NonNegativeProduct(offPeakHours, settings.offPeakEnergyCostKwh);
    NonNegativeProduct(kW, peakHours * settings.peakEnergyCostKwh + offPeakHours * settings.offPeakEnergyCostKwh);
    r
  }

  /** The labour cost of the job's labour hours. */
  function LaborCost(settings: Settings, laborHours: real): (r: real)
    ensures settings.laborCostPerHour >= 0.0 && laborHours >= 0.0 ==> r >= 0.0
  {
    settings.laborCostPerHour * laborHours
  }

  // ---------------------------------------------------------------------------
  // Extras and pricing

  /** `Number(cost.amount) || 0`. */
  function Amount(cost: ExtraCost): real {
    OrZero(cost.amount)
  }

  /** The sum of the extra-cost amounts; absent amounts and an absent list count as 0. */
  function ExtraCostsTotal(extraCosts: Option<seq<ExtraCost>>): (r: real)
    ensures extraCosts.None? || extraCosts == Some([]) ==> r == 0.0
  {
    match extraCosts
    case None => 0.0
    case Some(costs) => SumOf(costs, Amount)
  }

  /** Non-negative amounts give a non-negative extra-cost total. */
  lemma ExtraCostsNonNegative(extraCosts: Option<seq<ExtraCost>>)
    requires extraCosts.Some? ==> forall c :: c in extraCosts.value ==> Amount(c) >= 0.0
    ensures ExtraCostsTotal(extraCosts) >= 0.0
  {
    if extraCosts.Some? {
      var costs := extraCosts.value;
      assert forall i :: 0 <= i < |costs| ==> costs[i] in costs;
      SumOfNonNegative(costs, Amount);
    }
  }

  /** One extra cost totals its amount, or 0 when the amount is absent. */
  lemma ExtraCostsOfOne(cost: ExtraCost)
    ensures cost.amount.None? ==> ExtraCostsTotal(Some([cost])) == 0.0
    ensures cost.amount.Some? ==> ExtraCostsTotal(Some([cost])) == cost.amount.value
  {
    assert [cost][..0] == [];
    assert SumOf([cost], Amount) == SumOf([], Amount) + Amount(cost);
  }

  /** Two lists of extras together total what they total separately. */
  lemma ExtraCostsAppend(a: seq<ExtraCost>, b: seq<ExtraCost>)
    ensures ExtraCostsTotal(Some(a + b)) == ExtraCostsTotal(Some(a)) + ExtraCostsTotal(Some(b))
  {
    SumOfAppend(a, b, Amount);
  }

  /** The order of the extras does not matter. */
  lemma ExtraCostsOrderIrrelevant(a: seq<ExtraCost>, b: seq<ExtraCost>)
    requires multiset(a) == multiset(b)
    ensures ExtraCostsTotal(Some(a)) == ExtraCostsTotal(Some(b))
  {
    SumOfPermutation(a, b, Amount);
  }

  /** Manual pricing applies exactly when the override is a number that is not negative. */
  predicate IsManualPrice(finalPriceOverride: Option<real>) {
    finalPriceOverride.Some? && finalPriceOverride.value >= 0.0
  }

  /** The profit of automatic pricing: the margin percentage of the cost subtotal,
      so that the total is the cost subtotal marked up by that percentage. */
  function AutomaticProfit(settings: Settings, costSubtotal: real): (r: real)
    ensures costSubtotal + r == costSubtotal * (1.0 + settings.profitMargin / 100.0)
    ensures settings.profitMargin >= 0.0 && costSubtotal >= 0.0 ==> r >= 0.0
  {
    NonNegativeProduct(costSubtotal, settings.profitMargin / 100.0);
    costSubtotal * (settings.profitMargin / 100.0)
  }

  /** Every catalogue price, setting, time and amount the job is priced from is
      non-negative. The catalogue, settings and extra-cost forms require this of
      their values; the job's hours and design cost are not validated, so for
      them it is a hypothesis. */
  ghost predicate NonNegativeInputs(quote: CalculationInput, materials: seq<Material>, machines: seq<Machine>, settings: Settings) {
    && NonNegativePrices(materials)
    && (forall i :: 0 <= i < |machines| ==> machines[i].costPerHour >= 0.0 && machines[i].powerConsumption >= 0.0)
    && settings.laborCostPerHour >= 0.0 && settings.profitMargin >= 0.0
    && settings.peakEnergyCostKwh >= 0.0 && settings.offPeakEnergyCostKwh >= 0.0
    && OrZero(quote.printHours) >= 0.0 && OrZero(quote.laborHours) >= 0.0
    && OrZero(quote.peakHours) >= 0.0 && OrZero(quote.designCost) >= 0.0
    && (quote.extraCosts.Some? ==> forall c :: c in quote.extraCosts.value ==> Amount(c) >= 0.0)
  }

  // ---------------------------------------------------------------------------
  // The engine

  method CalculateCosts(quote: CalculationInput, materials: seq<Material>, machines: seq<Machine>, settings: Settings)
    returns (breakdown: Option<CostBreakdown>)
    // The one case with no breakdown: no machine, yet print time is claimed.
    ensures breakdown.None? <==> FindMachine(machines, quote.machineId).None? && OrZero(quote.printHours) > 0.0
    ensures breakdown.Some? ==> breakdown.value.materialCost == MaterialCost(quote.parts, materials)
    // No machine and no print time: a breakdown of the materials alone, whatever
    // design cost, extras or override the job carries.
    ensures FindMachine(machines, quote.machineId).None? && breakdown.Some? ==>
              var b := breakdown.value;
              && b.subtotal == b.materialCost && b.costSubtotal == b.materialCost && b.total == b.materialCost
              && b.machineDepreciationCost == 0.0 && b.energyCost == 0.0 && b.laborCost == 0.0
              && b.designCost == 0.0 && b.totalExtraCosts == 0.0 && b.profitAmount == 0.0
              && !b.isManualPrice
    // A machine: the full breakdown.
    ensures FindMachine(machines, quote.machineId).Some? ==>
              && breakdown.Some?
              && var m, b := FindMachine(machines, quote.machineId).value, breakdown.value;
                 var split := TariffSplit(quote.tariffType, quote.peakHours, OrZero(quote.printHours));
                 && b.machineDepreciationCost == DepreciationCost(m, OrZero(quote.printHours))
                 && b.energyCost == EnergyCost(m, settings, split.0, split.1)
                 && b.laborCost == LaborCost(settings, OrZero(quote.laborHours))
                 && b.subtotal == b.materialCost + b.machineDepreciationCost + b.laborCost + b.energyCost
                 && b.designCost == OrZero(quote.designCost)
                 && b.totalExtraCosts == ExtraCostsTotal(quote.extraCosts)
                 && b.costSubtotal == b.subtotal + b.designCost + b.totalExtraCosts
                 && b.isManualPrice == IsManualPrice(quote.finalPriceOverride)
    // Manual pricing: the total is the override and the profit is whatever is
    // left of it, negative when the override is below the cost subtotal.
    ensures breakdown.Some? && breakdown.value.isManualPrice ==>
              && quote.finalPriceOverride == Some(breakdown.value.total)
              && breakdown.value.profitAmount == breakdown.value.total - breakdown.value.costSubtotal
    // Automatic pricing: the margin is applied to the whole cost subtotal.
    ensures FindMachine(machines, quote.machineId).Some? && !IsManualPrice(quote.finalPriceOverride) ==>
              var b := breakdown.value;
              && b.profitAmount == AutomaticProfit(settings, b.costSubtotal)
              && b.total == b.costSubtotal + b.profitAmount
    // With non-negative inputs every layer of the price only adds.
    ensures NonNegativeInputs(quote, materials, machines, settings) && breakdown.Some? ==>
              var b := breakdown.value;
              && 0.0 <= b.materialCost <= b.subtotal <= b.costSubtotal
              && 0.0 <= b.total
              && (!b.isManualPrice ==> b.costSubtotal <= b.total)
  {
    var machine := FindMachine(machines, quote.machineId);
    var totalPrintHours := OrZero(quote.printHours);
    var laborHours := OrZero(quote.laborHours);
    var tariffType := EffectiveTariff(quote.tariffType);
    var designCost := OrZero(quote.designCost);
    var finalPriceOverride := quote.finalPriceOverride;

    var materialCost := AccumulateMaterialCost(quote.parts, materials);
    if NonNegativeInputs(quote, materials, machines, settings) {
      MaterialCostNonNegative(quote.parts, materials);
    }

    if machine.None? {
      var partial := CostBreakdown(
        materialCost, 0.0, 0.0, 0.0,
        materialCost, 0.0, 0.0,
        materialCost, 0.0, materialCost,
        false);
      breakdown := if totalPrintHours > 0.0 then None else Some(partial);
      return;
    }
    var m := machine.value;

    var machineDepreciationCost := DepreciationCost(m, totalPrintHours);

    var peakHours := 0.0;
    if tariffType == "peak" {
      peakHours := totalPrintHours;
    } else if tariffType == "mixed" {
      peakHours := Min(OrZero(quote.peakHours), totalPrintHours);
    }
    var offPeakHours := totalPrintHours - peakHours;
    assert (peakHours, offPeakHours) == TariffSplit(quote.tariffType, quote.peakHours, totalPrintHours);

    var energyCost := EnergyCost(m, settings, peakHours, offPeakHours);
    var laborCost := LaborCost(settings, laborHours);
    var subtotal := materialCost + machineDepreciationCost + laborCost + energyCost;
    var totalExtraCosts := ExtraCostsTotal(quote.extraCosts);
    var costSubtotal := subtotal + designCost + totalExtraCosts;

    var profitAmount: real;
    var total: real;
    var isManualPrice := finalPriceOverride.Some? && finalPriceOverride.value >= 0.0;

    if isManualPrice {
      total := finalPriceOverride.value;
      profitAmount := total - costSubtotal;
    } else {
      profitAmount := AutomaticProfit(settings, costSubtotal);
      total := costSubtotal + profitAmount;
    }

    if NonNegativeInputs(quote, materials, machines, settings) {
      assert m.costPerHour >= 0.0 && m.powerConsumption >= 0.0 by {
        var j :| 0 <= j < |machines| && machines[j] == m;
      }
      ExtraCostsNonNegative(quote.extraCosts);
    }

    breakdown := Some(CostBreakdown(
      materialCost,
      machineDepreciationCost,
      energyCost,
      laborCost,
      subtotal,
      designCost,
      totalExtraCosts,
      costSubtotal,
      profitAmount,
      total,
      isManualPrice));
  }
}
