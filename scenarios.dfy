/** Whole-engine consequences of the contract of `CalculateCosts`: a priced
    job worked through end to end, a manual price below cost, and the fact
    that the result depends on the inputs alone. */
module Scenarios {
  import opened Wrappers
  import opened Lists
  import opened Types
  import opened Calculations

  /** 200 g of a 20-per-kg filament on a printer worth 0.50 an hour that draws
      120 W, printed for 2 off-peak hours at 0.139 per kWh, with half an hour
      of labour at 5 an hour and a 30% margin. */
  const SampleMaterials := [Material("pla", "PLA", 20.0)]
  const SampleMachines := [Machine("p1", "Printer", 0.5, 120.0)]
  const SampleSettings := Settings(5.0, 30.0, 0.25, 0.139)
  const SamplePart := QuotePart(Some("part-1"), Some("pla"), Some(200.0))
  const SampleJob := CalculationInput(
    Some("p1"), Some([SamplePart]), Some(2.0), Some(0.5), Some("off-peak"),
    None, None, None, None)

  /** The sample's material cost: 0.2 kg at 20 per kg. */
  lemma SampleMaterialCost()
    ensures MaterialCost(SampleJob.parts, SampleMaterials) == 4.0
  {
    var pricer := PartPricer(SampleMaterials);
    assert FindMaterial(SampleMaterials, SamplePart.materialId) == Some(SampleMaterials[0]);
    assert pricer(SamplePart) == 4.0;
    assert [SamplePart][..0] == [];
    assert SumOf([SamplePart], pricer) == SumOf([], pricer) + pricer(SamplePart);
  }

  /** The sample priced automatically, and the same job naming a machine that
      is not in the catalogue. */
  method PricedAndUnpricedJob() returns (priced: Option<CostBreakdown>, unpriced: Option<CostBreakdown>)
    ensures priced == Some(CostBreakdown(
              4.0, 1.0, 0.03336, 2.5,
              7.53336, 0.0, 0.0,
              7.53336, 2.260008, 9.793368,
              false))
    ensures unpriced == None
  {
    SampleMaterialCost();
    priced := CalculateCosts(SampleJob, SampleMaterials, SampleMachines, SampleSettings);
    unpriced := CalculateCosts(SampleJob.(machineId := Some("gone")), SampleMaterials, SampleMachines, SampleSettings);
  }

  /** The sample sold by hand for 5, below its cost subtotal of 7.53336: the
      breakdown is manual and reports the loss as a negative profit. */
  method UnderpricedManualJob() returns (b: Option<CostBreakdown>)
    ensures b.Some? && b.value.isManualPrice
    ensures b.value.total == 5.0 && b.value.profitAmount < 0.0
  {
    SampleMaterialCost();
    b := CalculateCosts(SampleJob.(finalPriceOverride := Some(5.0)), SampleMaterials, SampleMachines, SampleSettings);
  }

  /** Same inputs, same breakdown: the engine keeps no state between calls. */
  method RecalculationIsStable(quote: CalculationInput, materials: seq<Material>, machines: seq<Machine>, settings: Settings)
    returns (first: Option<CostBreakdown>, second: Option<CostBreakdown>)
    ensures first == second
  {
    first := CalculateCosts(quote, materials, machines, settings);
    second := CalculateCosts(quote, materials, machines, settings);
  }
}
