/** The catalogue records and job lines the cost engine reads (src/lib/types.ts),
    restricted to the fields the engine uses, plus the ids, names and
    descriptions that identify a record. Money and hours are exact reals. */
module Types {
  import opened Wrappers

  /** A filament kind; `cost` is its price per kilogram. */
  datatype Material = Material(id: string, name: string, cost: real)

  /** A printer: `costPerHour` is its depreciation per print hour,
      `powerConsumption` its electrical draw in watts. */
  datatype Machine = Machine(id: string, name: string, costPerHour: real, powerConsumption: real)

  /** The pricing part of the settings record; energy prices are per kWh and
      `profitMargin` is a percentage. */
  datatype Settings = Settings(
    laborCostPerHour: real,
    profitMargin: real,
    peakEnergyCostKwh: real,
    offPeakEnergyCostKwh: real)

  /** A flat additional charge; its amount may be missing while a form is being filled. */
  datatype ExtraCost = ExtraCost(id: string, description: string, amount: Option<real>)

  /** One material line of a job, as a partial record: any field may be missing. */
  datatype QuotePart = QuotePart(id: Option<string>, materialId: Option<string>, materialGrams: Option<real>)
}
