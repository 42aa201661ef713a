/**
 * The validated input records handed to the simulation engine, with the
 * field bounds that the data-loading layer enforces before hand-off.
 * Each record type comes with a validity predicate stating those bounds.
 */
module Schemas {
  import opened Options

  /** A calendar date; only equality is ever used on it. */
  datatype Date = Date(year: int, month: int, day: int)

  /** Soil properties of a plot record; every field has a default. */
  datatype SoilRecord = SoilRecord(
    soilType: string := "Loam",
    organicMatterPercent: real := 1.5,
    ph: real := 6.5,
    salinityDsM: real := 1.0,
    waterHoldingCapacityMm: real := 150.0)

  /** A farm plot record; `sizeHa` is required, the rest have defaults. */
  datatype PlotRecord = PlotRecord(
    plotId: string,
    sizeHa: real,
    ownerAgentId: Option<string> := None,
    soilProperties: SoilRecord := SoilRecord(),
    isIrrigated: bool := false,
    irrigationType: Option<string> := None,
    initialLandQuality: real := 1.0)

  /** A farmer household profile record. */
  datatype FarmerRecord = FarmerRecord(
    agentId: string,
    householdId: string,
    initialCapitalBdt: real,
    age: int,
    educationYears: int,
    farmingExperienceYears: int,
    riskAversionFactor: real,
    landHoldingCategory: string,
    locationAdminUnitId: Option<string> := None,
    numFarmPlots: int := 0)

  /** A market price observation. */
  datatype MarketPriceRecord = MarketPriceRecord(
    recordDate: Date,
    cropVarietyId: string,
    priceBdtKg: real,
    marketLocationId: Option<string> := None,
    priceBdtTon: Option<real> := None)

  /** The whole validated data set the engine is built from. */
  datatype SimulationInput = SimulationInput(
    farmers: seq<FarmerRecord>,
    farmPlots: seq<PlotRecord>,
    marketPrices: seq<MarketPriceRecord> := [])

  /** A plot record is valid when its area is positive and its land quality is a fraction. */
  predicate ValidPlotRecord(r: PlotRecord) {
    r.sizeHa > 0.0 && 0.0 <= r.initialLandQuality <= 1.0
  }

  /** A farmer record is valid when its money, age, schooling, experience,
      risk coefficient and expected plot count are all in range. */
  predicate ValidFarmerRecord(r: FarmerRecord) {
    && r.initialCapitalBdt >= 0.0
    && r.age > 0
    && r.educationYears >= 0
    && r.farmingExperienceYears >= 0
    && 0.0 <= r.riskAversionFactor <= 1.0
    && r.numFarmPlots >= 0
  }

  /** A market price record is valid when its per-kilogram price is positive. */
  predicate ValidMarketPrice(r: MarketPriceRecord) {
    r.priceBdtKg > 0.0
  }

  /** Every record of the data set is valid. */
  predicate ValidInput(d: SimulationInput) {
    && (forall i :: 0 <= i < |d.farmers| ==> ValidFarmerRecord(d.farmers[i]))
    && (forall i :: 0 <= i < |d.farmPlots| ==> ValidPlotRecord(d.farmPlots[i]))
    && (forall i :: 0 <= i < |d.marketPrices| ==> ValidMarketPrice(d.marketPrices[i]))
  }

  /** A plot record that leaves land quality at its default is valid exactly when its size is positive. */
  lemma DefaultPlotValidity(id: string, size: real)
    ensures PlotRecord(id, size).initialLandQuality == 1.0
    ensures ValidPlotRecord(PlotRecord(id, size)) <==> size > 0.0
  {
  }

  /** A farmer record that leaves the location and the expected plot count
      at their defaults has no plots expected, and it is valid exactly when
      its capital, age, schooling, experience and risk coefficient are. */
  lemma DefaultFarmerValidity(agentId: string, householdId: string, capital: real, age: int,
                              education: int, experience: int, risk: real, category: string)
    ensures var r := FarmerRecord(agentId, householdId, capital, age, education, experience, risk, category);
            && r.numFarmPlots == 0 && r.locationAdminUnitId == None
            && (ValidFarmerRecord(r) <==>
                  capital >= 0.0 && age > 0 && education >= 0 && experience >= 0 && 0.0 <= risk <= 1.0)
  {
  }
}
