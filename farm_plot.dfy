/**
 * Soil state of a plot and the plot's crop lifecycle: empty, planted,
 * harvested into the cultivation history.
 */
module FarmPlots {
  import opened Options
  import opened Crops
  import opened Snapshots

  /** Salinity after a signed change, never below zero. */
  function ClampedSalinity(current: real, change: real): (r: real)
    ensures r >= 0.0
    ensures current + change >= 0.0 ==> r == current + change
    ensures current + change < 0.0 ==> r == 0.0
  {
    var s := current + change;
    if s > 0.0 then s else 0.0
  }

  /** Soil moisture after rain and irrigation in and evapotranspiration out,
      first capped at the holding capacity and then floored at zero. */
  function ClampedMoisture(current: real, rainfall: real, irrigation: real, et: real, capacity: real): (r: real)
    ensures capacity >= 0.0 ==> 0.0 <= r <= capacity
    ensures capacity < 0.0 ==> r == 0.0
    ensures 0.0 <= current + rainfall + irrigation - et <= capacity ==> r == current + rainfall + irrigation - et
    ensures 0.0 <= capacity < current + rainfall + irrigation - et ==> r == capacity
    ensures current + rainfall + irrigation - et < 0.0 ==> r == 0.0
  {
    var m := current + rainfall + irrigation - et;
    var capped := if m < capacity then m else capacity;
    if capped > 0.0 then capped else 0.0
  }

  /** More water in never leaves less moisture, and a larger change never
      leaves less salinity: both clamps are monotone in their inputs. */
  lemma ClampMonotone(current: real, rainfall: real, et: real, capacity: real,
                      less: real, more: real)
    requires less <= more
    ensures ClampedSalinity(current, less) <= ClampedSalinity(current, more)
    ensures ClampedMoisture(current, rainfall, less, et, capacity) <= ClampedMoisture(current, rainfall, more, et, capacity)
    ensures ClampedMoisture(current, less, 0.0, et, capacity) <= ClampedMoisture(current, more, 0.0, et, capacity)
  {
  }

  /** Soil characteristics of a farm plot. */
  class SoilProperties {
    var soilType: string
    var organicMatterPercent: real
    var ph: real
    var salinityDsM: real
    var initialSalinityDsM: real
    var availableNitrogenKgHa: real
    var availablePhosphorusKgHa: real
    var availablePotassiumKgHa: real
    var waterHoldingCapacityMm: real
    var currentSoilMoistureMm: real

    /** The state a `SoilProperties()` call with no arguments produces. */
    ghost predicate IsDefault()
      reads this
    {
      && soilType == "Loam" && organicMatterPercent == 1.5 && ph == 6.5
      && salinityDsM == 1.0 && initialSalinityDsM == 1.0
      && availableNitrogenKgHa == 100.0 && availablePhosphorusKgHa == 20.0 && availablePotassiumKgHa == 150.0
      && waterHoldingCapacityMm == 150.0 && currentSoilMoistureMm == 100.0
    }

    constructor (soilType: string := "Loam", organicMatterPercent: real := 1.5, ph: real := 6.5,
                 salinityDsM: real := 1.0, availableNitrogenKgHa: real := 100.0,
                 availablePhosphorusKgHa: real := 20.0, availablePotassiumKgHa: real := 150.0)
      ensures this.soilType == soilType && this.organicMatterPercent == organicMatterPercent && this.ph == ph
      ensures this.salinityDsM == salinityDsM && this.initialSalinityDsM == salinityDsM
      ensures this.availableNitrogenKgHa == availableNitrogenKgHa
      ensures this.availablePhosphorusKgHa == availablePhosphorusKgHa
      ensures this.availablePotassiumKgHa == availablePotassiumKgHa
      ensures waterHoldingCapacityMm == 150.0 && currentSoilMoistureMm == 100.0
    {
      this.soilType := soilType;
      this.organicMatterPercent := organicMatterPercent;
      this.ph := ph;
      this.salinityDsM := salinityDsM;
      this.initialSalinityDsM := salinityDsM;
      this.availableNitrogenKgHa := availableNitrogenKgHa;
      this.availablePhosphorusKgHa := availablePhosphorusKgHa;
      this.availablePotassiumKgHa := availablePotassiumKgHa;
      this.waterHoldingCapacityMm := 150.0;
      this.currentSoilMoistureMm := 100.0;
    }

    /** Applies a signed salinity change; salinity never goes negative. */
    method UpdateSalinity(changeDsM: real)
      modifies this`salinityDsM
      ensures salinityDsM == ClampedSalinity(old(salinityDsM), changeDsM)
      ensures salinityDsM >= 0.0
    {
      salinityDsM := salinityDsM + changeDsM;
      salinityDsM := if salinityDsM > 0.0 then salinityDsM else 0.0;
    }

    /** Adds rainfall and irrigation, removes evapotranspiration, and clamps to [0, capacity]. */
    method UpdateSoilMoisture(rainfallMm: real, irrigationMm: real, etCropMm: real)
      modifies this`currentSoilMoistureMm
      ensures currentSoilMoistureMm ==
              ClampedMoisture(old(currentSoilMoistureMm), rainfallMm, irrigationMm, etCropMm, waterHoldingCapacityMm)
      ensures waterHoldingCapacityMm >= 0.0 ==> 0.0 <= currentSoilMoistureMm <= waterHoldingCapacityMm
    {
      currentSoilMoistureMm := currentSoilMoistureMm + rainfallMm + irrigationMm - etCropMm;
      var capped := if currentSoilMoistureMm < waterHoldingCapacityMm then currentSoilMoistureMm
                    else waterHoldingCapacityMm;
      currentSoilMoistureMm := if capped > 0.0 then capped else 0.0;
    }
  }

  /** One past crop cycle of a plot. */
  datatype HistoryEntry = HistoryEntry(
    varietyId: string,
    season: Season,
    plantingDate: Option<string>,
    harvestDate: string,
    yieldTHa: real,
    stressFactors: seq<StressEntry>)

  /** The state of a plot (soil aside), as a value. */
  datatype PlotRec = PlotRec(
    plotId: string,
    ownerAgentId: Option<string>,
    sizeHa: real,
    landQuality: real,
    crop: Option<CropRec>,
    history: seq<HistoryEntry>,
    isIrrigated: bool,
    irrigationType: Option<string>,
    waterSourceReliability: real)

  /** The crop a successful planting installs. */
  function FreshCrop(v: Variety, plantingDate: string): CropRec {
    CropRec(v, Some(plantingDate), None, None, 1.0, None, [])
  }

  /** What `plant_crop` does to a plot's state, and whether it reports success. */
  function PlantSpec(p: PlotRec, v: Variety, plantingDate: string, season: Season): (bool, PlotRec) {
    if p.crop.Some? then (false, p)
    else if v.season != season then (false, p)
    else (true, p.(crop := Some(FreshCrop(v, plantingDate))))
  }

  /** The history entry that harvesting a crop records. */
  function EntryFor(c: CropRec, harvestDate: string, y: real): HistoryEntry {
    HistoryEntry(c.variety.varietyId, c.variety.season, c.plantingDate, harvestDate, y, c.stressFactors)
  }

  /** What `harvest_crop` does to a plot's state, and the finalised crop it returns. */
  function HarvestSpec(p: PlotRec, harvestDate: string, y: real): (Option<CropRec>, PlotRec) {
    if p.crop.None? then (None, p)
    else
      var c := p.crop.value.(harvestDate := Some(harvestDate), actualYieldTHa := Some(y));
      (Some(c), p.(crop := None, history := p.history + [EntryFor(p.crop.value, harvestDate, y)]))
  }

  /** An individual farm plot. */
  class FarmPlot {
    const plotId: string
    var ownerAgentId: Option<string>
    const sizeHa: real
    const soil: SoilProperties
    var landQuality: real
    var currentCrop: Option<CropRec>
    var cultivationHistory: seq<HistoryEntry>
    var isIrrigated: bool
    var irrigationType: Option<string>
    var waterSourceReliability: real

    /** The plot's state (soil aside), as a value. */
    function Record(): PlotRec
      reads this
    {
      PlotRec(plotId, ownerAgentId, sizeHa, landQuality, currentCrop,
              cultivationHistory, isIrrigated, irrigationType, waterSourceReliability)
    }

    constructor (plotId: string, ownerAgentId: Option<string>, sizeHa: real,
                 soilProperties: SoilProperties? := null, initialLandQuality: real := 1.0)
      ensures soilProperties != null ==> soil == soilProperties
      ensures soilProperties == null ==> fresh(soil) && soil.IsDefault()
      ensures Record() == PlotRec(plotId, ownerAgentId, sizeHa, initialLandQuality, None, [], false, None, 1.0)
    {
      this.plotId := plotId;
      this.ownerAgentId := ownerAgentId;
      this.sizeHa := sizeHa;
      if soilProperties != null {
        this.soil := soilProperties;
      } else {
        this.soil := new SoilProperties();
      }
      this.landQuality := initialLandQuality;
      this.currentCrop := None;
      this.cultivationHistory := [];
      this.isIrrigated := false;
      this.irrigationType := None;
      this.waterSourceReliability := 1.0;
    }

    /** Plants a fresh crop of `variety`. An occupied plot is refused first,
        then a variety of another season; soil and history are never touched. */
    method PlantCrop(variety: Variety, plantingDate: string, season: Season) returns (ok: bool)
      modifies this`currentCrop
      ensures ok <==> old(currentCrop).None? && variety.season == season
      ensures !ok ==> currentCrop == old(currentCrop)
      ensures ok ==> currentCrop == Some(FreshCrop(variety, plantingDate))
      ensures (ok, Record()) == PlantSpec(old(Record()), variety, plantingDate, season)
    {
      if currentCrop.Some? {
        return false;
      }
      if variety.season != season {
        return false;
      }
      var crop := new Crop(variety, Some(plantingDate));
      currentCrop := Some(crop.Record());
      return true;
    }

    /** Finalises the current crop with its harvest date and yield, records
        it in the history, clears the plot and returns the finalised crop. */
    method HarvestCrop(harvestDate: string, actualYieldTHa: real) returns (harvested: Option<CropRec>)
      modifies this`currentCrop, this`cultivationHistory
      ensures old(currentCrop).None? ==> harvested.None? && cultivationHistory == old(cultivationHistory)
      ensures old(currentCrop).Some? ==>
                && harvested == Some(old(currentCrop).value.(harvestDate := Some(harvestDate), actualYieldTHa := Some(actualYieldTHa)))
                && cultivationHistory ==
                   old(cultivationHistory) + [EntryFor(old(currentCrop).value, harvestDate, actualYieldTHa)]
      ensures currentCrop.None?
      ensures (harvested, Record()) == HarvestSpec(old(Record()), harvestDate, actualYieldTHa)
    {
      if currentCrop.None? {
        return None;
      }
      var crop := currentCrop.value.(harvestDate := Some(harvestDate), actualYieldTHa := Some(actualYieldTHa));
      cultivationHistory := cultivationHistory + [
        HistoryEntry(crop.variety.varietyId, crop.variety.season, crop.plantingDate,
                     harvestDate, actualYieldTHa, crop.stressFactors)];
      currentCrop := None;
      return Some(crop);
    }

    /** Irrigates only a plot that is irrigated and carries a crop. */
    method ApplyIrrigation(amountMm: real)
      modifies soil`currentSoilMoistureMm
      ensures isIrrigated && currentCrop.Some? ==>
                soil.currentSoilMoistureMm ==
                ClampedMoisture(old(soil.currentSoilMoistureMm), 0.0, amountMm, 0.0, soil.waterHoldingCapacityMm)
      ensures !(isIrrigated && currentCrop.Some?) ==> soil.currentSoilMoistureMm == old(soil.currentSoilMoistureMm)
    {
      if isIrrigated && currentCrop.Some? {
        soil.UpdateSoilMoisture(0.0, amountMm, 0.0);
      }
    }

    /** Placeholder hook for weather and hydrology; it changes nothing. */
    method UpdatePlotConditions(dailyWeather: Option<Readings>, hydrologicalConditions: Option<Readings>)
      ensures Record() == old(Record())
    {
    }
  }
}
