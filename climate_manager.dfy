/**
 * The climate registry: historical weather per location, named climate
 * scenarios, and the CMIP6 model datasets registered against them. Loading
 * from files is a placeholder in the system, so the registry starts empty
 * and grows only through `AddCmip6ModelData`.
 */
module Climate {
  import opened Options

  /** A calendar date; only compared for equality. */
  datatype Date = Date(year: int, month: int, day: int)

  /** `WeatherParameters`: one day's weather at one place. */
  datatype Weather = Weather(
    date: Date,
    maxTempC: Option<real>,
    minTempC: Option<real>,
    precipitationMm: Option<real>,
    humidityPercent: Option<real>,
    solarRadiationMjM2: Option<real>,
    windSpeedMS: Option<real>,
    stationId: Option<string>)

  /** `ClimateScenario`; its adjustment factors always start empty. */
  datatype Scenario = Scenario(scenarioId: string, name: string, description: Option<string>,
                               adjustmentFactors: map<string, real>)

  /** `CMIP6Data`: a model's name, its scenario and where its data lives. */
  datatype ModelData = ModelData(modelName: string, scenario: Scenario, dataPath: string)

  const AutoDescription := "Auto-generated scenario"

  /** Python truthiness of an optional string: neither `None` nor empty. */
  predicate Named(s: Option<string>) {
    s.Some? && s.value != ""
  }

  /** Python truthiness of an optional temperature: neither `None` nor zero. */
  predicate Given(t: Option<real>) {
    t.Some? && t.value != 0.0
  }

  /** Index `i` holds the first record of `ws` dated `d`. */
  predicate FirstOn(ws: seq<Weather>, d: Date, i: int) {
    0 <= i < |ws| && ws[i].date == d && forall j :: 0 <= j < i ==> ws[j].date != d
  }

  /** The first record of `ws` dated `d`, if any: the search loop of
      `get_weather_for_date`. */
  function FirstOnDate(ws: seq<Weather>, d: Date): (r: Option<Weather>)
    ensures r.None? <==> forall j :: 0 <= j < |ws| ==> ws[j].date != d
    ensures r.Some? ==> exists i :: FirstOn(ws, d, i) && ws[i] == r.value
  {
    if ws == [] then None
    else if ws[0].date == d then
      assert FirstOn(ws, d, 0);
      Some(ws[0])
    else
      var r := FirstOnDate(ws[1..], d);
      if r.Some? then
        var i :| FirstOn(ws[1..], d, i) && ws[1..][i] == r.value;
        assert FirstOn(ws, d, i + 1);
        r
      else
        r
  }

  /** The placeholder scenario adjustment: a new record with the date,
      precipitation and station of `w`, maximum temperature raised by 2 and
      minimum by 1 (a missing or zero temperature becomes missing), and the
      remaining readings left at their missing default. */
  function Adjusted(w: Weather): (r: Weather)
    ensures r.date == w.date && r.precipitationMm == w.precipitationMm && r.stationId == w.stationId
    ensures r.humidityPercent.None? && r.solarRadiationMjM2.None? && r.windSpeedMS.None?
    ensures r.maxTempC.Some? <==> Given(w.maxTempC)
    ensures r.minTempC.Some? <==> Given(w.minTempC)
    ensures r.maxTempC.Some? ==> r.maxTempC.value == w.maxTempC.value + 2.0
    ensures r.minTempC.Some? ==> r.minTempC.value == w.minTempC.value + 1.0
  {
    Weather(w.date,
            if Given(w.maxTempC) then Some(w.maxTempC.value + 2.0) else None,
            if Given(w.minTempC) then Some(w.minTempC.value + 1.0) else None,
            w.precipitationMm, None, None, None, w.stationId)
  }

  /** Under a scenario, a reading that was present and not zero comes back
      warmer: the maximum by 2 degrees, the minimum by 1. */
  lemma AdjustedWarmer(w: Weather)
    ensures Given(w.maxTempC) ==> Adjusted(w).maxTempC.value > w.maxTempC.value
    ensures Given(w.minTempC) ==> Adjusted(w).minTempC.value > w.minTempC.value
  {
  }

  class ClimateManager {
    var historicalWeather: map<string, seq<Weather>>
    var climateScenarios: map<string, Scenario>
    var cmip6Models: seq<ModelData>

    /** Every scenario is filed under its own identifier, and every model
        refers to a registered scenario. */
    ghost predicate Valid()
      reads this
    {
      && (forall k :: k in climateScenarios ==> climateScenarios[k].scenarioId == k)
      && (forall t :: 0 <= t < |cmip6Models| ==>
            var s := cmip6Models[t].scenario;
            s.scenarioId in climateScenarios && climateScenarios[s.scenarioId] == s)
    }

    /** The loaders behind both paths only announce themselves, so the
        manager starts empty whatever is passed. */
    constructor (historicalWeatherDataPath: Option<string>, climateScenarioDataPath: Option<string>)
      ensures Valid()
      ensures historicalWeather == map[] && climateScenarios == map[] && cmip6Models == []
    {
      historicalWeather := map[];
      climateScenarios := map[];
      cmip6Models := [];
    }

    /** The records kept for a location (none when it is unknown). */
    function RecordsAt(locationId: string): (ws: seq<Weather>)
      reads this
      ensures locationId !in historicalWeather ==> ws == []
      ensures locationId in historicalWeather ==> ws == historicalWeather[locationId]
    {
      if locationId in historicalWeather then historicalWeather[locationId] else []
    }

    /** `add_cmip6_model_data`: registers the scenario under its identifier
        when absent (an existing one is kept as it is) and appends one model
        for it. */
    method AddCmip6ModelData(modelName: string, scenarioId: string, dataPath: string)
      requires Valid()
      modifies this
      ensures Valid()
      ensures scenarioId in climateScenarios
      ensures scenarioId in old(climateScenarios) ==> climateScenarios == old(climateScenarios)
      ensures scenarioId !in old(climateScenarios) ==>
                climateScenarios == old(climateScenarios)[scenarioId := Scenario(scenarioId, scenarioId, Some(AutoDescription), map[])]
      ensures cmip6Models == old(cmip6Models) + [ModelData(modelName, climateScenarios[scenarioId], dataPath)]
      ensures historicalWeather == old(historicalWeather)
    {
      if scenarioId !in climateScenarios {
        climateScenarios := climateScenarios[scenarioId := Scenario(scenarioId, scenarioId, Some(AutoDescription), map[])];
      }
      var scenario := climateScenarios[scenarioId];
      cmip6Models := cmip6Models + [ModelData(modelName, scenario, dataPath)];
    }

    /** `get_weather_for_date`. With no scenario (absent or empty), the
        first record of the location on that date; under a registered
        scenario, that record adjusted; under an unknown scenario, nothing. */
    function WeatherForDate(locationId: string, targetDate: Date, scenarioId: Option<string>): (r: Option<Weather>)
      reads this
      ensures Named(scenarioId) && scenarioId.value !in climateScenarios ==> r.None?
      ensures r.Some? ==> r.value.date == targetDate
      ensures r.Some? ==>
                exists i :: FirstOn(RecordsAt(locationId), targetDate, i) &&
                            r.value == if Named(scenarioId) then Adjusted(RecordsAt(locationId)[i]) else RecordsAt(locationId)[i]
      ensures r.None? && !(Named(scenarioId) && scenarioId.value !in climateScenarios) ==>
                forall j :: 0 <= j < |RecordsAt(locationId)| ==> RecordsAt(locationId)[j].date != targetDate
    {
      var ws := RecordsAt(locationId);
      if Named(scenarioId) then
        if scenarioId.value !in climateScenarios then None
        else
          var w := FirstOnDate(ws, targetDate);
          if w.Some? then Some(Adjusted(w.value)) else None
      else
        FirstOnDate(ws, targetDate)
    }

    /** `get_projected_weather_series`: the series is not generated yet, so
        it is always empty. */
    function ProjectedWeatherSeries(locationId: string, startDate: Date, endDate: Date, scenarioId: string): (r: seq<Weather>)
      ensures |r| == 0
    {
      []
    }
  }

  /** A scenario lookup and a plain lookup find the same day: under a
      registered scenario the result is the plain result adjusted. */
  lemma ScenarioAdjustsHistorical(m: ClimateManager, locationId: string, d: Date, scenarioId: string)
    requires scenarioId != "" && scenarioId in m.climateScenarios
    ensures var plain := m.WeatherForDate(locationId, d, None);
            var under := m.WeatherForDate(locationId, d, Some(scenarioId));
            (under.Some? <==> plain.Some?) && (plain.Some? ==> under.value == Adjusted(plain.value))
  {
  }

  /** Registering models never forgets a scenario and never changes one
      already registered. */
  lemma AddKeepsScenarios(before: map<string, Scenario>, after: map<string, Scenario>, scenarioId: string)
    requires scenarioId in before ==> after == before
    requires scenarioId !in before ==> after == before[scenarioId := Scenario(scenarioId, scenarioId, Some(AutoDescription), map[])]
    ensures forall k :: k in before ==> k in after && after[k] == before[k]
    ensures after.Keys == before.Keys + {scenarioId}
  {
  }
}
