# Rice farming agent simulation for Bangladesh: the seasonal farm loop

This project is a Dafny model of the core of an agent-based simulation of
rice farming households in Bangladesh.

A simulation engine builds farmer agents and their farm plots from validated
input records, then steps every farmer once per simulation step up to a
configured step limit, and finally sums the farmers' capital.

In each step a farmer does three things:

- picks the season from the step number (Aus, Aman, Boro);
- chooses a rice variety for every empty plot and plants it if the farmer
  can pay the input costs for the whole plot;
- harvests and sells every crop that has reached the maturity stage.

Around this loop the model also covers:

- the fixed variety catalog and the crop's additive stress accumulation;
- the plot's soil clamps and its plant/harvest life cycle;
- the deep merge of configuration dictionaries;
- the field bounds of the input records;
- the climate registry's weather lookups.

Modules, one per source file:

- `Crops` (crops.dfy)
- `FarmPlots` (farm_plot.dfy)
- `Decisions` (decisions.dfy): the farmer's decision and harvest passes as
  pure functions of the farmer's state.
- `Agents` (farmer_agent.dfy): the imperative `FarmerAgent` class, whose
  loops are proved to compute exactly those functions.
- `Engine` (engine.dfy)
- `Config` (config.dfy)
- `Schemas` (schemas.dfy)
- `Climate` (climate_manager.dfy)

Shared helpers:

- `Options` (options.dfy)
- `Snapshots` (snapshots.dfy): the climate and market dictionaries handed to
  agents.

Classes with mutable fields follow the source's objects:

- `Crop`
- `SoilProperties`
- `FarmPlot`
- `FarmerAgent`
- `SimulationEngine`
- `ClimateManager`

Values that never change are datatypes. A plot's crop is held as a value
(`CropRec`), because nothing keeps a reference to a crop after it leaves its
plot.

What the engine and the farmer do is proved in these terms:

- The agent's `Step` is `FarmerStep` of the farmer's state.
- The engine's `run_step` is `StepAll` over every farmer.
- `run_simulation` yields `Run` of the initial states over the per-step
  conditions.
- The collected total is `TotalCapital` of the final states.

Lemmas then prove what those functions mean:

- Planting happens only on empty plots, with a variety of the season, paid
  for in full from capital that covers it.
- A harvest records exactly the ripe crops and adds their revenue.
- Capital that starts non-negative never goes negative.
- In the engine as written, no crop ever ripens, so no farmer ever harvests
  and capital never rises while plot sizes are not negative.

Behaviour of the source that the model keeps as written:

- **Harvest is unreachable.** A crop is harvested only at growth stage
  `"maturity_reached_placeholder"`
  (rice_climate_simulator_bangladesh/agents/farmer_agent.py:124). Nothing
  ever sets a growth stage.
  - `Engine.SimulationEngine.BuiltRunsDormant` proves that an engine built
    from input records never harvests, whatever the conditions of each step.
  - `Engine.SimulationEngine.ValidBuiltNeverInDebt` adds that, from
    validated records, no farmer goes into debt or gains capital.
  - `Decisions.HarvestAllEffect` states the harvest path for a ripe crop all
    the same.
- **The agent finds no salinity outlook.** The agent looks up the outlook
  under the plot's identifier, and weather and hydrology under the keys
  `weather` and `hydrology`. The engine supplies `general`,
  `weather_for_plots` and `hydrology_for_plots` instead.
  - `Engine.PlaceholderOutlook` proves that the outlook is 0 and that the
    salinity branch of the variety choice is never taken.
  - The snapshots stay parameters, so every branch of the choice is still
    proved.
- **Capital is debited whatever planting reports.** The source does not look
  at `plant_crop`'s result. `Decisions.PlantNeverRefused` shows that planting
  cannot fail there, because the selected variety always has the step's
  season.
- **The market's `"default"` entry is not a fallback.** It is just a
  variety named "default". An unlisted variety is priced at the agent's own
  30000 (`Engine.EnginePrices`).
- **A fractional step limit rounds up.** The step limit is compared with `>=`
  as Python does. `Engine.MaxStepsOf` turns the configured value into the
  integer limit that stops the run at exactly the same step.

Inputs that stand for randomness and identifier generation:

- Per-step random draws are a parameter: `draws[k]` holds step k's
  precipitation and salinity-change draws.
- Generated identifiers are a parameter: `uuids[i]` is the identifier for
  farmer i when its record has an empty one.

## Model

| member | source | states |
|---|---|---|
| Crops.CatalogKeysAreIds | rice_climate_simulator_bangladesh/agriculture/crops.py:45-67 | every catalog key equals its variety's identifier, and no key repeats |
| Crops.CatalogAttributes | rice_climate_simulator_bangladesh/agriculture/crops.py:23-67 | brri_dhan47 is the only salt-tolerant variety and tolerates 8 dS/m; every variety costs the default 20000 BDT/ha and yields at least 3.5 t/ha |
| Crops.CatalogSeasons | rice_climate_simulator_bangladesh/agriculture/crops.py:45-67 | the catalog lists three Boro varieties, then two Aman ones, and none for Aus |
| Crops.Accumulate | rice_climate_simulator_bangladesh/agriculture/crops.py:88 | the stress of the given kind rises by the level (from 0 when absent); other kinds keep their levels; an existing kind keeps its place, a new one is appended; kinds stay distinct |
| Crops.AccumulateTotal | rice_climate_simulator_bangladesh/agriculture/crops.py:88 | accumulating a level raises the total stress by exactly that level |
| Crops.Crop.constructor | rice_climate_simulator_bangladesh/agriculture/crops.py:71-79 | a new crop has the given variety, dates and yield, no growth stage, health 1.0 and no stress |
| Crops.Crop.ApplyStress | rice_climate_simulator_bangladesh/agriculture/crops.py:86-90 | the kind's level rises by the level, every other kind is unchanged, the total rises by the level; only the stress map changes, so health and stage stay |
| FarmPlots.ClampedSalinity | rice_climate_simulator_bangladesh/agriculture/farm_plot.py:25-27 | the new salinity is old plus change when that is not negative, otherwise 0; never negative |
| FarmPlots.ClampedMoisture | rice_climate_simulator_bangladesh/agriculture/farm_plot.py:29-32 | the new moisture is old plus rain plus irrigation minus evapotranspiration, capped at capacity and floored at 0; it lies in [0, capacity] when capacity is not negative |
| FarmPlots.ClampMonotone | rice_climate_simulator_bangladesh/agriculture/farm_plot.py:25-32 | a larger salinity change never gives a lower salinity, and more rain or irrigation never gives less moisture, clamping included |
| FarmPlots.SoilProperties.constructor | rice_climate_simulator_bangladesh/agriculture/farm_plot.py:9-23 | the given soil values, the initial salinity equal to the salinity, capacity 150 mm and moisture 100 mm |
| FarmPlots.SoilProperties.UpdateSalinity | rice_climate_simulator_bangladesh/agriculture/farm_plot.py:25-27 | salinity becomes max(0, old + change) and is never negative; nothing else changes |
| FarmPlots.SoilProperties.UpdateSoilMoisture | rice_climate_simulator_bangladesh/agriculture/farm_plot.py:29-32 | moisture becomes the clamped balance and lies in [0, capacity]; nothing else changes |
| FarmPlots.FarmPlot.constructor | rice_climate_simulator_bangladesh/agriculture/farm_plot.py:39-54 | the given identifier, owner, size and land quality; the given soil or a fresh default one; no crop, empty history, not irrigated, reliability 1.0 |
| FarmPlots.FarmPlot.PlantCrop | rice_climate_simulator_bangladesh/agriculture/farm_plot.py:56-66 | succeeds exactly when the plot is empty and the variety has the season; on success installs a fresh crop of that variety and date; on failure the crop is unchanged; soil and history never change |
| FarmPlots.FarmPlot.HarvestCrop | rice_climate_simulator_bangladesh/agriculture/farm_plot.py:68-87 | with no crop returns nothing and changes nothing; otherwise returns the crop with harvest date and yield set, appends exactly one history entry (variety, season, dates, yield, stress), and empties the plot |
| FarmPlots.FarmPlot.ApplyIrrigation | rice_climate_simulator_bangladesh/agriculture/farm_plot.py:89-96 | moisture takes the irrigation (clamped) only when the plot is irrigated and has a crop; otherwise it is unchanged |
| FarmPlots.FarmPlot.UpdatePlotConditions | rice_climate_simulator_bangladesh/agriculture/farm_plot.py:98-114 | the plot's state is unchanged |
| Decisions.SeasonForStep | rice_climate_simulator_bangladesh/agents/farmer_agent.py:78-83 | Aus exactly when step mod 3 is 0, Aman exactly when it is 1, Boro exactly when it is 2 |
| Decisions.SeasonRotation | rice_climate_simulator_bangladesh/agents/farmer_agent.py:78-83 | seasons follow Aus, Aman, Boro from one step to the next and repeat every three steps |
| Decisions.CandidatesMembers | rice_climate_simulator_bangladesh/agents/farmer_agent.py:57-67 | a variety is a candidate exactly when it is in the list, has the season and passes the tier's test (salt-tolerant enough, or high-yielding and affordable) |
| Decisions.CandidatesAppend | rice_climate_simulator_bangladesh/agents/farmer_agent.py:57-67 | the comprehension keeps list order: the candidates of two lists joined are the candidates of each, in the same order |
| Decisions.CandidatesSnoc | rice_climate_simulator_bangladesh/agents/farmer_agent.py:57-67 | a variety added at the end of the catalog becomes the last candidate exactly when it is eligible, and the earlier candidates stay as they were |
| Decisions.MaxYield | rice_climate_simulator_bangladesh/agents/farmer_agent.py:65-72 | the result has maximal potential yield and every variety before it yields strictly less (ties go to the first) |
| Decisions.SelectRiceVariety | rice_climate_simulator_bangladesh/agents/farmer_agent.py:52-74 | none exactly when the catalog has no variety of the season; a result is a catalog variety of the season; above salinity 4 with a tolerant candidate it is the first best such; otherwise the first best affordable HYV if any; otherwise the first best of the season |
| Decisions.CatalogSelection | rice_climate_simulator_bangladesh/agents/farmer_agent.py:57-59 | with the crop catalog, no variety is selected exactly in Aus steps |
| Decisions.YieldFactor | rice_climate_simulator_bangladesh/agents/farmer_agent.py:125-126 | the factor is 1 minus the total stress, or 0 when that is negative |
| Decisions.PlantNeverRefused | rice_climate_simulator_bangladesh/agents/farmer_agent.py:91-97 | planting the selected variety on an empty plot always succeeds |
| Decisions.DecideOneEffect | rice_climate_simulator_bangladesh/agents/farmer_agent.py:87-104 | a plot is either unchanged, or was empty and now holds a fresh crop of a catalog variety of the season; capital falls by exactly the input cost of what was planted and stays non-negative |
| Decisions.DecideOnePlants | rice_climate_simulator_bangladesh/agents/farmer_agent.py:93-97 | an empty plot whose selection is affordable is planted and capital falls by cost per hectare times size |
| Decisions.DecideOneKeeps | rice_climate_simulator_bangladesh/agents/farmer_agent.py:87-104 | an occupied plot, no selection, or an unaffordable one leaves plot and capital unchanged |
| Decisions.DecideAllEffect | rice_climate_simulator_bangladesh/agents/farmer_agent.py:87-104 | over all plots: each is unchanged or freshly planted with a variety of the season; capital falls by exactly the input costs paid; non-negative capital stays non-negative |
| Decisions.HarvestOneEffect | rice_climate_simulator_bangladesh/agents/farmer_agent.py:123-133 | a ripe crop is cleared and recorded with the realised yield and capital rises by yield times size times price (30000 when unlisted); any other plot is unchanged |
| Decisions.HarvestAllEffect | rice_climate_simulator_bangladesh/agents/farmer_agent.py:122-133 | over all plots: exactly the ripe crops are cleared and recorded, the others are unchanged, and capital rises by the revenue of the ripe crops |
| Decisions.DecisionKeepsRipeness | rice_climate_simulator_bangladesh/agents/farmer_agent.py:120-124 | the decision pass changes no plot's ripeness, so a step sells what was ripe when it began |
| Decisions.NothingToHarvest | rice_climate_simulator_bangladesh/agents/farmer_agent.py:112-133 | with no ripe crop a step sells nothing: histories are unchanged, nothing is ripe, and capital falls by the input costs paid |
| Decisions.NoRevenue | rice_climate_simulator_bangladesh/agents/farmer_agent.py:122-133 | plots without ripe crops earn nothing |
| Decisions.RevenueNonnegative | rice_climate_simulator_bangladesh/agents/farmer_agent.py:125-132 | with non-negative sizes, yields and prices the revenue is not negative |
| Decisions.StepKeepsCapitalNonnegative | rice_climate_simulator_bangladesh/agents/farmer_agent.py:112-133 | a farmer step never takes non-negative capital below zero |
| Agents.IdOrElse | rice_climate_simulator_bangladesh/agents/base_agent.py:8-9 | an absent or empty identifier is replaced by the fallback, any other is kept |
| Agents.FarmerAgent.constructor | rice_climate_simulator_bangladesh/agents/farmer_agent.py:15-43 | the identifier or a generated one, the household identifier or "HH_" plus the agent's, the given attributes and capital, no plots, empty expectations, zero debt, subsidy and off-farm income |
| Agents.FarmerAgent.AddFarmPlot | rice_climate_simulator_bangladesh/agents/farmer_agent.py:45-50 | the plot is appended once and now records this farmer as owner; the other plots are unchanged |
| Agents.FarmerAgent.MakeCultivationDecisions | rice_climate_simulator_bangladesh/agents/farmer_agent.py:76-104 | the capital and plots become exactly those of the decision pass over the old plots |
| Agents.FarmerAgent.DecideOnPlot | rice_climate_simulator_bangladesh/agents/farmer_agent.py:87-104 | capital and plot become exactly those of the decision on that one plot |
| Agents.FarmerAgent.Step | rice_climate_simulator_bangladesh/agents/farmer_agent.py:112-144 | the farmer's state becomes `FarmerStep` of the old state: the decision pass, then the harvest pass |
| Agents.FarmerAgent.HarvestAndSell | rice_climate_simulator_bangladesh/agents/farmer_agent.py:122-134 | the capital and plots become exactly those of the harvest pass over the old plots |
| Agents.FarmerAgent.HarvestPlot | rice_climate_simulator_bangladesh/agents/farmer_agent.py:123-134 | capital and plot become exactly those of the harvest of that one plot |
| Engine.MaxStepsOf | rice_climate_simulator_bangladesh/simulation_core/engine.py:21 | the limit is 10 when none is configured, and a step reaches it exactly when Python's `step >= limit` holds for the configured value |
| Engine.StepClimateShape | rice_climate_simulator_bangladesh/simulation_core/engine.py:135-139 | the step's climate has the fixed general readings and, for every plot, one precipitation in [0, 10] and one salinity change in [-0.1, 0.1] |
| Engine.EnginePrices | rice_climate_simulator_bangladesh/simulation_core/engine.py:143-145 | brri_dhan28 sells at 32000 and swarna at 28000; any other variety at 30000 |
| Engine.PlaceholderOutlook | rice_climate_simulator_bangladesh/simulation_core/engine.py:135-139 | under the engine's climate an agent reads a salinity outlook of 0 (1.2 only for a plot named "general"), no weather and no hydrology, so the salinity branch is never taken |
| Engine.AgentIds | rice_climate_simulator_bangladesh/simulation_core/engine.py:69-83 | one identifier per farmer record, the record's own when it is not empty |
| Engine.AssignedOwned | rice_climate_simulator_bangladesh/simulation_core/engine.py:109-115 | every plot a farmer receives records that farmer as owner, holds no crop and has no history |
| Engine.AssignedSizesPositive | rice_climate_simulator_bangladesh/simulation_core/engine.py:88-115 | from plot records of positive size, every plot handed to a farmer has positive size |
| Engine.AssignedExactlyOnce | rice_climate_simulator_bangladesh/simulation_core/engine.py:109-115 | with at least one farmer, each plot goes to exactly one farmer (its recorded owner if that is a farmer, else the first farmer), which becomes its owner |
| Engine.NoFarmersNoAssignment | rice_climate_simulator_bangladesh/simulation_core/engine.py:111-115 | with no farmers no one receives a plot and owners stay as recorded |
| Engine.PlotsMapKeys | rice_climate_simulator_bangladesh/simulation_core/engine.py:108 | the plot map's keys are exactly the records' plot identifiers |
| Engine.PlotsMapLast | rice_climate_simulator_bangladesh/simulation_core/engine.py:108 | under each identifier the map holds the plot built from the last record with it |
| Engine.EngineInputAt | rice_climate_simulator_bangladesh/simulation_core/engine.py:135-149 | step k runs with index k, the climate of its own draws and the fixed market |
| Engine.TotalCapitalNonnegative | rice_climate_simulator_bangladesh/simulation_core/engine.py:175 | the total of non-negative capitals is not negative |
| Engine.TotalCapitalMonotone | rice_climate_simulator_bangladesh/simulation_core/engine.py:175 | if no farmer's capital rises, the total does not rise |
| Engine.CatalogCostsNonnegative | rice_climate_simulator_bangladesh/agriculture/crops.py:45-67 | no catalog variety has negative input costs |
| Engine.PlantedCostNonnegative | rice_climate_simulator_bangladesh/agents/farmer_agent.py:94-97 | planting from such a catalog on plots of non-negative size never earns money |
| Engine.StepDormant | rice_climate_simulator_bangladesh/agents/farmer_agent.py:112-133 | a farmer step with no ripe crop keeps histories and sizes, ripens nothing, keeps non-negative capital non-negative, and does not raise capital when plot sizes are not negative |
| Engine.StepAllDormant | rice_climate_simulator_bangladesh/simulation_core/engine.py:148-149 | an engine step in which no farmer has a ripe crop is dormant for every farmer |
| Engine.RunDormant | rice_climate_simulator_bangladesh/simulation_core/engine.py:160-167 | from states with no ripe crop, any number of steps under any conditions harvests nothing, keeps histories and sizes, keeps non-negative capital non-negative, and never raises capital when plot sizes are not negative |
| Engine.CreateFarmers | rice_climate_simulator_bangladesh/simulation_core/engine.py:69-83 | one new, distinct farmer per record, in order, with the record's attributes and capital and no plots |
| Engine.BuildPlot | rice_climate_simulator_bangladesh/simulation_core/engine.py:91-106 | a new plot with the record's identifier, owner, size, land quality, soil values and irrigation, no crop and no history |
| Engine.FilePlot | rice_climate_simulator_bangladesh/simulation_core/engine.py:88-115 | the plot is filed under its identifier and appended to the list of exactly the farmer it is assigned to, with its owner rewritten to the first farmer when the recorded one is unknown |
| Engine.CreatePlots | rice_climate_simulator_bangladesh/simulation_core/engine.py:86-115 | every farmer's list holds, in input order, exactly the distinct plots assigned to it, and the map holds the last plot built under each identifier |
| Engine.AttachPlots | rice_climate_simulator_bangladesh/simulation_core/engine.py:117-118 | every farmer holds exactly the plots assigned to its identifier |
| Engine.CreateAgentsAndPlots | rice_climate_simulator_bangladesh/simulation_core/engine.py:63-122 | one farmer per record, in order, each holding exactly its assigned plots, and the map of all plots |
| Engine.CreateFromData | rice_climate_simulator_bangladesh/simulation_core/engine.py:60-66 | without data no farmers and no plots; with data what construction builds from it |
| Engine.SimulationEngine.constructor | rice_climate_simulator_bangladesh/simulation_core/engine.py:18-31 | the given or empty configuration, step 0, the configured limit, and the farmers and plots built from the data |
| Engine.SimulationEngine.BuiltRunsDormant | rice_climate_simulator_bangladesh/simulation_core/engine.py:160-167 | a freshly built engine, run for any number of steps under any conditions, never harvests, keeps every history, and never raises the capital of a farmer whose plot sizes are not negative |
| Engine.SimulationEngine.BuiltFromValidInput | rice_climate_simulator_bangladesh/simulation_core/engine.py:69-118 | an engine built from validated records starts every farmer with non-negative capital and plots of positive size |
| Engine.SimulationEngine.ValidBuiltNeverInDebt | rice_climate_simulator_bangladesh/simulation_core/engine.py:160-167 | an engine built from validated records, run for any number of steps under any conditions, harvests nothing, keeps each farmer's capital between 0 and its initial value, and keeps the total capital between 0 and its initial total |
| Engine.SimulationEngine.StepAgent | rice_climate_simulator_bangladesh/simulation_core/engine.py:148-149 | the chosen farmer takes one farmer step and every other farmer is untouched |
| Engine.SimulationEngine.StepAgents | rice_climate_simulator_bangladesh/simulation_core/engine.py:148-149 | every farmer takes exactly one farmer step on the same conditions |
| Engine.SimulationEngine.RunStep | rice_climate_simulator_bangladesh/simulation_core/engine.py:124-158 | at or past the limit returns false and changes nothing; otherwise every farmer steps once under the step's conditions, the step count rises by exactly 1, and it returns true |
| Engine.SimulationEngine.Advance | rice_climate_simulator_bangladesh/simulation_core/engine.py:166-167 | one loop iteration keeps the farmers' states equal to the run so far |
| Engine.SimulationEngine.RunSteps | rice_climate_simulator_bangladesh/simulation_core/engine.py:166-167 | the loop ends with the step count at max(0, limit) and the states of that many steps |
| Engine.SimulationEngine.RunSimulation | rice_climate_simulator_bangladesh/simulation_core/engine.py:160-170 | resets the count, ends at max(0, limit) steps with the farmers in the states of that many engine steps, and returns their total capital |
| Engine.SimulationEngine.CollectResults | rice_climate_simulator_bangladesh/simulation_core/engine.py:172-175 | the total is the sum of every farmer's capital |
| Engine.Create | rice_climate_simulator_bangladesh/simulation_core/engine.py:43-58 | no engine exactly when the configuration switches synthetic data off; otherwise a new engine at step 0 built from the data |
| Config.GetDefaultConfig | rice_climate_simulator_bangladesh/simulation_core/config.py:39-41 | the default keys, 100 steps, seed 42, synthetic data on, 200 farmers |
| Config.MergeKeys | rice_climate_simulator_bangladesh/simulation_core/config.py:70-76 | the merged keys are the keys of either side |
| Config.MergeKeepsBaseOnly | rice_climate_simulator_bangladesh/simulation_core/config.py:70 | a key only the base has keeps the base's value |
| Config.MergeOverrideWins | rice_climate_simulator_bangladesh/simulation_core/config.py:74-75 | an override key whose value or base value is not a dictionary takes the override's value |
| Config.MergeNested | rice_climate_simulator_bangladesh/simulation_core/config.py:72-73 | two dictionaries under one key are merged recursively |
| Config.MergeEmptyOverride | rice_climate_simulator_bangladesh/simulation_core/config.py:70-76 | merging an empty override gives back the base |
| Config.MergeOntoEmpty | rice_climate_simulator_bangladesh/simulation_core/config.py:70-76 | merging onto an empty base gives back the override |
| Config.MergeIdempotent | rice_climate_simulator_bangladesh/simulation_core/config.py:66-76 | merging a configuration with itself changes nothing at any depth |
| Config.MergeOverrideLeaf | rice_climate_simulator_bangladesh/simulation_core/config.py:66-76 | every non-dictionary value of the override is found unchanged at its path in the result |
| Config.MergeKeepsUntouched | rice_climate_simulator_bangladesh/simulation_core/config.py:66-76 | every path the override does not reach keeps its base value |
| Schemas.DefaultPlotValidity | rice_climate_simulator_bangladesh/data_management/schemas.py:24-33 | land quality defaults to 1.0, so a default plot record is valid exactly when its size is positive |
| Schemas.DefaultFarmerValidity | rice_climate_simulator_bangladesh/data_management/schemas.py:35-45 | a farmer record with the default location and plot count expects no plots and is valid exactly when capital is at least 0, age above 0, schooling and experience at least 0 and the risk coefficient in [0, 1] |
| Climate.FirstOnDate | rice_climate_simulator_bangladesh/climate/climate_manager.py:91-95 | none exactly when no record has the date; otherwise the first record with it |
| Climate.Adjusted | rice_climate_simulator_bangladesh/climate/climate_manager.py:80-86 | same date, precipitation and station; maximum +2 and minimum +1, a missing or zero temperature becoming missing; the other readings missing |
| Climate.AdjustedWarmer | rice_climate_simulator_bangladesh/climate/climate_manager.py:82-83 | a present, non-zero temperature comes back warmer |
| Climate.ClimateManager.constructor | rice_climate_simulator_bangladesh/climate/climate_manager.py:11-20 | the registry starts empty whatever paths are passed |
| Climate.ClimateManager.RecordsAt | rice_climate_simulator_bangladesh/climate/climate_manager.py:91 | the location's records, or none for an unknown location |
| Climate.ClimateManager.AddCmip6ModelData | rice_climate_simulator_bangladesh/climate/climate_manager.py:53-63 | the scenario is created only when absent, exactly one model for it is appended, and the weather records are unchanged |
| Climate.ClimateManager.WeatherForDate | rice_climate_simulator_bangladesh/climate/climate_manager.py:65-95 | an unknown scenario gives none; otherwise the first record of the location on the date, adjusted under a scenario; none only when no record has the date |
| Climate.ClimateManager.ProjectedWeatherSeries | rice_climate_simulator_bangladesh/climate/climate_manager.py:97-108 | the series is always empty |
| Climate.ScenarioAdjustsHistorical | rice_climate_simulator_bangladesh/climate/climate_manager.py:68-95 | under a registered scenario the lookup finds a day exactly when the plain lookup does, and returns it adjusted |
| Climate.AddKeepsScenarios | rice_climate_simulator_bangladesh/climate/climate_manager.py:55-58 | registering never forgets or changes a scenario and adds at most the given one |

## Left out

- Printing, timing (`time.time`) and the `random.uniform` draws are left out. The draws are a parameter of the run.
- The `uuid4` identifiers are left out. Generated farmer identifiers are a parameter.
- FarmPlots.FarmPlot.constructor: an empty plot identifier is kept as it is. The source would generate a fresh one, and the engine would then file the plot under that one.
- Agents.FarmerAgent.constructor: does not take the optional initial list of plots. The engine never passes one.
- Agents.FarmerAgent.AddFarmPlot: requires that the farmer does not already hold the plot. The source would append it a second time, which the model's invariant (distinct plots) excludes. The engine does not call it.
- Engine.SimulationEngine.constructor: requires distinct farmer identifiers. With duplicates, the source hands one shared plot list to every farmer with that identifier, and this aliasing is not modelled. The same holds for Engine.CreateAgentsAndPlots, Engine.CreateFromData and Engine.Create.
- Engine.SimulationEngine.constructor: requires a configured step limit that Python can compare with an integer (a number or a boolean). Any other value would raise at the first step.
- The engine's `agents` and `farmer_agents` lists are one sequence. The source always fills both with the same farmers in the same order.
- The engine's `climate_manager` and `simulation_data` fields are left out. The first is never set; the second is read only during construction.
- The synthetic data generator, the data loaders, `load_config_from_json` and the command-line entry point are not part of this model. They are file I/O, randomness and orchestration.
- `CMIP6Data.load_data` and the `ClimateManager.load_*` methods are not part of this model. They only print.
- `Crop.update_growth`, `FarmerAgent._manage_finances` and `FarmerAgent._adapt_strategies` are empty hooks and are not modelled.
- Crops.Crop.ApplyStress: the health status is left as it is, because the source only has a placeholder where health would be updated.
- Plots hold their crop as a value (`CropRec`), so `Crops.Crop.ApplyStress` never changes a crop on a plot, and the yield factor always sees the stress a crop was planted with (none). The source agrees: its only calls of `apply_stress` are commented out (rice_climate_simulator_bangladesh/agriculture/farm_plot.py:111-113).
- The warnings printed when a farmer receives a different number of plots than its record expects are not modelled.
- Money, yields, sizes, salinity and moisture are `real`. Floating-point rounding is not modelled.
- Config.GetDefaultConfig: the copy is shallow in the source, so nested dictionaries are shared with the module default. Configuration values are immutable here, so that sharing is not visible.
- A harvested crop is returned as a value. Any aliasing between the returned crop object and other references to it is not modelled.
- The engine copies a plot record's water holding capacity into the soil without re-clamping the current moisture. The model keeps that: moisture may start above a small capacity.
- The record validation itself (raising on a record out of bounds) is not modelled. `Schemas.ValidInput` states the bounds it enforces, and `Engine.SimulationEngine.ValidBuiltNeverInDebt` assumes them of the records an engine is built from.
