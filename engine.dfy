/**
 * The simulation engine: it builds the farmer agents and their plots from
 * the input records, steps every agent once per simulation step up to a
 * bounded step count, and sums the farmers' capital at the end.
 */
module Engine {
  import opened Options
  import Config
  import opened Schemas
  import opened Crops
  import opened FarmPlots
  import opened Snapshots
  import opened Decisions
  import opened Agents

  // ---------------------------------------------------------------------
  // Configuration
  // ---------------------------------------------------------------------

  const MaxStepsKey := "max_simulation_steps"
  const SyntheticDataKey := "use_synthetic_data"
  const DefaultMaxSteps := 10

  /** Python truthiness of a configuration value. */
  predicate Truthy(v: Config.Value) {
    match v
    case Null => false
    case Bool(b) => b
    case Int(i) => i != 0
    case Real(r) => r != 0.0
    case Str(s) => s != ""
    case List(items) => items != []
    case Dict(entries) => entries != map[]
  }

  /** `config.get(key, default)`. */
  function Get(config: Config.ConfigMap, key: string, default: Config.Value): Config.Value {
    if key in config then config[key] else default
  }

  /** The configured step limit, 10 when none is configured. */
  function LimitValue(config: Config.ConfigMap): Config.Value {
    Get(config, MaxStepsKey, Config.Int(DefaultMaxSteps))
  }

  /** `current_step >= limit` can be evaluated: the limit is a number or a
      boolean (which Python compares as 0 or 1); any other value raises. */
  predicate LimitComparable(config: Config.ConfigMap) {
    var v := LimitValue(config);
    v.Int? || v.Real? || v.Bool?
  }

  /** Python's `step >= limit` for an integer step. */
  predicate AtLimit(step: int, limit: Config.Value)
    requires limit.Int? || limit.Real? || limit.Bool?
  {
    match limit
    case Int(i) => step >= i
    case Real(r) => step as real >= r
    case Bool(b) => step >= (if b then 1 else 0)
  }

  /** The integer step limit that stops the run exactly where the configured
      one does: a fractional limit is rounded up. */
  function MaxStepsOf(config: Config.ConfigMap): (r: int)
    requires LimitComparable(config)
    ensures MaxStepsKey !in config ==> r == DefaultMaxSteps
    ensures forall step: int {:trigger AtLimit(step, LimitValue(config))} ::
              step >= r <==> AtLimit(step, LimitValue(config))
  {
    match LimitValue(config)
    case Int(i) => i
    case Real(x) => -((-x).Floor)
    case Bool(b) => if b then 1 else 0
  }

  /** `_initialize_components` generates synthetic data unless the
      configuration switches that off, in which case it raises. */
  predicate SyntheticDataEnabled(config: Config.ConfigMap) {
    Truthy(Get(config, SyntheticDataKey, Config.Bool(true)))
  }

  // ---------------------------------------------------------------------
  // The conditions the engine hands to its agents
  // ---------------------------------------------------------------------

  /** The fixed market snapshot of every step. */
  const EngineMarket: Snapshot :=
    map[PriceTableKey := Flat(map["brri_dhan28" := 32000.0, "swarna" := 28000.0, "default" := 30000.0])]

  /** The fixed region-wide part of the climate snapshot. */
  const GeneralConditions: Readings :=
    map["avg_temp_c" := 28.0, "total_rainfall_mm" := 150.0, "avg_salinity_ds_m" := 1.2]

  /** A per-plot entry giving every plot of `plotIds` exactly one reading,
      `field`, within [lo, hi]. */
  predicate RangedPerPlot(e: Entry, field: string, lo: real, hi: real, plotIds: set<string>) {
    && e.PerPlot? && e.byPlot.Keys == plotIds
    && forall id :: id in plotIds ==> e.byPlot[id].Keys == {field} && lo <= e.byPlot[id][field] <= hi
  }

  /** The shape of the engine's climate snapshot: fixed general conditions,
      and for every plot a precipitation draw in [0, 10] and a salinity
      change draw in [-0.1, 0.1]. The draws themselves are parameters. */
  predicate PlaceholderClimate(s: Snapshot, plotIds: set<string>) {
    && s.Keys == {"general", "weather_for_plots", "hydrology_for_plots"}
    && s["general"] == Flat(GeneralConditions)
    && RangedPerPlot(s["weather_for_plots"], "precipitation_mm", 0.0, 10.0, plotIds)
    && RangedPerPlot(s["hydrology_for_plots"], "salinity_change", -0.1, 0.1, plotIds)
  }

  /** The random draws of one step: a precipitation and a salinity change per plot. */
  datatype Draws = Draws(precipitation: map<string, real>, salinityChange: map<string, real>)

  /** One draw per plot, each within the range `random.uniform` is given. */
  predicate DrawsFor(d: Draws, plotIds: set<string>) {
    && d.precipitation.Keys == plotIds && d.salinityChange.Keys == plotIds
    && (forall id :: id in plotIds ==> 0.0 <= d.precipitation[id] <= 10.0)
    && (forall id :: id in plotIds ==> -0.1 <= d.salinityChange[id] <= 0.1)
  }

  /** `{plot_id: {field: draw} for plot_id in ...}`. */
  function PerPlotOf(draw: map<string, real>, field: string): Entry {
    PerPlot(map id | id in draw :: map[field := draw[id]])
  }

  /** Draws within [lo, hi] for exactly the plots give a ranged per-plot entry. */
  lemma PerPlotOfRanged(draw: map<string, real>, field: string, lo: real, hi: real, plotIds: set<string>)
    requires draw.Keys == plotIds && forall id :: id in plotIds ==> lo <= draw[id] <= hi
    ensures RangedPerPlot(PerPlotOf(draw, field), field, lo, hi, plotIds)
  {
    var e := PerPlotOf(draw, field);
    forall id | id in plotIds ensures e.byPlot[id].Keys == {field} && lo <= e.byPlot[id][field] <= hi {
      assert e.byPlot[id] == map[field := draw[id]];
    }
  }

  /** The climate snapshot `run_step` builds from the step's draws. */
  function StepClimate(d: Draws): Snapshot {
    map["general" := Flat(GeneralConditions),
        "weather_for_plots" := PerPlotOf(d.precipitation, "precipitation_mm"),
        "hydrology_for_plots" := PerPlotOf(d.salinityChange, "salinity_change")]
  }

  /** Draws for the engine's plots give a snapshot of the engine's shape. */
  lemma StepClimateShape(d: Draws, plotIds: set<string>)
    requires DrawsFor(d, plotIds)
    ensures PlaceholderClimate(StepClimate(d), plotIds)
  {
    StepClimateEntries(d);
    PerPlotOfRanged(d.precipitation, "precipitation_mm", 0.0, 10.0, plotIds);
    PerPlotOfRanged(d.salinityChange, "salinity_change", -0.1, 0.1, plotIds);
  }

  /** The three entries of the step's climate snapshot. */
  lemma StepClimateEntries(d: Draws)
    ensures StepClimate(d).Keys == {"general", "weather_for_plots", "hydrology_for_plots"}
    ensures StepClimate(d)["general"] == Flat(GeneralConditions)
    ensures StepClimate(d)["weather_for_plots"] == PerPlotOf(d.precipitation, "precipitation_mm")
    ensures StepClimate(d)["hydrology_for_plots"] == PerPlotOf(d.salinityChange, "salinity_change")
  {
  }

  /** The engine's market lists two prices and a "default" entry; any other
      variety is priced at the agent's own 30000 fallback. */
  lemma EnginePrices(varietyId: string)
    ensures PriceFor(EngineMarket, "brri_dhan28") == 32000.0
    ensures PriceFor(EngineMarket, "swarna") == 28000.0
    ensures varietyId != "brri_dhan28" && varietyId != "swarna" ==> PriceFor(EngineMarket, varietyId) == 30000.0
  {
  }

  /** Under the engine's climate snapshot an agent finds no salinity outlook
      for its plot (only a plot named "general" reads the region's 1.2), no
      weather and no hydrology entry, so the salinity branch of the variety
      choice is never taken. */
  lemma PlaceholderOutlook(s: Snapshot, plotIds: set<string>, plotId: string, catalog: seq<Variety>,
                           season: Season, budget: real)
    requires PlaceholderClimate(s, plotIds)
    ensures SalinityOutlook(s, plotId) == if plotId == "general" then 1.2 else 0.0
    ensures PlotReadings(s, "weather", plotId) == None && PlotReadings(s, "hydrology", plotId) == None
    ensures !SaltBranch(catalog, season, SalinityOutlook(s, plotId), budget)
  {
    if plotId == "general" {
      assert s[plotId].values == GeneralConditions;
    } else if plotId == "weather_for_plots" || plotId == "hydrology_for_plots" {
      assert s[plotId].PerPlot?;
    } else {
      assert plotId !in s;
    }
  }

  // ---------------------------------------------------------------------
  // What construction builds, as values
  // ---------------------------------------------------------------------

  /** The identifiers the agents receive: the record's, or a generated one
      when the record's is empty. */
  function AgentIds(farmers: seq<FarmerRecord>, uuids: seq<string>): (r: seq<string>)
    ensures |r| == |farmers|
    ensures forall i :: 0 <= i < |farmers| && farmers[i].agentId != "" ==> r[i] == farmers[i].agentId
  {
    seq(|farmers|, i requires 0 <= i < |farmers| =>
      IdOrElse(Some(farmers[i].agentId), if i < |uuids| then uuids[i] else ""))
  }

  predicate DistinctIds(ids: seq<string>) {
    forall i, j :: 0 <= i < j < |ids| ==> ids[i] != ids[j]
  }

  /** The plot record names the identifier of one of the farmers. */
  predicate Known(r: PlotRecord, ids: seq<string>) {
    r.ownerAgentId.Some? && r.ownerAgentId.value in ids
  }

  /** The plot goes to farmer `id`: to its recorded owner when that is a
      farmer, otherwise to the first farmer. */
  predicate AssignedWhere(r: PlotRecord, ids: seq<string>, id: string) {
    if Known(r, ids) then r.ownerAgentId.value == id else ids != [] && ids[0] == id
  }

  /** The owner a plot ends up with: rewritten to the first farmer only when
      the recorded one is unknown and there is a farmer. */
  function FinalOwner(r: PlotRecord, ids: seq<string>): Option<string> {
    if Known(r, ids) || ids == [] then r.ownerAgentId else Some(ids[0])
  }

  /** A freshly built plot: no crop, no history, the record's size, land
      quality and irrigation, and its final owner. */
  function PlotState(r: PlotRecord, ids: seq<string>): PlotRec {
    PlotRec(r.plotId, FinalOwner(r, ids), r.sizeHa, r.initialLandQuality, None, [],
            r.isIrrigated, r.irrigationType, 1.0)
  }

  /** The plots farmer `id` receives, in input order. */
  function AssignedTo(rs: seq<PlotRecord>, ids: seq<string>, id: string): seq<PlotRec>
    decreases |rs|
  {
    if rs == [] then []
    else
      var last := rs[|rs| - 1];
      AssignedTo(rs[..|rs| - 1], ids, id) + (if AssignedWhere(last, ids, id) then [PlotState(last, ids)] else [])
  }

  /** A built plot together with the soil values copied from its record. */
  datatype BuiltPlot = BuiltPlot(plot: PlotRec, soil: SoilRecord)

  /** The plot map: every record under its identifier, a later record
      replacing an earlier one with the same identifier. */
  function PlotsMapSpec(rs: seq<PlotRecord>, ids: seq<string>): map<string, BuiltPlot>
    decreases |rs|
  {
    if rs == [] then map[]
    else
      var last := rs[|rs| - 1];
      PlotsMapSpec(rs[..|rs| - 1], ids)[last.plotId := BuiltPlot(PlotState(last, ids), last.soilProperties)]
  }

  /** Every plot a farmer receives is recorded under that farmer, starts
      empty and has no history. */
  lemma {:induction false} AssignedOwned(rs: seq<PlotRecord>, ids: seq<string>, id: string)
    requires id in ids
    ensures forall t :: 0 <= t < |AssignedTo(rs, ids, id)| ==>
              var p := AssignedTo(rs, ids, id)[t];
              p.ownerAgentId == Some(id) && p.crop.None? && p.history == []
  {
    if rs != [] {
      AssignedOwned(rs[..|rs| - 1], ids, id);
    }
  }

  /** When there is at least one farmer, each plot goes to exactly one of
      them, and the owner it ends up with is that farmer. */
  lemma AssignedExactlyOnce(r: PlotRecord, ids: seq<string>)
    requires ids != [] && DistinctIds(ids)
    ensures exists i :: 0 <= i < |ids| && AssignedWhere(r, ids, ids[i]) && FinalOwner(r, ids) == Some(ids[i]) &&
                     forall j :: 0 <= j < |ids| && j != i ==> !AssignedWhere(r, ids, ids[j])
  {
    if Known(r, ids) {
      var i :| 0 <= i < |ids| && ids[i] == r.ownerAgentId.value;
      assert AssignedWhere(r, ids, ids[i]);
    } else {
      assert AssignedWhere(r, ids, ids[0]);
    }
  }

  /** Validated plot records hand every farmer plots of positive size. */
  lemma {:induction false} AssignedSizesPositive(rs: seq<PlotRecord>, ids: seq<string>, id: string)
    requires forall k :: 0 <= k < |rs| ==> ValidPlotRecord(rs[k])
    ensures forall t :: 0 <= t < |AssignedTo(rs, ids, id)| ==> AssignedTo(rs, ids, id)[t].sizeHa > 0.0
  {
    if rs != [] {
      AssignedSizesPositive(rs[..|rs| - 1], ids, id);
    }
  }

  /** With no farmers nobody receives a plot, and owners stay as recorded. */
  lemma {:induction false} NoFarmersNoAssignment(rs: seq<PlotRecord>, id: string)
    ensures AssignedTo(rs, [], id) == []
    ensures forall k :: 0 <= k < |rs| ==> PlotState(rs[k], []).ownerAgentId == rs[k].ownerAgentId
  {
    if rs != [] {
      NoFarmersNoAssignment(rs[..|rs| - 1], id);
    }
  }

  /** The plot map holds exactly the identifiers of the records. */
  lemma {:induction false} PlotsMapKeys(rs: seq<PlotRecord>, ids: seq<string>)
    ensures PlotsMapSpec(rs, ids).Keys == set k | 0 <= k < |rs| :: rs[k].plotId
  {
    if rs != [] {
      var init := rs[..|rs| - 1];
      PlotsMapKeys(init, ids);
      var last := rs[|rs| - 1];
      forall k | 0 <= k < |rs|
        ensures rs[k].plotId in (set k' | 0 <= k' < |init| :: init[k'].plotId) + {last.plotId}
      {
        if k < |init| {
          assert init[k] == rs[k];
        }
      }
      forall k | 0 <= k < |init| ensures init[k].plotId in set k' | 0 <= k' < |rs| :: rs[k'].plotId {
        assert rs[k] == init[k];
      }
      assert last.plotId in set k' | 0 <= k' < |rs| :: rs[k'].plotId;
    }
  }

  /** Under each identifier the map holds the plot built from the last record with it. */
  lemma {:induction false} PlotsMapLast(rs: seq<PlotRecord>, ids: seq<string>, k: nat)
    requires k < |rs|
    requires forall k' :: k < k' < |rs| ==> rs[k'].plotId != rs[k].plotId
    ensures rs[k].plotId in PlotsMapSpec(rs, ids)
    ensures PlotsMapSpec(rs, ids)[rs[k].plotId] == BuiltPlot(PlotState(rs[k], ids), rs[k].soilProperties)
  {
    if k < |rs| - 1 {
      PlotsMapLast(rs[..|rs| - 1], ids, k);
    }
  }

  // ---------------------------------------------------------------------
  // What running does, as values
  // ---------------------------------------------------------------------

  /** One engine step: every farmer takes one step, in registration order,
      on the same conditions. */
  function StepAll(catalog: seq<Variety>, ss: seq<FarmerState>, input: StepInput): (r: seq<FarmerState>)
    ensures |r| == |ss|
  {
    seq(|ss|, i requires 0 <= i < |ss| => FarmerStep(catalog, ss[i], input))
  }

  /** The conditions of each step of a run: step k under the climate built
      from `draws[k]` and the fixed market. */
  function EngineInputs(draws: seq<Draws>): (r: seq<StepInput>)
    ensures |r| == |draws|
    decreases |draws|
  {
    if draws == [] then []
    else
      var k := |draws| - 1;
      EngineInputs(draws[..k]) + [StepInput(k, StepClimate(draws[k]), EngineMarket)]
  }

  /** Step k runs on its own number, the climate built from its own draws
      and the fixed market. */
  lemma {:induction false} EngineInputAt(draws: seq<Draws>, k: nat)
    requires k < |draws|
    ensures EngineInputs(draws)[k] == StepInput(k, StepClimate(draws[k]), EngineMarket)
    decreases |draws|
  {
    if k < |draws| - 1 {
      EngineInputAt(draws[..|draws| - 1], k);
    }
  }

  /** The farmers' states after steps 0 .. n - 1, step k under `inputs[k]`. */
  function Run(catalog: seq<Variety>, ss: seq<FarmerState>, inputs: seq<StepInput>, n: int): (r: seq<FarmerState>)
    requires n <= |inputs|
    ensures |r| == |ss|
    decreases n
  {
    if n <= 0 then ss
    else StepAll(catalog, Run(catalog, ss, inputs, n - 1), inputs[n - 1])
  }

  /** Running one more step applies one more engine step to the states so far. */
  lemma RunUnfold(catalog: seq<Variety>, ss: seq<FarmerState>, inputs: seq<StepInput>, n: nat)
    requires n < |inputs|
    ensures Run(catalog, ss, inputs, n + 1) == StepAll(catalog, Run(catalog, ss, inputs, n), inputs[n])
  {
  }

  /** The sum of the farmers' capital, added up in order. */
  function TotalCapital(ss: seq<FarmerState>): real
    decreases |ss|
  {
    if ss == [] then 0.0 else TotalCapital(ss[..|ss| - 1]) + ss[|ss| - 1].capital
  }

  lemma {:induction false} TotalCapitalNonnegative(ss: seq<FarmerState>)
    requires forall i :: 0 <= i < |ss| ==> ss[i].capital >= 0.0
    ensures TotalCapital(ss) >= 0.0
  {
    if ss != [] {
      TotalCapitalNonnegative(ss[..|ss| - 1]);
    }
  }

  lemma {:induction false} TotalCapitalMonotone(s0: seq<FarmerState>, s: seq<FarmerState>)
    requires |s| == |s0|
    requires forall i :: 0 <= i < |s| ==> s[i].capital <= s0[i].capital
    ensures TotalCapital(s) <= TotalCapital(s0)
  {
    if s != [] {
      TotalCapitalMonotone(s0[..|s0| - 1], s[..|s| - 1]);
    }
  }

  predicate SizesNonnegative(ps: seq<PlotRec>) {
    forall j :: 0 <= j < |ps| ==> ps[j].sizeHa >= 0.0
  }

  /** Farmer state `b` followed from `a` without a harvest: the same plots,
      none ripe, unchanged histories and sizes, no debt if there was none,
      and no more capital than before when plot sizes are not negative. */
  predicate DormantState(a: FarmerState, b: FarmerState) {
    && |b.plots| == |a.plots|
    && NoneRipe(b.plots)
    && (a.capital >= 0.0 ==> b.capital >= 0.0)
    && (SizesNonnegative(a.plots) ==> b.capital <= a.capital)
    && forall j :: 0 <= j < |a.plots| ==>
         b.plots[j].history == a.plots[j].history && b.plots[j].sizeHa == a.plots[j].sizeHa
  }

  predicate Dormant(s0: seq<FarmerState>, s: seq<FarmerState>) {
    |s| == |s0| && forall i :: 0 <= i < |s0| ==> DormantState(s0[i], s[i])
  }

  /** No variety of the catalog has negative input costs. */
  predicate CostsNonnegative(catalog: seq<Variety>) {
    forall v :: v in catalog ==> v.inputCostsBdtHa >= 0.0
  }

  lemma CatalogCostsNonnegative()
    ensures CostsNonnegative(CatalogVarieties())
  {
    CatalogAttributes();
  }

  lemma CostNonnegative(v: Variety, sizeHa: real)
    requires v.inputCostsBdtHa >= 0.0 && sizeHa >= 0.0
    ensures InputCost(v, sizeHa) >= 0.0
  {
  }

  /** Planting from such a catalog on plots of non-negative size costs money, never earns it. */
  lemma {:induction false} PlantedCostNonnegative(catalog: seq<Variety>, ps: seq<PlotRec>, qs: seq<PlotRec>, step: int)
    requires CostsNonnegative(catalog)
    requires |ps| == |qs| && SizesNonnegative(ps)
    requires forall j :: 0 <= j < |ps| ==> PlotDecision(catalog, ps[j], qs[j], step)
    ensures PlantedCost(ps, qs) >= 0.0
  {
    if ps != [] {
      var n := |ps| - 1;
      PlantedCostNonnegative(catalog, ps[..n], qs[..n], step);
      if ps[n].crop.None? && qs[n].crop.Some? {
        var v := qs[n].crop.value.variety;
        assert v in catalog;
        CostNonnegative(v, ps[n].sizeHa);
      }
    }
  }

  /** A farmer step with no ripe crop is dormant. */
  lemma StepDormant(catalog: seq<Variety>, st: FarmerState, input: StepInput)
    requires CostsNonnegative(catalog)
    requires NoneRipe(st.plots)
    ensures DormantState(st, FarmerStep(catalog, st, input))
  {
    var d := DecideAll(catalog, st.capital, |st.plots|, st.plots, input);
    DecideAllEffect(catalog, st.capital, |st.plots|, st.plots, input);
    DecisionKeepsRipeness(catalog, st.capital, |st.plots|, st.plots, input);
    HarvestAllEffect(d.0, d.1, input);
    NoRevenue(d.1, input.market);
    var r := FarmerStep(catalog, st, input);
    assert r.plots == HarvestAll(d.0, d.1, input).1;
    forall j | 0 <= j < |st.plots| ensures r.plots[j] == d.1[j] {
      assert !Ripe(d.1[j]);
    }
    if SizesNonnegative(st.plots) {
      PlantedCostNonnegative(catalog, st.plots, d.1, input.step);
    }
  }

  lemma DormantTransitive(s0: seq<FarmerState>, s1: seq<FarmerState>, s2: seq<FarmerState>)
    requires Dormant(s0, s1) && Dormant(s1, s2)
    ensures Dormant(s0, s2)
  {
    forall i | 0 <= i < |s0| ensures DormantState(s0[i], s2[i]) {
      assert DormantState(s0[i], s1[i]) && DormantState(s1[i], s2[i]);
      if SizesNonnegative(s0[i].plots) {
        assert SizesNonnegative(s1[i].plots) by {
          forall j | 0 <= j < |s1[i].plots| ensures s1[i].plots[j].sizeHa >= 0.0 {
            assert s1[i].plots[j].sizeHa == s0[i].plots[j].sizeHa;
          }
        }
      }
    }
  }

  /** An engine step in which no farmer has a ripe crop is dormant for all of them. */
  lemma StepAllDormant(catalog: seq<Variety>, ss: seq<FarmerState>, input: StepInput)
    requires CostsNonnegative(catalog)
    requires forall i :: 0 <= i < |ss| ==> NoneRipe(ss[i].plots)
    ensures Dormant(ss, StepAll(catalog, ss, input))
  {
    forall i | 0 <= i < |ss| ensures DormantState(ss[i], StepAll(catalog, ss, input)[i]) {
      StepDormant(catalog, ss[i], input);
    }
  }

  /** A dormant run followed by one more engine step is still dormant. */
  lemma DormantThenStep(catalog: seq<Variety>, s0: seq<FarmerState>, prev: seq<FarmerState>,
                        next: seq<FarmerState>, input: StepInput)
    requires CostsNonnegative(catalog)
    requires Dormant(s0, prev) && next == StepAll(catalog, prev, input)
    ensures Dormant(s0, next)
  {
    forall i | 0 <= i < |prev| ensures NoneRipe(prev[i].plots) {
      assert DormantState(s0[i], prev[i]);
    }
    StepAllDormant(catalog, prev, input);
    DormantTransitive(s0, prev, next);
  }

  /** Crops are never ripe in this model's engine, so whatever the conditions
      of each step: no farmer ever harvests, histories never grow, nobody goes
      into debt, and capital never rises. */
  lemma {:induction false} RunDormant(catalog: seq<Variety>, ss: seq<FarmerState>, inputs: seq<StepInput>, n: int)
    requires n <= |inputs|
    requires CostsNonnegative(catalog)
    requires forall i :: 0 <= i < |ss| ==> NoneRipe(ss[i].plots)
    ensures Dormant(ss, Run(catalog, ss, inputs, n))
    decreases n
  {
    if n <= 0 {
      forall i | 0 <= i < |ss| ensures DormantState(ss[i], ss[i]) { }
    } else {
      RunDormant(catalog, ss, inputs, n - 1);
      DormantThenStep(catalog, ss, Run(catalog, ss, inputs, n - 1), Run(catalog, ss, inputs, n), inputs[n - 1]);
    }
  }

  // ---------------------------------------------------------------------
  // Construction
  // ---------------------------------------------------------------------

  /** The agent's fixed attributes and capital were taken from the record,
      with the given identifier. */
  ghost predicate AgentFrom(a: FarmerAgent, r: FarmerRecord, id: string)
    reads a`capitalBdt
  {
    && a.agentId == id && a.householdId == IdOrElse(Some(r.householdId), "HH_" + id)
    && a.capitalBdt == r.initialCapitalBdt && a.age == r.age && a.educationYears == r.educationYears
    && a.farmingExperienceYears == r.farmingExperienceYears && a.riskAversionFactor == r.riskAversionFactor
    && a.landHoldingCategory == r.landHoldingCategory && a.locationId == r.locationAdminUnitId
    && a.numFarmPlots == r.numFarmPlots && a.catalog == CatalogVarieties()
  }

  predicate DistinctPlots(ps: seq<FarmPlot>) {
    forall i, j :: 0 <= i < j < |ps| ==> ps[i] != ps[j]
  }

  ghost function SoilState(s: SoilProperties): SoilRecord
    reads s
  {
    SoilRecord(s.soilType, s.organicMatterPercent, s.ph, s.salinityDsM, s.waterHoldingCapacityMm)
  }

  /** The plots of a plot map, with their soils, as values. */
  ghost function MapState(m: map<string, FarmPlot>): map<string, BuiltPlot>
    reads m.Values, set p | p in m.Values :: p.soil
  {
    map id | id in m :: BuiltPlot(m[id].Record(), SoilState(m[id].soil))
  }

  /** One agent per farmer record, in order, each without plots. */
  method CreateFarmers(farmers: seq<FarmerRecord>, uuids: seq<string>) returns (fs: seq<FarmerAgent>)
    ensures |fs| == |farmers|
    ensures forall i :: 0 <= i < |fs| ==>
              fresh(fs[i]) && fs[i].farmPlots == [] && AgentFrom(fs[i], farmers[i], AgentIds(farmers, uuids)[i])
    ensures forall i, j :: 0 <= i < j < |fs| ==> fs[i] != fs[j]
  {
    ghost var ids := AgentIds(farmers, uuids);
    fs := [];
    for i := 0 to |farmers|
      invariant |fs| == i
      invariant forall j :: 0 <= j < i ==> fresh(fs[j]) && fs[j].farmPlots == [] && AgentFrom(fs[j], farmers[j], ids[j])
      invariant forall j, k :: 0 <= j < k < i ==> fs[j] != fs[k]
    {
      var r := farmers[i];
      var farmer := new FarmerAgent(Some(r.agentId), if i < |uuids| then uuids[i] else "", Some(r.householdId),
                                    r.initialCapitalBdt, r.age, r.educationYears, r.farmingExperienceYears,
                                    r.riskAversionFactor, r.landHoldingCategory, r.locationAdminUnitId,
                                    r.numFarmPlots);
      fs := fs + [farmer];
    }
  }

  /** The plots of `made` (built from `rs`, one per record) that go to farmer `id`, in order. */
  function Select(made: seq<FarmPlot>, rs: seq<PlotRecord>, ids: seq<string>, id: string): (r: seq<FarmPlot>)
    requires |made| == |rs|
    ensures forall p :: p in r ==> p in made
    decreases |rs|
  {
    if rs == [] then []
    else
      var n := |rs| - 1;
      Select(made[..n], rs[..n], ids, id) + (if AssignedWhere(rs[n], ids, id) then [made[n]] else [])
  }

  /** The map that files each plot of `made` under its record's identifier, later ones replacing earlier ones. */
  function Filed(made: seq<FarmPlot>, rs: seq<PlotRecord>): map<string, FarmPlot>
    requires |made| == |rs|
    decreases |rs|
  {
    if rs == [] then map[]
    else
      var n := |rs| - 1;
      Filed(made[..n], rs[..n])[rs[n].plotId := made[n]]
  }

  /** Each plot of `made` is in the state built from the matching record. */
  ghost predicate BuiltFrom(made: seq<FarmPlot>, rs: seq<PlotRecord>, ids: seq<string>)
    reads made, set p | p in made :: p.soil
  {
    |made| == |rs| &&
    forall j :: 0 <= j < |rs| ==>
      made[j].Record() == PlotState(rs[j], ids) && SoilState(made[j].soil) == rs[j].soilProperties
  }

  lemma BuiltSnoc(made: seq<FarmPlot>, rs: seq<PlotRecord>, ids: seq<string>, plot: FarmPlot, k: nat)
    requires |made| == k < |rs|
    requires BuiltFrom(made, rs[..k], ids)
    requires plot.Record() == PlotState(rs[k], ids) && SoilState(plot.soil) == rs[k].soilProperties
    ensures BuiltFrom(made + [plot], rs[..k + 1], ids)
    ensures forall id :: Select(made + [plot], rs[..k + 1], ids, id) ==
                         Select(made, rs[..k], ids, id) + (if AssignedWhere(rs[k], ids, id) then [plot] else [])
    ensures Filed(made + [plot], rs[..k + 1]) == Filed(made, rs[..k])[rs[k].plotId := plot]
  {
    assert (made + [plot])[..k] == made;
    assert rs[..k + 1][..k] == rs[..k];
  }

  /** The plots a farmer receives carry the states `AssignedTo` describes. */
  lemma {:induction false} SelectRecords(made: seq<FarmPlot>, rs: seq<PlotRecord>, ids: seq<string>, id: string)
    requires |made| == |rs|
    requires forall j :: 0 <= j < |rs| ==> made[j].Record() == PlotState(rs[j], ids)
    requires forall i, j :: 0 <= i < j < |made| ==> made[i] != made[j]
    ensures RecordsOf(Select(made, rs, ids, id)) == AssignedTo(rs, ids, id)
    ensures DistinctPlots(Select(made, rs, ids, id))
  {
    if rs != [] {
      var n := |rs| - 1;
      SelectRecords(made[..n], rs[..n], ids, id);
      var init := Select(made[..n], rs[..n], ids, id);
      if AssignedWhere(rs[n], ids, id) {
        assert RecordsOf(init + [made[n]]) == RecordsOf(init) + [made[n].Record()];
        assert made[n] !in made[..n];
      }
    }
  }

  /** The plot map carries the states `PlotsMapSpec` describes. */
  lemma {:induction false} FiledState(made: seq<FarmPlot>, rs: seq<PlotRecord>, ids: seq<string>)
    requires |made| == |rs|
    requires forall j :: 0 <= j < |rs| ==>
               made[j].Record() == PlotState(rs[j], ids) && SoilState(made[j].soil) == rs[j].soilProperties
    ensures MapState(Filed(made, rs)) == PlotsMapSpec(rs, ids)
  {
    if rs != [] {
      var n := |rs| - 1;
      FiledState(made[..n], rs[..n], ids);
      var m := Filed(made[..n], rs[..n]);
      assert MapState(m[rs[n].plotId := made[n]]) ==
             MapState(m)[rs[n].plotId := BuiltPlot(made[n].Record(), SoilState(made[n].soil))];
    }
  }

  /** A plot built from a record: default soil overwritten with the record's
      soil values, and the record's irrigation. */
  method BuildPlot(r: PlotRecord) returns (plot: FarmPlot)
    ensures fresh(plot) && fresh(plot.soil)
    ensures plot.Record() == PlotRec(r.plotId, r.ownerAgentId, r.sizeHa, r.initialLandQuality, None, [],
                                     r.isIrrigated, r.irrigationType, 1.0)
    ensures SoilState(plot.soil) == r.soilProperties
  {
    plot := new FarmPlot(r.plotId, r.ownerAgentId, r.sizeHa, null, r.initialLandQuality);
    plot.soil.soilType := r.soilProperties.soilType;
    plot.soil.organicMatterPercent := r.soilProperties.organicMatterPercent;
    plot.soil.ph := r.soilProperties.ph;
    plot.soil.salinityDsM := r.soilProperties.salinityDsM;
    plot.soil.waterHoldingCapacityMm := r.soilProperties.waterHoldingCapacityMm;
    plot.isIrrigated := r.isIrrigated;
    plot.irrigationType := r.irrigationType;
  }

  /** Builds the plot of one record, files it in the plot map and appends it
      to the list of the farmer it is assigned to: its recorded owner when
      that is a farmer, otherwise the first farmer, whom it then records as
      its owner. With no farmer it is only filed. */
  method FilePlot(r: PlotRecord, ids: seq<string>, plotsMap: map<string, FarmPlot>,
                  assignment: map<string, seq<FarmPlot>>)
    returns (plot: FarmPlot, plotsMap': map<string, FarmPlot>, assignment': map<string, seq<FarmPlot>>)
    requires assignment.Keys == set id | id in ids
    ensures fresh(plot) && fresh(plot.soil)
    ensures plot.Record() == PlotState(r, ids) && SoilState(plot.soil) == r.soilProperties
    ensures plotsMap' == plotsMap[r.plotId := plot]
    ensures assignment'.Keys == assignment.Keys
    ensures forall id :: id in assignment ==>
              assignment'[id] == assignment[id] + (if AssignedWhere(r, ids, id) then [plot] else [])
  {
    plot := BuildPlot(r);
    plotsMap' := plotsMap[plot.plotId := plot];
    assignment' := assignment;
    if plot.ownerAgentId.Some? && plot.ownerAgentId.value in assignment {
      var owner := plot.ownerAgentId.value;
      assignment' := assignment[owner := assignment[owner] + [plot]];
    } else if ids != [] {
      plot.ownerAgentId := Some(ids[0]);
      assignment' := assignment[ids[0] := assignment[ids[0]] + [plot]];
    }
  }

  /** Builds every plot, files it in the plot map under its identifier and
      appends it to the list of the farmer it is assigned to, rewriting the
      owner of a plot whose recorded owner is not a farmer. */
  method CreatePlots(rs: seq<PlotRecord>, ids: seq<string>)
    returns (plotsMap: map<string, FarmPlot>, assignment: map<string, seq<FarmPlot>>)
    ensures assignment.Keys == set id | id in ids
    ensures forall id :: id in assignment ==>
              RecordsOf(assignment[id]) == AssignedTo(rs, ids, id) && DistinctPlots(assignment[id])
    ensures MapState(plotsMap) == PlotsMapSpec(rs, ids)
  {
    plotsMap := map[];
    assignment := map id | id in ids :: [];
    ghost var made: seq<FarmPlot> := [];
    for k := 0 to |rs|
      invariant |made| == k
      invariant BuiltFrom(made, rs[..k], ids)
      invariant forall i, j :: 0 <= i < j < k ==> made[i] != made[j]
      invariant assignment.Keys == set id | id in ids
      invariant forall id :: id in assignment ==> assignment[id] == Select(made, rs[..k], ids, id)
      invariant plotsMap == Filed(made, rs[..k])
    {
      var plot;
      plot, plotsMap, assignment := FilePlot(rs[k], ids, plotsMap, assignment);
      BuiltSnoc(made, rs, ids, plot, k);
      made := made + [plot];
    }
    assert rs[..|rs|] == rs;
    assert forall j :: 0 <= j < |rs| ==> made[j].Record() == PlotState(rs[j], ids);
    forall id | id in ids ensures RecordsOf(assignment[id]) == AssignedTo(rs, ids, id) && DistinctPlots(assignment[id]) {
      SelectRecords(made, rs, ids, id);
    }
    FiledState(made, rs, ids);
  }

  /** The farmer holds exactly the plots assigned to identifier `id`, distinct and owned by it. */
  ghost predicate HoldsAssigned(a: FarmerAgent, rs: seq<PlotRecord>, ids: seq<string>, id: string)
    reads a, a.farmPlots
  {
    a.Valid() && RecordsOf(a.farmPlots) == AssignedTo(rs, ids, id)
  }

  /** Hands each farmer the list collected under its identifier. */
  method AttachPlots(fs: seq<FarmerAgent>, ids: seq<string>, assignment: map<string, seq<FarmPlot>>,
                     ghost rs: seq<PlotRecord>, ghost plotsMap: map<string, FarmPlot>)
    requires |fs| == |ids|
    requires forall i, j :: 0 <= i < j < |fs| ==> fs[i] != fs[j]
    requires forall i :: 0 <= i < |fs| ==> fs[i].agentId == ids[i]
    requires forall id :: id in ids ==>
               id in assignment && RecordsOf(assignment[id]) == AssignedTo(rs, ids, id) && DistinctPlots(assignment[id])
    modifies fs`farmPlots
    ensures forall i :: 0 <= i < |fs| ==> HoldsAssigned(fs[i], rs, ids, ids[i])
    ensures MapState(plotsMap) == old(MapState(plotsMap))
  {
    for i := 0 to |fs|
      invariant forall j :: 0 <= j < i ==> fs[j].farmPlots == Held(assignment, ids[j])
    {
      fs[i].farmPlots := Held(assignment, ids[i]);
    }
    forall i | 0 <= i < |fs| ensures HoldsAssigned(fs[i], rs, ids, ids[i]) {
      HeldOwned(fs[i].farmPlots, rs, ids, ids[i]);
    }
    MapFramed(plotsMap);
  }

  /** A plot map whose plots and soils did not change is in the same state. */
  twostate lemma MapFramed(m: map<string, FarmPlot>)
    requires forall id :: id in m ==> unchanged(m[id]) && unchanged(m[id].soil)
    ensures MapState(m) == old(MapState(m))
  {
  }

  /** `plot_assignment_map.get(id, [])`. */
  function Held(assignment: map<string, seq<FarmPlot>>, id: string): seq<FarmPlot> {
    if id in assignment then assignment[id] else []
  }

  /** The list filed under a farmer's identifier holds distinct plots, each
      recorded under that farmer. */
  lemma HeldOwned(held: seq<FarmPlot>, rs: seq<PlotRecord>, ids: seq<string>, id: string)
    requires id in ids && RecordsOf(held) == AssignedTo(rs, ids, id)
    ensures forall t :: 0 <= t < |held| ==> held[t].ownerAgentId == Some(id)
  {
    AssignedOwned(rs, ids, id);
    forall t | 0 <= t < |held| ensures held[t].ownerAgentId == Some(id) {
      assert held[t].Record() == AssignedTo(rs, ids, id)[t];
    }
  }

  /** Two farmers with different identifiers hold no plot in common. */
  lemma Separate(a: FarmerAgent, b: FarmerAgent)
    requires a.Valid() && b.Valid() && a.agentId != b.agentId
    ensures a != b
    ensures forall p :: p in a.farmPlots ==> p !in b.farmPlots
  {
    forall p | p in a.farmPlots ensures p !in b.farmPlots {
      var t :| 0 <= t < |a.farmPlots| && a.farmPlots[t] == p;
      assert p.ownerAgentId == Some(a.agentId);
    }
  }

  /** A farmer whose own fields and whose plots did not change is in the same state. */
  twostate lemma StateFramed(a: FarmerAgent)
    requires unchanged(a) && forall p :: p in old(a.farmPlots) ==> unchanged(p)
    ensures a.State() == old(a.State())
  {
    forall t | 0 <= t < |a.farmPlots| ensures a.farmPlots[t].Record() == old(a.farmPlots[t].Record()) {
      assert a.farmPlots[t] in old(a.farmPlots);
    }
  }

  // ---------------------------------------------------------------------
  // The engine
  // ---------------------------------------------------------------------

  /** All plots held by the given farmers. */
  ghost function PlotsOf(fs: seq<FarmerAgent>): set<FarmPlot>
    reads fs
  {
    set i, t | 0 <= i < |fs| && 0 <= t < |fs[i].farmPlots| :: fs[i].farmPlots[t]
  }

  /** Farmers have distinct identifiers, each holds distinct plots it owns,
      and `plots` contains every plot held. */
  ghost predicate AgentsValid(agents: seq<FarmerAgent>, plots: set<FarmPlot>)
    reads agents`farmPlots, plots`ownerAgentId
  {
    && (forall i, t :: 0 <= i < |agents| && 0 <= t < |agents[i].farmPlots| ==> agents[i].farmPlots[t] in plots)
    && (forall i, j :: 0 <= i < j < |agents| ==> agents[i].agentId != agents[j].agentId)
    && (forall i :: 0 <= i < |agents| ==> agents[i].Valid())
  }

  /** What construction builds from the input: one farmer per record, in
      order, holding exactly the plots assigned to it, and the map of all
      plots by identifier. */
  ghost predicate Constructed(agents: seq<FarmerAgent>, plots: set<FarmPlot>, plotsMap: map<string, FarmPlot>,
                            data: SimulationInput, uuids: seq<string>)
    requires AgentsValid(agents, plots)
    reads agents, plots, plotsMap.Values, set p | p in plotsMap.Values :: p.soil
  {
    var ids := AgentIds(data.farmers, uuids);
    && |agents| == |data.farmers|
    && (forall i :: 0 <= i < |agents| ==>
          AgentFrom(agents[i], data.farmers[i], ids[i]) && HoldsAssigned(agents[i], data.farmPlots, ids, ids[i]))
    && MapState(plotsMap) == PlotsMapSpec(data.farmPlots, ids)
  }

  /** Farmers built one per record, each holding what was assigned to it,
      together with the map of plots, are what construction builds. */
  lemma ConstructedOfParts(fs: seq<FarmerAgent>, plotsMap: map<string, FarmPlot>, data: SimulationInput, uuids: seq<string>)
    requires DistinctIds(AgentIds(data.farmers, uuids))
    requires |fs| == |data.farmers|
    requires var ids := AgentIds(data.farmers, uuids);
             forall i :: 0 <= i < |fs| ==>
               AgentFrom(fs[i], data.farmers[i], ids[i]) && HoldsAssigned(fs[i], data.farmPlots, ids, ids[i])
    requires MapState(plotsMap) == PlotsMapSpec(data.farmPlots, AgentIds(data.farmers, uuids))
    ensures AgentsValid(fs, PlotsOf(fs)) && Constructed(fs, PlotsOf(fs), plotsMap, data, uuids)
  {
  }

  /** `_create_agents_and_plots`: one agent per farmer record, in order; then
      every plot built, filed by identifier and handed to its farmer. */
  method CreateAgentsAndPlots(data: SimulationInput, uuids: seq<string>)
    returns (fs: seq<FarmerAgent>, plotsMap: map<string, FarmPlot>)
    requires DistinctIds(AgentIds(data.farmers, uuids))
    ensures |fs| == |data.farmers|
    ensures forall i :: 0 <= i < |fs| ==> fresh(fs[i])
    ensures AgentsValid(fs, PlotsOf(fs)) && Constructed(fs, PlotsOf(fs), plotsMap, data, uuids)
    ensures forall i :: 0 <= i < |fs| ==> fs[i].catalog == CatalogVarieties()
  {
    var ids := AgentIds(data.farmers, uuids);
    fs := CreateFarmers(data.farmers, uuids);
    var assignment;
    plotsMap, assignment := CreatePlots(data.farmPlots, ids);
    AttachPlots(fs, ids, assignment, data.farmPlots, plotsMap);
    ConstructedOfParts(fs, plotsMap, data, uuids);
  }

  /** The agents and plots built from the generated data, if there is any. */
  method CreateFromData(data: Option<SimulationInput>, uuids: seq<string>)
    returns (fs: seq<FarmerAgent>, plotsMap: map<string, FarmPlot>)
    requires data.Some? ==> DistinctIds(AgentIds(data.value.farmers, uuids))
    ensures data.None? ==> fs == [] && plotsMap == map[]
    ensures forall i :: 0 <= i < |fs| ==> fresh(fs[i])
    ensures forall i :: 0 <= i < |fs| ==> fs[i].catalog == CatalogVarieties()
    ensures AgentsValid(fs, PlotsOf(fs))
    ensures data.Some? ==> Constructed(fs, PlotsOf(fs), plotsMap, data.value, uuids)
  {
    if data.None? {
      fs, plotsMap := [], map[];
    } else {
      fs, plotsMap := CreateAgentsAndPlots(data.value, uuids);
    }
  }

  class SimulationEngine {
    const config: Config.ConfigMap
    var currentStep: int
    const maxSteps: int
    /** The agents, which are all farmers: the source's `agents` and
        `farmer_agents` lists always hold the same farmers in the same order. */
    const agents: seq<FarmerAgent>
    const farmPlotsMap: map<string, FarmPlot>
    /** The plots the farmers hold. */
    ghost const plots: set<FarmPlot>
    /** The varieties every farmer chooses from: the crop catalog. */
    const catalog: seq<Variety>

    /** Farmers have distinct identifiers and each holds distinct plots it owns. */
    ghost predicate Valid()
      reads agents`farmPlots, plots`ownerAgentId
    {
      AgentsValid(agents, plots) && forall i :: 0 <= i < |agents| ==> agents[i].catalog == catalog
    }

    /** The farmers' states, in order. */
    ghost function States(): (r: seq<FarmerState>)
      reads agents, PlotsOf(agents)
      ensures |r| == |agents|
    {
      seq(|agents|, i requires 0 <= i < |agents| reads agents, PlotsOf(agents) => agents[i].State())
    }

    /** What construction built from the input. */
    ghost predicate BuiltFromInput(data: SimulationInput, uuids: seq<string>)
      requires Valid()
      reads this, agents, plots, farmPlotsMap.Values, set p | p in farmPlotsMap.Values :: p.soil
    {
      Constructed(agents, plots, farmPlotsMap, data, uuids)
    }

    /** A freshly built engine holds no crop at all, so however many steps
        run and whatever the conditions of each step, it stays dormant. */
    lemma BuiltRunsDormant(data: SimulationInput, uuids: seq<string>, inputs: seq<StepInput>, n: int)
      requires Valid() && BuiltFromInput(data, uuids)
      requires catalog == CatalogVarieties() && n <= |inputs|
      ensures Dormant(States(), Run(catalog, States(), inputs, n))
    {
      var ids := AgentIds(data.farmers, uuids);
      var ss := States();
      forall i | 0 <= i < |ss| ensures NoneRipe(ss[i].plots) {
        AssignedOwned(data.farmPlots, ids, ids[i]);
      }
      CatalogCostsNonnegative();
      RunDormant(catalog, ss, inputs, n);
    }

    /** An engine built from validated records starts every farmer with
        non-negative capital and plots of positive size. */
    lemma BuiltFromValidInput(data: SimulationInput, uuids: seq<string>)
      requires Valid() && BuiltFromInput(data, uuids) && ValidInput(data)
      ensures forall i :: 0 <= i < |agents| ==>
                States()[i].capital >= 0.0 && SizesNonnegative(States()[i].plots)
    {
      var ids := AgentIds(data.farmers, uuids);
      forall i | 0 <= i < |agents| ensures States()[i].capital >= 0.0 && SizesNonnegative(States()[i].plots) {
        assert ValidFarmerRecord(data.farmers[i]);
        AssignedSizesPositive(data.farmPlots, ids, ids[i]);
      }
    }

    /** From validated records, however many steps run and whatever their
        conditions, no farmer harvests, goes into debt or gains capital, and
        the total capital stays between zero and its initial value. */
    lemma ValidBuiltNeverInDebt(data: SimulationInput, uuids: seq<string>, inputs: seq<StepInput>, n: int)
      requires Valid() && BuiltFromInput(data, uuids) && ValidInput(data)
      requires catalog == CatalogVarieties() && n <= |inputs|
      ensures var r := Run(catalog, States(), inputs, n);
              && (forall i :: 0 <= i < |r| ==>
                    0.0 <= r[i].capital <= States()[i].capital && NoneRipe(r[i].plots))
              && 0.0 <= TotalCapital(r) <= TotalCapital(States())
    {
      var s0 := States();
      var r := Run(catalog, s0, inputs, n);
      BuiltFromValidInput(data, uuids);
      BuiltRunsDormant(data, uuids, inputs, n);
      forall i | 0 <= i < |r| ensures 0.0 <= r[i].capital <= s0[i].capital && NoneRipe(r[i].plots) {
        assert DormantState(s0[i], r[i]);
      }
      TotalCapitalNonnegative(r);
      TotalCapitalMonotone(s0, r);
    }

    /** An engine at step 0. `data` stands for the generated input data (none
        leaves the engine without agents and plots) and `uuids[i]` for the
        identifier generated for farmer `i` when its record has an empty one. */
    constructor (config: Option<Config.ConfigMap>, data: Option<SimulationInput>, uuids: seq<string>)
      requires LimitComparable(config.GetOr(map[]))
      requires data.Some? ==> DistinctIds(AgentIds(data.value.farmers, uuids))
      ensures this.config == config.GetOr(map[]) && currentStep == 0 && maxSteps == MaxStepsOf(this.config)
      ensures catalog == CatalogVarieties()
      ensures Valid()
      ensures data.None? ==> agents == [] && farmPlotsMap == map[]
      ensures data.Some? ==> BuiltFromInput(data.value, uuids)
      ensures forall i :: 0 <= i < |agents| ==> fresh(agents[i])
    {
      var cfg := config.GetOr(map[]);
      var fs, plotsMap := CreateFromData(data, uuids);
      this.config := cfg;
      this.currentStep := 0;
      this.maxSteps := MaxStepsOf(cfg);
      this.catalog := CatalogVarieties();
      this.agents := fs;
      this.farmPlotsMap := plotsMap;
      this.plots := PlotsOf(fs);
    }

    /** Farmer `k` takes one step; every other farmer is untouched. */
    method StepAgent(k: nat, input: StepInput)
      requires Valid() && k < |agents|
      modifies {agents[k]}`capitalBdt, agents[k].farmPlots`currentCrop, agents[k].farmPlots`cultivationHistory
      ensures Valid()
      ensures agents[k].State() == FarmerStep(catalog, old(agents[k].State()), input)
      ensures forall j :: 0 <= j < |agents| && j != k ==> agents[j].State() == old(agents[j].State())
    {
      var a := agents[k];
      ghost var held := a.farmPlots;
      forall j | 0 <= j < |agents| && j != k
        ensures agents[j] != a && forall p :: p in agents[j].farmPlots ==> p !in held
      {
        Separate(agents[j], a);
      }
      a.Step(input.step, input.climate, input.market);
      forall j | 0 <= j < |agents| && j != k ensures agents[j].State() == old(agents[j].State()) {
        StateFramed(agents[j]);
      }
    }

    /** `run_step`: past the step limit nothing happens and the run stops;
        otherwise every farmer steps once, in order, under the step's
        climate and the fixed market, and the step count advances.
        `draws[k]` stands for the random draws of step k. */
    method RunStep(draws: seq<Draws>) returns (continued: bool)
      requires Valid() && (currentStep < maxSteps ==> 0 <= currentStep < |draws|)
      modifies this`currentStep, agents`capitalBdt, plots`currentCrop, plots`cultivationHistory
      ensures Valid()
      ensures continued <==> old(currentStep) < maxSteps
      ensures currentStep == if continued then old(currentStep) + 1 else old(currentStep)
      ensures continued ==> States() == StepAll(catalog, old(States()), EngineInputs(draws)[old(currentStep)])
      ensures !continued ==> States() == old(States())
    {
      if currentStep >= maxSteps {
        return false;
      }
      StepAgents(EngineInputs(draws)[currentStep]);
      currentStep := currentStep + 1;
      return true;
    }

    /** Every farmer steps once, in registration order, on the same input. */
    method StepAgents(input: StepInput)
      requires Valid()
      modifies agents`capitalBdt, plots`currentCrop, plots`cultivationHistory
      ensures Valid()
      ensures States() == StepAll(catalog, old(States()), input)
    {
      ghost var s0 := States();
      for i := 0 to |agents|
        invariant Valid()
        invariant forall j :: 0 <= j < |agents| ==>
                    agents[j].State() == if j < i then FarmerStep(catalog, s0[j], input) else s0[j]
      {
        StepAgent(i, input);
      }
    }

    /** `run_step` as a step of the run from `s0`. */
    method Advance(draws: seq<Draws>, ghost s0: seq<FarmerState>) returns (continued: bool)
      requires Valid() && 0 <= currentStep && maxSteps <= |draws| && currentStep <= |draws|
      requires States() == Run(catalog, s0, EngineInputs(draws), currentStep)
      modifies this`currentStep, agents`capitalBdt, plots`currentCrop, plots`cultivationHistory
      ensures Valid()
      ensures continued <==> old(currentStep) < maxSteps
      ensures currentStep == if continued then old(currentStep) + 1 else old(currentStep)
      ensures States() == Run(catalog, s0, EngineInputs(draws), currentStep)
    {
      ghost var n := currentStep;
      ghost var inputs := EngineInputs(draws);
      ghost var prev := Run(catalog, s0, inputs, n);
      continued := RunStep(draws);
      if continued {
        RunUnfold(catalog, s0, inputs, n);
        assert States() == StepAll(catalog, prev, inputs[n]);
      }
    }

    /** `run_simulation`: from step 0, step until the limit, then collect the
        total capital. */
    method RunSimulation(draws: seq<Draws>) returns (totalCapital: real)
      requires Valid() && maxSteps <= |draws|
      modifies this`currentStep, agents`capitalBdt, plots`currentCrop, plots`cultivationHistory
      ensures Valid()
      ensures currentStep == if maxSteps > 0 then maxSteps else 0
      ensures States() == Run(catalog, old(States()), EngineInputs(draws), currentStep)
      ensures totalCapital == TotalCapital(States())
    {
      ghost var s0 := States();
      currentStep := 0;
      RunSteps(draws, s0);
      totalCapital := CollectResults();
    }

    /** `while self.run_step(): pass`, from the step reached in the run from `s0`. */
    method RunSteps(draws: seq<Draws>, ghost s0: seq<FarmerState>)
      requires Valid() && maxSteps <= |draws| && 0 <= currentStep <= (if maxSteps > 0 then maxSteps else 0)
      requires States() == Run(catalog, s0, EngineInputs(draws), currentStep)
      modifies this`currentStep, agents`capitalBdt, plots`currentCrop, plots`cultivationHistory
      ensures Valid()
      ensures currentStep == if maxSteps > 0 then maxSteps else 0
      ensures States() == Run(catalog, s0, EngineInputs(draws), currentStep)
    {
      var more := true;
      while more
        invariant Valid()
        invariant 0 <= currentStep <= (if maxSteps > 0 then maxSteps else 0)
        invariant !more ==> currentStep >= maxSteps
        invariant States() == Run(catalog, s0, EngineInputs(draws), currentStep)
        decreases more, maxSteps - currentStep
      {
        more := Advance(draws, s0);
      }
    }

    /** `collect_results`: the farmers' total capital. */
    method CollectResults() returns (totalCapital: real)
      ensures totalCapital == TotalCapital(States())
    {
      ghost var ss := States();
      totalCapital := 0.0;
      for i := 0 to |agents|
        invariant totalCapital == TotalCapital(ss[..i])
      {
        assert ss[..i + 1][..i] == ss[..i];
        totalCapital := totalCapital + agents[i].capitalBdt;
      }
      assert ss[..|agents|] == ss;
    }
  }

  /** Building an engine: `_initialize_components` raises NotImplementedError
      when the configuration switches synthetic data off (`None` here);
      otherwise the engine is built from the generated `data`. */
  method Create(config: Option<Config.ConfigMap>, data: SimulationInput, uuids: seq<string>)
    returns (r: Option<SimulationEngine>)
    requires LimitComparable(config.GetOr(map[]))
    requires DistinctIds(AgentIds(data.farmers, uuids))
    ensures r.None? <==> !SyntheticDataEnabled(config.GetOr(map[]))
    ensures r.Some? ==>
              && fresh(r.value) && r.value.Valid() && r.value.currentStep == 0
              && r.value.maxSteps == MaxStepsOf(config.GetOr(map[]))
              && r.value.catalog == CatalogVarieties()
              && r.value.BuiltFromInput(data, uuids)
  {
    if !SyntheticDataEnabled(config.GetOr(map[])) {
      return None;
    }
    var e := new SimulationEngine(config, Some(data), uuids);
    return Some(e);
  }
}
