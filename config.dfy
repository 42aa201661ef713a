/**
 * Simulation configuration: JSON-like nested dictionaries, the default
 * configuration and the deep merge of an override onto a base.
 */
module Config {
  import opened Options

  /** A configuration value, as a JSON document would hold it. */
  datatype Value =
    | Null
    | Bool(b: bool)
    | Int(i: int)
    | Real(r: real)
    | Str(s: string)
    | List(items: seq<Value>)
    | Dict(entries: map<string, Value>)

  type ConfigMap = map<string, Value>

  /** The built-in default configuration. */
  const DefaultSimulationConfig: ConfigMap := map[
    "max_simulation_steps" := Int(100),
    "random_seed" := Int(42),
    "use_synthetic_data" := Bool(true),
    "synthetic_data_config" := Dict(map[
      "num_farmers" := Int(200),
      "num_plots_per_farmer_avg" := Int(2),
      "sim_duration_days" := Int(365 * 10),
      "random_seed" := Int(42)]),
    "data_loader_config" := Dict(map[
      "farmers_file" := Str("data/real/farmers.csv"),
      "plots_file" := Str("data/real/farm_plots.json"),
      "weather_file" := Str("data/real/historical_weather.csv"),
      "market_price_file" := Str("data/real/market_prices.csv")]),
    "reporting_options" := Dict(map[
      "output_directory" := Str("results"),
      "save_agent_data_interval" := Int(10),
      "save_plot_data_interval" := Int(10)]),
    "climate_model_config" := Dict(map[
      "historical_data_path" := Str("data/climate/historical_weather.csv"),
      "scenario_data_path" := Str("data/climate/cmip6_rcp45_scenario.json"),
      "selected_scenario" := Str("RCP4.5")]),
    "economic_model_config" := Dict(map[
      "default_interest_rate" := Real(0.08),
      "subsidy_programs" := List([Dict(map[
        "name" := Str("fertilizer_subsidy"),
        "type" := Str("percentage"),
        "value" := Real(0.15)])])])
  ]

  /** A copy of the default configuration. Values are immutable here, so the
      copy is indistinguishable from the original. */
  function GetDefaultConfig(): (r: ConfigMap)
    ensures r.Keys == {"max_simulation_steps", "random_seed", "use_synthetic_data",
                       "synthetic_data_config", "data_loader_config", "reporting_options",
                       "climate_model_config", "economic_model_config"}
    ensures r["max_simulation_steps"] == Int(100) && r["random_seed"] == Int(42)
    ensures r["use_synthetic_data"] == Bool(true)
    ensures r["synthetic_data_config"].Dict? && "num_farmers" in r["synthetic_data_config"].entries
    ensures r["synthetic_data_config"].entries["num_farmers"] == Int(200)
  {
    DefaultSimulationConfig
  }

  /** Both values are dictionaries, so the merge recurses into them. */
  predicate BothDicts(base: ConfigMap, override: ConfigMap, k: string) {
    k in base && k in override && base[k].Dict? && override[k].Dict?
  }

  /** Deep merge: keys of `override` win, except that two dictionaries under
      the same key are merged recursively. */
  function MergeConfigs(base: ConfigMap, override: ConfigMap): ConfigMap
    decreases Dict(override)
  {
    map k | k in base.Keys + override.Keys ::
      if k in override then
        if BothDicts(base, override, k)
        then Dict(MergeConfigs(base[k].entries, override[k].entries))
        else override[k]
      else base[k]
  }

  /** The merged keys are exactly the keys of either side. */
  lemma MergeKeys(base: ConfigMap, override: ConfigMap)
    ensures MergeConfigs(base, override).Keys == base.Keys + override.Keys
  {
  }

  /** A key only the base has keeps the base's value. */
  lemma MergeKeepsBaseOnly(base: ConfigMap, override: ConfigMap, k: string)
    requires k in base && k !in override
    ensures MergeConfigs(base, override)[k] == base[k]
  {
  }

  /** A key of the override whose value, or whose base value, is not a
      dictionary takes the override's value. */
  lemma MergeOverrideWins(base: ConfigMap, override: ConfigMap, k: string)
    requires k in override && !BothDicts(base, override, k)
    ensures MergeConfigs(base, override)[k] == override[k]
  {
  }

  /** Two dictionaries under the same key are merged recursively. */
  lemma MergeNested(base: ConfigMap, override: ConfigMap, k: string)
    requires BothDicts(base, override, k)
    ensures MergeConfigs(base, override)[k] == Dict(MergeConfigs(base[k].entries, override[k].entries))
  {
  }

  /** Merging an empty override gives back the base. */
  lemma MergeEmptyOverride(base: ConfigMap)
    ensures MergeConfigs(base, map[]) == base
  {
  }

  /** Merging onto an empty base gives back the override. */
  lemma MergeOntoEmpty(override: ConfigMap)
    ensures MergeConfigs(map[], override) == override
  {
  }

  /** Merging a configuration with itself changes nothing, at every depth. */
  lemma {:induction false} MergeIdempotent(c: ConfigMap)
    decreases Dict(c)
    ensures MergeConfigs(c, c) == c
  {
    forall k | k in c && c[k].Dict?
      ensures MergeConfigs(c[k].entries, c[k].entries) == c[k].entries
    {
      MergeIdempotent(c[k].entries);
    }
  }

  /** The value reached by following `path` through nested dictionaries. */
  function Lookup(c: ConfigMap, path: seq<string>): Option<Value>
    requires path != []
    decreases |path|
  {
    if path[0] !in c then None
    else if |path| == 1 then Some(c[path[0]])
    else if c[path[0]].Dict? then Lookup(c[path[0]].entries, path[1..])
    else None
  }

  /** Every leaf of the override (a value that is not a dictionary) is found,
      unchanged, at the same path in the merged configuration. */
  lemma {:induction false} MergeOverrideLeaf(base: ConfigMap, override: ConfigMap, path: seq<string>, v: Value)
    requires path != [] && Lookup(override, path) == Some(v) && !v.Dict?
    decreases |path|
    ensures Lookup(MergeConfigs(base, override), path) == Some(v)
  {
    var k := path[0];
    if |path| > 1 {
      if BothDicts(base, override, k) {
        MergeOverrideLeaf(base[k].entries, override[k].entries, path[1..], v);
      }
    }
  }

  /** The override does not reach `path` of the base: along the way, some key
      is missing from the override while every earlier level is a dictionary
      on both sides. */
  predicate Untouched(base: ConfigMap, override: ConfigMap, path: seq<string>)
    decreases |path|
  {
    |path| > 0 &&
    (path[0] !in override ||
     (BothDicts(base, override, path[0]) && Untouched(base[path[0]].entries, override[path[0]].entries, path[1..])))
  }

  /** Whatever the override does not reach keeps its base value. */
  lemma {:induction false} MergeKeepsUntouched(base: ConfigMap, override: ConfigMap, path: seq<string>)
    requires Untouched(base, override, path)
    decreases |path|
    ensures Lookup(MergeConfigs(base, override), path) == Lookup(base, path)
  {
    var k := path[0];
    if k in override && |path| > 1 {
      MergeKeepsUntouched(base[k].entries, override[k].entries, path[1..]);
    }
  }
}
