/**
 * The per-step condition snapshot handed to every agent: a dictionary whose
 * entries are either flat readings or readings per plot. Climate and market
 * conditions both take this shape.
 */
module Snapshots {
  import opened Options

  type Readings = map<string, real>

  datatype Entry =
    | Flat(values: Readings)
    | PerPlot(byPlot: map<string, Readings>)

  type Snapshot = map<string, Entry>

  /** `snapshot.get(key, {}).get(field, default)` on a flat entry; any other
      shape yields the default. */
  function FlatReading(s: Snapshot, key: string, field: string, default: real): real {
    if key in s && s[key].Flat? && field in s[key].values then s[key].values[field] else default
  }

  /** `snapshot.get(key, {}).get(plotId)` on a per-plot entry. */
  function PlotReadings(s: Snapshot, key: string, plotId: string): Option<Readings> {
    if key in s && s[key].PerPlot? && plotId in s[key].byPlot then Some(s[key].byPlot[plotId]) else None
  }
}
