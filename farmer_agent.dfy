/**
 * The farmer household agent: it holds farm plots and capital, chooses and
 * plants rice varieties, and sells ripe harvests. Its methods are proved to
 * follow the step functions of module Decisions.
 */
module Agents {
  import opened Options
  import opened Crops
  import opened FarmPlots
  import opened Snapshots
  import opened Decisions

  /** The states of the given plots, in order. */
  ghost function RecordsOf(ps: seq<FarmPlot>): (r: seq<PlotRec>)
    reads ps
    ensures |r| == |ps| && forall i :: 0 <= i < |ps| ==> r[i] == ps[i].Record()
  {
    seq(|ps|, i requires 0 <= i < |ps| reads ps => ps[i].Record())
  }

  /** A falsy identifier (absent or empty) is replaced by the fallback. */
  function IdOrElse(id: Option<string>, fallback: string): (r: string)
    ensures id.Some? && id.value != "" ==> r == id.value
    ensures id.None? || id.value == "" ==> r == fallback
  {
    if id.Some? && id.value != "" then id.value else fallback
  }

  class FarmerAgent {
    const agentId: string
    const householdId: string
    var capitalBdt: real
    var farmPlots: seq<FarmPlot>
    const age: int
    const educationYears: int
    const numFarmPlots: int
    const farmingExperienceYears: int
    const riskAversionFactor: real
    const landHoldingCategory: string
    const locationId: Option<string>
    /** The varieties the farmer chooses from: always the crop catalog. */
    const catalog: seq<Variety>
    var expectedYields: map<string, real>
    var expectedPrices: map<string, real>
    var currentDebtBdt: real
    var subsidyReceivedBdt: real
    var offFarmIncomeBdtPerYear: real

    /** The plots are distinct and all owned by this farmer. */
    ghost predicate Valid()
      reads this`farmPlots, farmPlots`ownerAgentId
    {
      (forall i, j :: 0 <= i < j < |farmPlots| ==> farmPlots[i] != farmPlots[j]) &&
      (forall i :: 0 <= i < |farmPlots| ==> farmPlots[i].ownerAgentId == Some(agentId))
    }

    /** The farmer's capital and plot states, as a value. */
    ghost function State(): FarmerState
      reads this, farmPlots
    {
      FarmerState(capitalBdt, RecordsOf(farmPlots))
    }

    /** A farmer with no plots. An absent or empty identifier is replaced by
        `generatedId` (a fresh unique identifier supplied by the caller), an
        absent or empty household identifier by "HH_" and the agent's identifier. */
    constructor (agentId: Option<string>, generatedId: string,
                 householdId: Option<string> := None,
                 initialCapitalBdt: real := 50000.0,
                 age: int := 48,
                 educationYears: int := 7,
                 farmingExperienceYears: int := 24,
                 riskAversionFactor: real := 0.5,
                 landHoldingCategory: string := "small",
                 locationId: Option<string> := None,
                 numFarmPlots: int := 0)
      ensures this.agentId == IdOrElse(agentId, generatedId)
      ensures this.householdId == IdOrElse(householdId, "HH_" + this.agentId)
      ensures capitalBdt == initialCapitalBdt && farmPlots == []
      ensures this.age == age && this.educationYears == educationYears && this.numFarmPlots == numFarmPlots
      ensures this.farmingExperienceYears == farmingExperienceYears && this.riskAversionFactor == riskAversionFactor
      ensures this.landHoldingCategory == landHoldingCategory && this.locationId == locationId
      ensures expectedYields == map[] && expectedPrices == map[]
      ensures currentDebtBdt == 0.0 && subsidyReceivedBdt == 0.0 && offFarmIncomeBdtPerYear == 0.0
      ensures catalog == CatalogVarieties()
      ensures Valid()
    {
      var id := IdOrElse(agentId, generatedId);
      this.agentId := id;
      this.householdId := IdOrElse(householdId, "HH_" + id);
      this.capitalBdt := initialCapitalBdt;
      this.farmPlots := [];
      this.age := age;
      this.educationYears := educationYears;
      this.numFarmPlots := numFarmPlots;
      this.farmingExperienceYears := farmingExperienceYears;
      this.riskAversionFactor := riskAversionFactor;
      this.landHoldingCategory := landHoldingCategory;
      this.locationId := locationId;
      this.catalog := CatalogVarieties();
      this.expectedYields := map[];
      this.expectedPrices := map[];
      this.currentDebtBdt := 0.0;
      this.subsidyReceivedBdt := 0.0;
      this.offFarmIncomeBdtPerYear := 0.0;
    }

    /** Takes over a plot: a plot recorded under another owner is reassigned
        to this farmer, then appended. */
    method AddFarmPlot(plot: FarmPlot)
      requires Valid() && plot !in farmPlots
      modifies this`farmPlots, plot`ownerAgentId
      ensures Valid()
      ensures farmPlots == old(farmPlots) + [plot]
      ensures plot.Record() == old(plot.Record()).(ownerAgentId := Some(agentId))
      ensures forall i :: 0 <= i < |old(farmPlots)| ==> farmPlots[i].Record() == old(farmPlots[i].Record())
    {
      if plot.ownerAgentId != Some(agentId) {
        plot.ownerAgentId := Some(agentId);
      }
      farmPlots := farmPlots + [plot];
    }

    /** The decision pass: every empty plot gets the selected variety when
        the farmer can pay for the whole plot. */
    method MakeCultivationDecisions(step: int, climate: Snapshot, market: Snapshot)
      requires Valid()
      modifies this`capitalBdt, farmPlots`currentCrop
      ensures Valid()
      ensures State() == (var (c, ps) := DecideAll(catalog, old(capitalBdt), |farmPlots|, old(RecordsOf(farmPlots)),
                                                   StepInput(step, climate, market));
                          FarmerState(c, ps))
    {
      var n := |farmPlots|;
      ghost var input := StepInput(step, climate, market);
      ghost var ps0 := RecordsOf(farmPlots);
      ghost var c0 := capitalBdt;
      ghost var done: seq<PlotRec> := [];
      var i := 0;
      while i < n
        invariant 0 <= i <= n && |done| == i
        invariant forall j, k :: 0 <= j < k < n ==> farmPlots[j] != farmPlots[k]
        invariant forall j :: 0 <= j < n ==> farmPlots[j].Record() == if j < i then done[j] else ps0[j]
        invariant (capitalBdt, done) == DecideAll(catalog, c0, n, ps0[..i], input)
      {
        DecideAllSnoc(catalog, c0, n, ps0, input, i);
        DecideOnPlot(catalog, farmPlots[i], step, climate, market, n);
        done := done + [farmPlots[i].Record()];
        i := i + 1;
      }
      assert ps0[..n] == ps0;
      assert Valid();
    }

    /** The decision on one plot of a farmer with `plotCount` plots, choosing from `catalog`. */
    method DecideOnPlot(catalog: seq<Variety>, plot: FarmPlot, step: int, climate: Snapshot, market: Snapshot, plotCount: nat)
      modifies this`capitalBdt, plot`currentCrop
      ensures (capitalBdt, plot.Record()) ==
              DecideOne(catalog, old(capitalBdt), plotCount, old(plot.Record()), StepInput(step, climate, market))
    {
      var season := SeasonForStep(step);
      ghost var p0 := plot.Record();
      ghost var input := StepInput(step, climate, market);
      if plot.currentCrop.None? {
        var selected := SelectRiceVariety(catalog, season, SalinityOutlook(climate, plot.plotId), capitalBdt, plotCount);
        assert selected == SelectionFor(catalog, capitalBdt, plotCount, p0, input);
        if selected.Some? {
          var cost := InputCost(selected.value, plot.sizeHa);
          if capitalBdt >= cost {
            DecideOnePlants(catalog, capitalBdt, plotCount, p0, input);
            var _ := plot.PlantCrop(selected.value, PlantingDate(step), season);
            assert plot.Record() == PlantSpec(p0, selected.value, PlantingDate(step), season).1;
            capitalBdt := capitalBdt - cost;
            assert plot.Record() == PlantSpec(p0, selected.value, PlantingDate(step), season).1;
            assert capitalBdt == DecideOne(catalog, old(capitalBdt), plotCount, p0, input).0;
            assert plot.Record() == DecideOne(catalog, old(capitalBdt), plotCount, p0, input).1;
          } else {
            DecideOneKeeps(catalog, capitalBdt, plotCount, p0, input);
          }
        } else {
          DecideOneKeeps(catalog, capitalBdt, plotCount, p0, input);
        }
      } else {
        DecideOneKeeps(catalog, capitalBdt, plotCount, p0, input);
      }
    }

    /** One step of the farmer: update every plot's conditions, decide and
        plant, then harvest and sell every ripe crop. */
    method Step(step: int, climate: Snapshot, market: Snapshot)
      requires Valid()
      modifies this`capitalBdt, farmPlots`currentCrop, farmPlots`cultivationHistory
      ensures Valid()
      ensures State() == FarmerStep(catalog, old(State()), StepInput(step, climate, market))
    {
      ghost var input := StepInput(step, climate, market);
      ghost var ps0 := RecordsOf(farmPlots);
      for i := 0 to |farmPlots|
        modifies {}
      {
        var plot := farmPlots[i];
        plot.UpdatePlotConditions(PlotReadings(climate, "weather", plot.plotId), PlotReadings(climate, "hydrology", plot.plotId));
      }
      MakeCultivationDecisions(step, climate, market);
      ghost var s1 := State();
      assert s1 == FarmerState(DecideAll(catalog, old(capitalBdt), |ps0|, ps0, input).0,
                               DecideAll(catalog, old(capitalBdt), |ps0|, ps0, input).1);
      HarvestAndSell(step, climate, market);
      assert State() == FarmerState(HarvestAll(s1.capital, s1.plots, input).0, HarvestAll(s1.capital, s1.plots, input).1);
    }

    /** The harvest pass: every ripe crop is harvested and sold at the
        market price of its variety. */
    method HarvestAndSell(step: int, climate: Snapshot, market: Snapshot)
      requires Valid()
      modifies this`capitalBdt, farmPlots`currentCrop, farmPlots`cultivationHistory
      ensures Valid()
      ensures State() == (var (c, ps) := HarvestAll(old(capitalBdt), old(RecordsOf(farmPlots)), StepInput(step, climate, market));
                          FarmerState(c, ps))
    {
      var n := |farmPlots|;
      ghost var input := StepInput(step, climate, market);
      ghost var ps1 := RecordsOf(farmPlots);
      ghost var c1 := capitalBdt;
      ghost var done: seq<PlotRec> := [];
      var i := 0;
      while i < n
        invariant 0 <= i <= n && |done| == i
        invariant forall j, k :: 0 <= j < k < n ==> farmPlots[j] != farmPlots[k]
        invariant forall j :: 0 <= j < n ==> farmPlots[j].Record() == if j < i then done[j] else ps1[j]
        invariant (capitalBdt, done) == HarvestAll(c1, ps1[..i], input)
      {
        HarvestAllSnoc(c1, ps1, input, i);
        HarvestPlot(farmPlots[i], step, climate, market);
        done := done + [farmPlots[i].Record()];
        i := i + 1;
      }
      assert ps1[..n] == ps1;
      assert Valid();
    }

    /** Harvests and sells the crop of one plot if it is ripe. */
    method HarvestPlot(plot: FarmPlot, step: int, climate: Snapshot, market: Snapshot)
      modifies this`capitalBdt, plot`currentCrop, plot`cultivationHistory
      ensures (capitalBdt, plot.Record()) == HarvestOne(old(capitalBdt), old(plot.Record()), StepInput(step, climate, market))
    {
      ghost var p0 := plot.Record();
      if plot.currentCrop.Some? && plot.currentCrop.value.growthStage == Some(MaturityStage) {
        var actualYield := plot.currentCrop.value.variety.potentialYieldTHa * YieldFactor(plot.currentCrop.value.stressFactors);
        assert actualYield == RealisedYield(p0.crop.value);
        var harvested := plot.HarvestCrop(HarvestDate(step), actualYield);
        if harvested.Some? {
          var price := PriceFor(market, harvested.value.variety.varietyId);
          var revenue := SaleValue(harvested.value.actualYieldTHa.GetOr(0.0), plot.sizeHa, price);
          capitalBdt := capitalBdt + revenue;
        }
      }
    }
  }

  /** Deciding on one more plot extends the decision pass by one plot. */
  lemma DecideAllSnoc(catalog: seq<Variety>, capital: real, plotCount: nat, ps: seq<PlotRec>, input: StepInput, i: nat)
    requires i < |ps|
    ensures var (c, qs) := DecideAll(catalog, capital, plotCount, ps[..i], input);
            var (c2, q) := DecideOne(catalog, c, plotCount, ps[i], input);
            DecideAll(catalog, capital, plotCount, ps[..i + 1], input) == (c2, qs + [q])
  {
    assert ps[..i + 1][..i] == ps[..i];
  }

  /** Harvesting one more plot extends the harvest pass by one plot. */
  lemma HarvestAllSnoc(capital: real, ps: seq<PlotRec>, input: StepInput, i: nat)
    requires i < |ps|
    ensures var (c, qs) := HarvestAll(capital, ps[..i], input);
            var (c2, q) := HarvestOne(c, ps[i], input);
            HarvestAll(capital, ps[..i + 1], input) == (c2, qs + [q])
  {
    assert ps[..i + 1][..i] == ps[..i];
  }

}
