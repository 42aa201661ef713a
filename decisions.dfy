/**
 * The farmer's decision model as pure functions: the season of a step,
 * variety selection, and what one step's decision pass and harvest pass do
 * to a farmer's capital and plots. The imperative farmer agent is proved
 * to follow these functions.
 */
module Decisions {
  import opened Options
  import opened Crops
  import opened FarmPlots
  import opened Snapshots

  /** Outlook salinity above which salt-tolerant varieties are preferred (dS/m). */
  const SalinityThreshold: real := 4.0
  /** Price per ton used when the market snapshot does not list a variety. */
  const DefaultPricePerTon: real := 30000.0
  /** The only growth stage at which a crop is harvested. */
  const MaturityStage: string := "maturity_reached_placeholder"
  const SalinityOutlookKey: string := "avg_salinity_ds_m"
  const PriceTableKey: string := "rice_price_bdt_ton"

  // ---------------------------------------------------------------------
  // Seasons
  // ---------------------------------------------------------------------

  /** The season of a simulation step: the step index modulo 3. */
  function SeasonForStep(step: int): (s: Season)
    ensures s == Aus <==> step % 3 == 0
    ensures s == Aman <==> step % 3 == 1
    ensures s == Boro <==> step % 3 == 2
  {
    if step % 3 == 0 then Aus else if step % 3 == 1 then Aman else Boro
  }

  function NextSeason(s: Season): Season {
    match s
    case Aus => Aman
    case Aman => Boro
    case Boro => Aus
  }

  /** Seasons rotate Aus, Aman, Boro, Aus, ... from one step to the next. */
  lemma SeasonRotation(step: int)
    ensures SeasonForStep(step + 1) == NextSeason(SeasonForStep(step))
    ensures SeasonForStep(step + 3) == SeasonForStep(step)
  {
  }

  // ---------------------------------------------------------------------
  // Variety selection
  // ---------------------------------------------------------------------

  /** The three candidate lists the selection builds: all varieties of the
      season, the salt-tolerant ones that tolerate the outlook, and the
      affordable high-yielding ones. */
  datatype Tier = AnyTier | SaltTier | HyvTier

  predicate Eligible(t: Tier, v: Variety, season: Season, salinity: real, budget: real) {
    v.season == season &&
    match t
    case AnyTier => true
    case SaltTier => v.isSaltTolerant && SalinityTolerance(v) >= salinity
    case HyvTier => v.isHyv && v.inputCostsBdtHa <= budget
  }

  /** The list comprehension: the eligible varieties, in order. */
  function Candidates(vs: seq<Variety>, t: Tier, season: Season, salinity: real, budget: real): seq<Variety>
  {
    if vs == [] then []
    else (if Eligible(t, vs[0], season, salinity, budget) then [vs[0]] else [])
         + Candidates(vs[1..], t, season, salinity, budget)
  }

  /** A variety is a candidate exactly when it is in the list and eligible. */
  lemma {:induction false} CandidatesMembers(vs: seq<Variety>, t: Tier, season: Season, salinity: real, budget: real)
    ensures forall v :: v in Candidates(vs, t, season, salinity, budget) <==> v in vs && Eligible(t, v, season, salinity, budget)
  {
    if vs != [] {
      CandidatesMembers(vs[1..], t, season, salinity, budget);
      assert forall v :: v in vs <==> v == vs[0] || v in vs[1..];
    }
  }

  /** The comprehension keeps the list's order: the candidates of two lists
      one after the other are the candidates of the first, then those of the
      second. */
  lemma {:induction false} CandidatesAppend(xs: seq<Variety>, ys: seq<Variety>, t: Tier, season: Season,
                                            salinity: real, budget: real)
    ensures Candidates(xs + ys, t, season, salinity, budget)
            == Candidates(xs, t, season, salinity, budget) + Candidates(ys, t, season, salinity, budget)
    decreases |xs|
  {
    if xs == [] {
      assert xs + ys == ys;
    } else {
      var zs := xs + ys;
      assert zs[0] == xs[0] && zs[1..] == xs[1..] + ys;
      CandidatesCons(zs, t, season, salinity, budget);
      CandidatesCons(xs, t, season, salinity, budget);
      CandidatesAppend(xs[1..], ys, t, season, salinity, budget);
      var head := if Eligible(t, xs[0], season, salinity, budget) then [xs[0]] else [];
      assert head + (Candidates(xs[1..], t, season, salinity, budget) + Candidates(ys, t, season, salinity, budget))
             == (head + Candidates(xs[1..], t, season, salinity, budget)) + Candidates(ys, t, season, salinity, budget);
    }
  }

  /** One step of the comprehension: the head's contribution, then the rest's. */
  lemma CandidatesCons(zs: seq<Variety>, t: Tier, season: Season, salinity: real, budget: real)
    requires zs != []
    ensures Candidates(zs, t, season, salinity, budget)
            == (if Eligible(t, zs[0], season, salinity, budget) then [zs[0]] else [])
               + Candidates(zs[1..], t, season, salinity, budget)
  {
  }

  /** A variety added at the end of the list becomes the last candidate
      exactly when it is eligible; the earlier candidates stay as they were. */
  lemma CandidatesSnoc(xs: seq<Variety>, v: Variety, t: Tier, season: Season, salinity: real, budget: real)
    ensures Candidates(xs + [v], t, season, salinity, budget)
            == Candidates(xs, t, season, salinity, budget)
               + (if Eligible(t, v, season, salinity, budget) then [v] else [])
  {
    CandidatesAppend(xs, [v], t, season, salinity, budget);
    assert [v][1..] == [];
  }

  /** Where `max(vs, key=potential yield)` finds its result: scanning left to
      right, a later variety replaces the best so far only when it yields
      strictly more, so this is the first position of maximal yield. */
  function MaxIndex(vs: seq<Variety>): (i: nat)
    requires vs != []
    ensures i < |vs|
    ensures forall j :: 0 <= j < |vs| ==> vs[j].potentialYieldTHa <= vs[i].potentialYieldTHa
    ensures forall j :: 0 <= j < i ==> vs[j].potentialYieldTHa < vs[i].potentialYieldTHa
    decreases |vs|
  {
    if |vs| == 1 then 0
    else
      var k := MaxIndex(vs[..|vs| - 1]);
      if vs[|vs| - 1].potentialYieldTHa > vs[k].potentialYieldTHa then |vs| - 1 else k
  }

  /** `max(vs, key=potential yield)`: the first variety of maximal yield. */
  function MaxYield(vs: seq<Variety>): (r: Variety)
    requires vs != []
    ensures FirstBest(vs, r)
  {
    var i := MaxIndex(vs);
    assert forall j :: 0 <= j < i ==> vs[j].potentialYieldTHa < vs[i].potentialYieldTHa;
    vs[i]
  }

  /** `r` is a variety of maximal yield in `vs`, and every variety before its
      first occurrence yields strictly less. */
  predicate FirstBest(vs: seq<Variety>, r: Variety) {
    (forall v :: v in vs ==> v.potentialYieldTHa <= r.potentialYieldTHa) &&
    exists i :: 0 <= i < |vs| && vs[i] == r &&
      forall j :: 0 <= j < i ==> vs[j].potentialYieldTHa < r.potentialYieldTHa
  }

  /** Filtering the season's candidates again by a tier is filtering by that tier. */
  lemma {:induction false} CandidatesOfSeason(vs: seq<Variety>, t: Tier, season: Season, salinity: real, budget: real)
    ensures Candidates(Candidates(vs, AnyTier, season, salinity, budget), t, season, salinity, budget)
         == Candidates(vs, t, season, salinity, budget)
  {
    if vs != [] {
      CandidatesOfSeason(vs[1..], t, season, salinity, budget);
      var a := Candidates(vs[1..], AnyTier, season, salinity, budget);
      if vs[0].season == season {
        var s := [vs[0]] + a;
        assert Candidates(vs, AnyTier, season, salinity, budget) == s;
        assert s[0] == vs[0] && s[1..] == a;
      } else {
        assert !Eligible(t, vs[0], season, salinity, budget);
        assert Candidates(vs, AnyTier, season, salinity, budget) == a;
      }
    }
  }

  /** The money available per plot: capital shared evenly, or all of it when there are no plots. */
  function Budget(capital: real, plotCount: nat): real {
    if plotCount > 0 then capital / plotCount as real else capital
  }

  /** The salinity branch applies: the outlook exceeds the threshold and some
      salt-tolerant variety of the season tolerates it. */
  predicate SaltBranch(catalog: seq<Variety>, season: Season, salinity: real, budget: real) {
    salinity > SalinityThreshold && exists v :: v in catalog && Eligible(SaltTier, v, season, salinity, budget)
  }

  /** Some high-yielding variety of the season is affordable with the budget. */
  predicate HyvAffordable(catalog: seq<Variety>, season: Season, salinity: real, budget: real) {
    exists v :: v in catalog && Eligible(HyvTier, v, season, salinity, budget)
  }

  /** Chooses the variety to plant: the best salt-tolerant one under a high
      salinity outlook, else the best affordable high-yielding one, else the
      best of the season; ties go to the one listed first. */
  function SelectRiceVariety(catalog: seq<Variety>, season: Season, predictedSalinity: real,
                             capital: real, plotCount: nat): (r: Option<Variety>)
    ensures r.None? <==> forall v :: v in catalog ==> v.season != season
    ensures r.Some? ==> r.value in catalog && r.value.season == season
    ensures SaltBranch(catalog, season, predictedSalinity, Budget(capital, plotCount)) ==>
              r.Some? && FirstBest(Candidates(catalog, SaltTier, season, predictedSalinity, Budget(capital, plotCount)), r.value)
    ensures !SaltBranch(catalog, season, predictedSalinity, Budget(capital, plotCount)) &&
            HyvAffordable(catalog, season, predictedSalinity, Budget(capital, plotCount)) ==>
              r.Some? && FirstBest(Candidates(catalog, HyvTier, season, predictedSalinity, Budget(capital, plotCount)), r.value)
    ensures !SaltBranch(catalog, season, predictedSalinity, Budget(capital, plotCount)) &&
            !HyvAffordable(catalog, season, predictedSalinity, Budget(capital, plotCount)) && r.Some? ==>
              FirstBest(Candidates(catalog, AnyTier, season, predictedSalinity, Budget(capital, plotCount)), r.value)
  {
    var budget := Budget(capital, plotCount);
    var available := Candidates(catalog, AnyTier, season, predictedSalinity, budget);
    CandidatesMembers(catalog, AnyTier, season, predictedSalinity, budget);
    CandidatesMembers(catalog, SaltTier, season, predictedSalinity, budget);
    CandidatesMembers(catalog, HyvTier, season, predictedSalinity, budget);
    if available == [] then
      assert forall v :: v in catalog ==> v.season != season by {
        forall v | v in catalog ensures v.season != season {
          assert v !in available;
        }
      }
      None
    else
      assert available[0] in catalog && available[0].season == season;
      var salt := Candidates(available, SaltTier, season, predictedSalinity, budget);
      CandidatesOfSeason(catalog, SaltTier, season, predictedSalinity, budget);
      if predictedSalinity > SalinityThreshold && salt != [] then
        Some(MaxYield(salt))
      else
        var hyv := Candidates(available, HyvTier, season, predictedSalinity, budget);
        CandidatesOfSeason(catalog, HyvTier, season, predictedSalinity, budget);
        if hyv != [] then
          Some(MaxYield(hyv))
        else
          Some(MaxYield(available))
  }

  /** With the crop catalog, an Aus step finds no variety to plant, while an
      Aman or Boro step always finds one. */
  lemma CatalogSelection(step: int, predictedSalinity: real, capital: real, plotCount: nat)
    ensures SelectRiceVariety(CatalogVarieties(), SeasonForStep(step), predictedSalinity, capital, plotCount).None?
            <==> step % 3 == 0
  {
    CatalogSeasons();
    var season := SeasonForStep(step);
    if season != Aus {
      var k := if season == Boro then 0 else 3;
      assert CatalogVarieties()[k] in CatalogVarieties() && CatalogVarieties()[k].season == season;
    }
  }

  // ---------------------------------------------------------------------
  // Outlooks, prices and dates read from the step's snapshots
  // ---------------------------------------------------------------------

  /** `climate_conditions.get(plot_id, {}).get('avg_salinity_ds_m', 0)`. */
  function SalinityOutlook(climate: Snapshot, plotId: string): real {
    FlatReading(climate, plotId, SalinityOutlookKey, 0.0)
  }

  /** `market_conditions.get('rice_price_bdt_ton', {}).get(variety_id, 30000)`. */
  function PriceFor(market: Snapshot, varietyId: string): real {
    FlatReading(market, PriceTableKey, varietyId, DefaultPricePerTon)
  }

  function DigitChar(d: nat): char
    requires d < 10
  {
    ('0' as int + d) as char
  }

  /** Quotient and remainder of `n` by ten, by repeated subtraction. */
  function DivMod10(n: nat): (r: (nat, nat))
    ensures n == 10 * r.0 + r.1 && r.1 < 10
    decreases n
  {
    if n < 10 then (0, n) else var (q, d) := DivMod10(n - 10); (q + 1, d)
  }

  /** Decimal rendering of an integer, as `str` prints it. */
  function IntToString(i: int): (r: string)
    ensures |r| >= 1
    decreases if i < 0 then 1 - i else i
  {
    if i < 0 then "-" + IntToString(-i)
    else if i < 10 then [DigitChar(i)]
    else
      var (q, d) := DivMod10(i);
      IntToString(q) + [DigitChar(d)]
  }

  /** The quotient and remainder are those of Euclidean division. */
  lemma DivMod10Euclid(n: nat)
    ensures DivMod10(n) == (n / 10, n % 10)
  {
    var (q, d) := DivMod10(n);
    assert n == 10 * q + d && 0 <= d < 10;
  }

  /** The planting date label of a step: "Day <10 * step>". */
  function PlantingDate(step: int): string {
    "Day " + IntToString(step * 10)
  }

  /** The harvest date label of a step: "Day <10 * step + 100>". */
  function HarvestDate(step: int): string {
    "Day " + IntToString(step * 10 + 100)
  }

  // ---------------------------------------------------------------------
  // One farmer step, as a function of the farmer's state
  // ---------------------------------------------------------------------

  /** The conditions given to every agent in a step. */
  datatype StepInput = StepInput(step: int, climate: Snapshot, market: Snapshot)

  /** A farmer's capital and the states of its plots, in order. */
  datatype FarmerState = FarmerState(capital: real, plots: seq<PlotRec>)

  /** The input costs of growing a variety on a plot of the given size. */
  function InputCost(v: Variety, sizeHa: real): real {
    v.inputCostsBdtHa * sizeHa
  }

  /** The decision pass on one plot: an empty plot gets the selected variety
      if the farmer can pay its input costs for the whole plot. The capital
      is debited whatever `plant_crop` reports. */
  function DecideOne(catalog: seq<Variety>, capital: real, plotCount: nat, p: PlotRec, input: StepInput): (real, PlotRec) {
    if p.crop.Some? then (capital, p)
    else
      var season := SeasonForStep(input.step);
      var selected := SelectRiceVariety(catalog, season, SalinityOutlook(input.climate, p.plotId), capital, plotCount);
      if selected.None? then (capital, p)
      else
        var cost := InputCost(selected.value, p.sizeHa);
        if capital >= cost then
          var (_, q) := PlantSpec(p, selected.value, PlantingDate(input.step), season);
          (capital - cost, q)
        else (capital, p)
  }

  /** The decision pass over the plots in order, threading the capital. */
  function DecideAll(catalog: seq<Variety>, capital: real, plotCount: nat, ps: seq<PlotRec>, input: StepInput): (r: (real, seq<PlotRec>))
    ensures |r.1| == |ps|
    decreases |ps|
  {
    if ps == [] then (capital, [])
    else
      var (c, qs) := DecideAll(catalog, capital, plotCount, ps[..|ps| - 1], input);
      var (c2, q) := DecideOne(catalog, c, plotCount, ps[|ps| - 1], input);
      (c2, qs + [q])
  }

  /** A crop is sold when it has reached the maturity stage. */
  predicate Ripe(p: PlotRec) {
    p.crop.Some? && p.crop.value.growthStage == Some(MaturityStage)
  }

  /** `max(0, 1 - sum of stress levels)`. */
  function YieldFactor(stress: seq<StressEntry>): (r: real)
    ensures r >= 0.0 && r >= 1.0 - TotalStress(stress)
    ensures r == 0.0 || r == 1.0 - TotalStress(stress)
  {
    var f := 1.0 - TotalStress(stress);
    if f > 0.0 then f else 0.0
  }

  /** The yield a crop realises at harvest (t/ha). */
  function RealisedYield(c: CropRec): real {
    c.variety.potentialYieldTHa * YieldFactor(c.stressFactors)
  }

  /** The revenue of selling a yield (t/ha) from a plot of the given size at a price per ton. */
  function SaleValue(yieldTHa: real, sizeHa: real, pricePerTon: real): real {
    yieldTHa * sizeHa * pricePerTon
  }

  /** The harvest pass on one plot: a ripe crop is harvested and sold. */
  function HarvestOne(capital: real, p: PlotRec, input: StepInput): (real, PlotRec) {
    if Ripe(p) then
      var (harvested, q) := HarvestSpec(p, HarvestDate(input.step), RealisedYield(p.crop.value));
      if harvested.Some? && harvested.value.actualYieldTHa.Some? then
        var price := PriceFor(input.market, harvested.value.variety.varietyId);
        (capital + SaleValue(harvested.value.actualYieldTHa.value, p.sizeHa, price), q)
      else (capital, q)
    else (capital, p)
  }

  /** The harvest pass over the plots in order. */
  function HarvestAll(capital: real, ps: seq<PlotRec>, input: StepInput): (r: (real, seq<PlotRec>))
    ensures |r.1| == |ps|
    decreases |ps|
  {
    if ps == [] then (capital, [])
    else
      var (c, qs) := HarvestAll(capital, ps[..|ps| - 1], input);
      var (c2, q) := HarvestOne(c, ps[|ps| - 1], input);
      (c2, qs + [q])
  }

  /** One farmer step: decisions on every plot, then the harvest. The plot
      condition update is a no-op and does not appear. */
  function FarmerStep(catalog: seq<Variety>, st: FarmerState, input: StepInput): FarmerState {
    var (c1, ps1) := DecideAll(catalog, st.capital, |st.plots|, st.plots, input);
    var (c2, ps2) := HarvestAll(c1, ps1, input);
    FarmerState(c2, ps2)
  }

  // ---------------------------------------------------------------------
  // What a step does, stated independently of how it is computed
  // ---------------------------------------------------------------------

  /** The plot either stays as it was, or was empty and now carries a fresh
      crop of a catalog variety of the step's season. */
  predicate PlotDecision(catalog: seq<Variety>, p: PlotRec, q: PlotRec, step: int) {
    q == p ||
    (p.crop.None? && q.crop.Some? && q == p.(crop := q.crop) &&
     var v := q.crop.value.variety;
     v in catalog && v.season == SeasonForStep(step) && q.crop.value == FreshCrop(v, PlantingDate(step)))
  }

  /** The cost term `PlantedCost` adds for one plot. */
  function PlotCost(p: PlotRec, q: PlotRec): real {
    if p.crop.None? && q.crop.Some? then InputCost(q.crop.value.variety, p.sizeHa) else 0.0
  }

  /** The revenue term `Revenue` adds for one plot. */
  function PlotRevenue(p: PlotRec, market: Snapshot): real {
    if Ripe(p) then SaleValue(RealisedYield(p.crop.value), p.sizeHa, PriceFor(market, p.crop.value.variety.varietyId)) else 0.0
  }

  /** Input costs paid for the plots that were empty before and planted after. */
  function PlantedCost(ps: seq<PlotRec>, qs: seq<PlotRec>): real
    requires |ps| == |qs|
    decreases |ps|
  {
    if ps == [] then 0.0
    else
      PlantedCost(ps[..|ps| - 1], qs[..|qs| - 1]) + PlotCost(ps[|ps| - 1], qs[|qs| - 1])
  }

  /** Income from the ripe crops of `ps`: realised yield times size times price. */
  function Revenue(ps: seq<PlotRec>, market: Snapshot): real
    decreases |ps|
  {
    if ps == [] then 0.0
    else
      Revenue(ps[..|ps| - 1], market) + PlotRevenue(ps[|ps| - 1], market)
  }

  /** The selected variety always suits the season, so the planting that the
      decision pass does not check never reports failure. */
  lemma PlantNeverRefused(catalog: seq<Variety>, capital: real, plotCount: nat, p: PlotRec, input: StepInput)
    requires p.crop.None?
    requires SelectRiceVariety(catalog, SeasonForStep(input.step), SalinityOutlook(input.climate, p.plotId), capital, plotCount).Some?
    ensures PlantSpec(p, SelectRiceVariety(catalog, SeasonForStep(input.step), SalinityOutlook(input.climate, p.plotId), capital, plotCount).value,
                      PlantingDate(input.step), SeasonForStep(input.step)).0
  {
  }

  /** The decision on one plot plants only an empty plot, with a variety of
      the season, and pays exactly its input costs out of capital that covers them. */
  lemma DecideOneEffect(catalog: seq<Variety>, capital: real, plotCount: nat, p: PlotRec, input: StepInput)
    ensures PlotDecision(catalog, p, DecideOne(catalog, capital, plotCount, p, input).1, input.step)
    ensures DecideOne(catalog, capital, plotCount, p, input).0 == capital - PlotCost(p, DecideOne(catalog, capital, plotCount, p, input).1)
    ensures capital >= 0.0 ==> DecideOne(catalog, capital, plotCount, p, input).0 >= 0.0
  {
    var season := SeasonForStep(input.step);
    var selected := SelectRiceVariety(catalog, season, SalinityOutlook(input.climate, p.plotId), capital, plotCount);
    if p.crop.None? && selected.Some? && capital >= InputCost(selected.value, p.sizeHa) {
      var v := selected.value;
      assert v in catalog && v.season == season;
      assert DecideOne(catalog, capital, plotCount, p, input).1 == p.(crop := Some(FreshCrop(v, PlantingDate(input.step))));
    } else {
      assert DecideOne(catalog, capital, plotCount, p, input) == (capital, p);
    }
  }

  /** The variety the decision pass selects for plot `p`. */
  function SelectionFor(catalog: seq<Variety>, capital: real, plotCount: nat, p: PlotRec, input: StepInput): Option<Variety> {
    SelectRiceVariety(catalog, SeasonForStep(input.step), SalinityOutlook(input.climate, p.plotId), capital, plotCount)
  }

  /** An empty plot whose selected variety is affordable is planted and paid for. */
  lemma DecideOnePlants(catalog: seq<Variety>, capital: real, plotCount: nat, p: PlotRec, input: StepInput)
    requires p.crop.None?
    requires SelectionFor(catalog, capital, plotCount, p, input).Some?
    requires capital >= InputCost(SelectionFor(catalog, capital, plotCount, p, input).value, p.sizeHa)
    ensures var v := SelectionFor(catalog, capital, plotCount, p, input).value;
            DecideOne(catalog, capital, plotCount, p, input) ==
              (capital - InputCost(v, p.sizeHa), PlantSpec(p, v, PlantingDate(input.step), SeasonForStep(input.step)).1)
  {
    var season := SeasonForStep(input.step);
    var selected := SelectRiceVariety(catalog, season, SalinityOutlook(input.climate, p.plotId), capital, plotCount);
    assert selected == SelectionFor(catalog, capital, plotCount, p, input);
    var cost := InputCost(selected.value, p.sizeHa);
    assert DecideOne(catalog, capital, plotCount, p, input) ==
             (capital - cost, PlantSpec(p, selected.value, PlantingDate(input.step), season).1);
  }

  /** An occupied plot, a plot with nothing to select, or an unaffordable
      selection leaves plot and capital as they are. */
  lemma DecideOneKeeps(catalog: seq<Variety>, capital: real, plotCount: nat, p: PlotRec, input: StepInput)
    requires p.crop.Some? || SelectionFor(catalog, capital, plotCount, p, input).None? ||
             capital < InputCost(SelectionFor(catalog, capital, plotCount, p, input).value, p.sizeHa)
    ensures DecideOne(catalog, capital, plotCount, p, input) == (capital, p)
  {
  }

  /** The decision pass plants only empty plots, with varieties of the
      season, pays exactly the input costs of what it plants, and never
      spends more than the farmer has. */
  lemma {:induction false} DecideAllEffect(catalog: seq<Variety>, capital: real, plotCount: nat, ps: seq<PlotRec>, input: StepInput)
    ensures var (c, qs) := DecideAll(catalog, capital, plotCount, ps, input);
            |qs| == |ps| &&
            (forall j :: 0 <= j < |ps| ==> PlotDecision(catalog, ps[j], qs[j], input.step)) &&
            c == capital - PlantedCost(ps, qs) &&
            (capital >= 0.0 ==> c >= 0.0)
  {
    if ps != [] {
      var init := ps[..|ps| - 1];
      var last := ps[|ps| - 1];
      DecideAllEffect(catalog, capital, plotCount, init, input);
      var r := DecideAll(catalog, capital, plotCount, init, input);
      DecideOneEffect(catalog, r.0, plotCount, last, input);
      var r2 := DecideOne(catalog, r.0, plotCount, last, input);
      DecidedSnoc(catalog, capital, init, last, r.0, r.1, r2.0, r2.1, input.step);
      assert ps == init + [last];
      assert DecideAll(catalog, capital, plotCount, ps, input) == (r2.0, r.1 + [r2.1]);
    }
  }

  /** The facts of the decision pass carry over from `init` to one more plot. */
  lemma DecidedSnoc(catalog: seq<Variety>, capital: real, init: seq<PlotRec>, last: PlotRec,
                    c: real, qs: seq<PlotRec>, c2: real, q: PlotRec, step: int)
    requires |qs| == |init| && forall j :: 0 <= j < |init| ==> PlotDecision(catalog, init[j], qs[j], step)
    requires c == capital - PlantedCost(init, qs) && (capital >= 0.0 ==> c >= 0.0)
    requires PlotDecision(catalog, last, q, step) && c2 == c - PlotCost(last, q) && (c >= 0.0 ==> c2 >= 0.0)
    ensures var ps, out := init + [last], qs + [q];
            |out| == |ps| && (forall j :: 0 <= j < |ps| ==> PlotDecision(catalog, ps[j], out[j], step)) &&
            c2 == capital - PlantedCost(ps, out) && (capital >= 0.0 ==> c2 >= 0.0)
  {
    var ps, out := init + [last], qs + [q];
    assert ps[..|ps| - 1] == init && out[..|out| - 1] == qs;
    forall j | 0 <= j < |ps| ensures PlotDecision(catalog, ps[j], out[j], step) {
      if j < |init| {
        assert ps[j] == init[j] && out[j] == qs[j];
      }
    }
  }


  /** The harvest on one plot clears and records a ripe crop and sells it;
      any other plot is left as it was. */
  lemma HarvestOneEffect(capital: real, p: PlotRec, input: StepInput)
    ensures var (c, q) := HarvestOne(capital, p, input);
            c == capital + PlotRevenue(p, input.market) &&
            (!Ripe(p) ==> q == p) &&
            (Ripe(p) ==> q == p.(crop := None,
                                 history := p.history + [EntryFor(p.crop.value, HarvestDate(input.step), RealisedYield(p.crop.value))]))
  {
  }

  /** What the harvest pass makes of a plot. */
  function Harvested(p: PlotRec, step: int): PlotRec {
    if Ripe(p) then p.(crop := None, history := p.history + [EntryFor(p.crop.value, HarvestDate(step), RealisedYield(p.crop.value))])
    else p
  }

  /** The harvest pass clears and records exactly the ripe crops, leaves the
      other plots as they were, and adds the revenue of the ripe crops. */
  lemma {:induction false} HarvestAllEffect(capital: real, ps: seq<PlotRec>, input: StepInput)
    ensures var (c, qs) := HarvestAll(capital, ps, input);
            |qs| == |ps| &&
            (forall j :: 0 <= j < |ps| ==> qs[j] == Harvested(ps[j], input.step)) &&
            c == capital + Revenue(ps, input.market)
  {
    if ps != [] {
      var init := ps[..|ps| - 1];
      var last := ps[|ps| - 1];
      HarvestAllEffect(capital, init, input);
      var (c, qs) := HarvestAll(capital, init, input);
      HarvestOneEffect(c, last, input);
      var (c2, q) := HarvestOne(c, last, input);
      var out := qs + [q];
      assert HarvestAll(capital, ps, input) == (c2, out);
      assert Revenue(ps, input.market) == Revenue(init, input.market) + PlotRevenue(last, input.market);
      forall j | 0 <= j < |ps| ensures out[j] == Harvested(ps[j], input.step) {
        if j < |ps| - 1 {
          assert ps[j] == init[j] && out[j] == qs[j];
        }
      }
    }
  }

  /** No plot holds a ripe crop. */
  predicate NoneRipe(ps: seq<PlotRec>) {
    forall j :: 0 <= j < |ps| ==> !Ripe(ps[j])
  }

  /** Crops planted in the decision pass are never ripe, so the plots sold in
      a step are exactly the plots that were ripe when it began. */
  lemma DecisionKeepsRipeness(catalog: seq<Variety>, capital: real, plotCount: nat, ps: seq<PlotRec>, input: StepInput)
    ensures var qs := DecideAll(catalog, capital, plotCount, ps, input).1;
            |qs| == |ps| && forall j :: 0 <= j < |ps| ==> (Ripe(qs[j]) <==> Ripe(ps[j]))
  {
    DecideAllEffect(catalog, capital, plotCount, ps, input);
  }

  /** With no ripe crop, a step sells nothing: histories, ripeness and the
      capital are what the decision pass left. */
  lemma {:induction false} NothingToHarvest(catalog: seq<Variety>, st: FarmerState, input: StepInput)
    requires NoneRipe(st.plots)
    ensures var r := FarmerStep(catalog, st, input);
            |r.plots| == |st.plots| && NoneRipe(r.plots) &&
            r.capital == st.capital - PlantedCost(st.plots, r.plots) &&
            forall j :: 0 <= j < |st.plots| ==> r.plots[j].history == st.plots[j].history
  {
    var d := DecideAll(catalog, st.capital, |st.plots|, st.plots, input);
    DecideAllEffect(catalog, st.capital, |st.plots|, st.plots, input);
    DecisionKeepsRipeness(catalog, st.capital, |st.plots|, st.plots, input);
    HarvestAllEffect(d.0, d.1, input);
    NoRevenue(d.1, input.market);
    assert HarvestAll(d.0, d.1, input).1 == d.1;
  }

  lemma {:induction false} NoRevenue(ps: seq<PlotRec>, market: Snapshot)
    requires NoneRipe(ps)
    ensures Revenue(ps, market) == 0.0
  {
    if ps != [] {
      NoRevenue(ps[..|ps| - 1], market);
    }
  }

  /** Plot sizes, potential yields of the crops grown and prices are not negative. */
  predicate Nonnegative(ps: seq<PlotRec>, market: Snapshot) {
    forall j :: 0 <= j < |ps| ==>
      ps[j].sizeHa >= 0.0 &&
      (ps[j].crop.Some? ==> ps[j].crop.value.variety.potentialYieldTHa >= 0.0 &&
                            PriceFor(market, ps[j].crop.value.variety.varietyId) >= 0.0)
  }

  lemma {:induction false} RevenueNonnegative(ps: seq<PlotRec>, market: Snapshot)
    requires Nonnegative(ps, market)
    ensures Revenue(ps, market) >= 0.0
  {
    if ps != [] {
      var p := ps[|ps| - 1];
      RevenueNonnegative(ps[..|ps| - 1], market);
      if Ripe(p) {
        var c := p.crop.value;
        assert c.variety.potentialYieldTHa * YieldFactor(c.stressFactors) >= 0.0;
        assert RealisedYield(c) * p.sizeHa >= 0.0;
        assert SaleValue(RealisedYield(c), p.sizeHa, PriceFor(market, c.variety.varietyId)) >= 0.0;
      }
    }
  }

  /** A farmer never goes into debt in a step: capital that starts
      non-negative stays non-negative. */
  lemma StepKeepsCapitalNonnegative(catalog: seq<Variety>, st: FarmerState, input: StepInput)
    requires st.capital >= 0.0
    requires Nonnegative(st.plots, input.market)
    ensures FarmerStep(catalog, st, input).capital >= 0.0
  {
    var d := DecideAll(catalog, st.capital, |st.plots|, st.plots, input);
    DecideAllEffect(catalog, st.capital, |st.plots|, st.plots, input);
    DecisionKeepsRipeness(catalog, st.capital, |st.plots|, st.plots, input);
    HarvestAllEffect(d.0, d.1, input);
    RipeNonnegative(st.plots, d.1, input.market);
    RevenueNonnegative(Ripened(d.1), input.market);
    RevenueOfRipened(d.1, input.market);
  }

  /** The plots with their unripe crops removed: only these earn revenue. */
  function Ripened(ps: seq<PlotRec>): (r: seq<PlotRec>)
    ensures |r| == |ps|
    ensures forall j :: 0 <= j < |ps| ==> r[j] == if Ripe(ps[j]) then ps[j] else ps[j].(crop := None)
  {
    seq(|ps|, j requires 0 <= j < |ps| => if Ripe(ps[j]) then ps[j] else ps[j].(crop := None))
  }

  lemma {:induction false} RevenueOfRipened(ps: seq<PlotRec>, market: Snapshot)
    ensures Revenue(Ripened(ps), market) == Revenue(ps, market)
  {
    if ps != [] {
      RevenueOfRipened(ps[..|ps| - 1], market);
      assert Ripened(ps)[..|ps| - 1] == Ripened(ps[..|ps| - 1]);
    }
  }

  lemma RipeNonnegative(ps: seq<PlotRec>, qs: seq<PlotRec>, market: Snapshot)
    requires Nonnegative(ps, market)
    requires |qs| == |ps|
    requires forall j :: 0 <= j < |ps| ==> qs[j].sizeHa == ps[j].sizeHa && (Ripe(qs[j]) ==> qs[j] == ps[j])
    ensures Nonnegative(Ripened(qs), market)
  {
  }
}
