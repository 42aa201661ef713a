/**
 * Rice seasons, rice varieties and the fixed variety catalog, and the crop
 * that occupies a plot during one cultivation cycle.
 */
module Crops {
  import opened Options

  /** The three mutually exclusive cultivation windows. */
  datatype Season = Aus | Aman | Boro

  /** Attribute key under which a variety records its salinity tolerance. */
  const SalinityToleranceKey: string := "salinity_tolerance_ds_m"

  /** A rice variety. It is never changed after construction, so it is a value. */
  datatype Variety = Variety(
    varietyId: string,
    name: string,
    season: Season,
    isHyv: bool := false,
    isSaltTolerant: bool := false,
    isDroughtTolerant: bool := false,
    isFloodTolerant: bool := false,
    maturityDays: int := 120,
    potentialYieldTHa: real := 5.0,
    waterRequirementMm: int := 1200,
    inputCostsBdtHa: real := 20000.0,
    attributes: map<string, real> := map[])

  /** The salinity a variety tolerates, 0 when its attributes do not say. */
  function SalinityTolerance(v: Variety): real {
    if SalinityToleranceKey in v.attributes then v.attributes[SalinityToleranceKey] else 0.0
  }

  /** The catalog as (key, variety) pairs, in the order the dictionary lists them. */
  const VarietiesData: seq<(string, Variety)> := [
    ("brri_dhan28", Variety("brri_dhan28", "BRRI dhan28", Boro,
                            isHyv := true, potentialYieldTHa := 6.0, maturityDays := 140)),
    ("brri_dhan29", Variety("brri_dhan29", "BRRI dhan29", Boro,
                            isHyv := true, potentialYieldTHa := 7.0, maturityDays := 160)),
    ("brri_dhan47", Variety("brri_dhan47", "BRRI dhan47", Boro,
                            isHyv := true, isSaltTolerant := true, potentialYieldTHa := 5.5, maturityDays := 150,
                            attributes := map[SalinityToleranceKey := 8.0])),
    ("swarna", Variety("swarna", "Swarna (MTU7029)", Aman,
                       isHyv := true, potentialYieldTHa := 5.0, maturityDays := 145)),
    ("pajam", Variety("pajam", "Pajam", Aman,
                      isHyv := false, potentialYieldTHa := 3.5, maturityDays := 150))
  ]

  /** The catalog's varieties in iteration order. */
  function CatalogVarieties(): seq<Variety> {
    seq(|VarietiesData|, i requires 0 <= i < |VarietiesData| => VarietiesData[i].1)
  }

  /** Every catalog key is its variety's identifier, and no key repeats. */
  lemma CatalogKeysAreIds()
    ensures forall i :: 0 <= i < |VarietiesData| ==> VarietiesData[i].0 == VarietiesData[i].1.varietyId
    ensures forall i, j :: 0 <= i < j < |VarietiesData| ==> VarietiesData[i].0 != VarietiesData[j].0
  {
  }

  /** `brri_dhan47` is the only salt-tolerant variety and tolerates 8 dS/m;
      every variety costs the default 20000 BDT/ha and yields at least 3.5 t/ha. */
  lemma CatalogAttributes()
    ensures forall v :: v in CatalogVarieties() ==> (v.isSaltTolerant <==> v.varietyId == "brri_dhan47")
    ensures forall v :: v in CatalogVarieties() && v.varietyId == "brri_dhan47" ==> SalinityTolerance(v) == 8.0
    ensures forall v :: v in CatalogVarieties() ==> v.inputCostsBdtHa == 20000.0 && v.potentialYieldTHa >= 3.5
  {
    assert CatalogVarieties() == [VarietiesData[0].1, VarietiesData[1].1, VarietiesData[2].1,
                                  VarietiesData[3].1, VarietiesData[4].1];
  }

  /** The catalog lists three Boro varieties, then two Aman ones, and none
      for Aus. */
  lemma CatalogSeasons()
    ensures |CatalogVarieties()| == 5
    ensures forall i :: 0 <= i < 3 ==> CatalogVarieties()[i].season == Boro
    ensures forall i :: 3 <= i < 5 ==> CatalogVarieties()[i].season == Aman
    ensures forall v :: v in CatalogVarieties() ==> v.season != Aus
  {
    assert CatalogVarieties() == [VarietiesData[0].1, VarietiesData[1].1, VarietiesData[2].1,
                                  VarietiesData[3].1, VarietiesData[4].1];
  }

  // ---------------------------------------------------------------------
  // Stress factors: a dictionary from stress kind to accumulated magnitude,
  // kept as an association list in insertion order (as Python's dict is).
  // ---------------------------------------------------------------------

  datatype StressEntry = StressEntry(kind: string, level: real)

  /** The kinds present, in insertion order. */
  function Kinds(s: seq<StressEntry>): (r: seq<string>)
    ensures |r| == |s| && forall i :: 0 <= i < |s| ==> r[i] == s[i].kind
  {
    if s == [] then [] else [s[0].kind] + Kinds(s[1..])
  }

  /** No kind occurs twice. */
  predicate DistinctKinds(s: seq<StressEntry>) {
    forall i, j :: 0 <= i < j < |s| ==> s[i].kind != s[j].kind
  }

  /** The accumulated level of one kind, 0 when absent (`dict.get(kind, 0)`). */
  function Level(s: seq<StressEntry>, kind: string): (r: real)
    ensures kind !in Kinds(s) ==> r == 0.0
  {
    if s == [] then 0.0 else if s[0].kind == kind then s[0].level else Level(s[1..], kind)
  }

  /** The sum of all levels, in insertion order. */
  function TotalStress(s: seq<StressEntry>): real {
    if s == [] then 0.0 else s[0].level + TotalStress(s[1..])
  }

  /** `stress[kind] = stress.get(kind, 0) + level`: an existing kind is updated
      in place, a new kind is appended at the end. */
  function Accumulate(s: seq<StressEntry>, kind: string, level: real): (r: seq<StressEntry>)
    ensures Kinds(r) == if kind in Kinds(s) then Kinds(s) else Kinds(s) + [kind]
    ensures DistinctKinds(s) ==> DistinctKinds(r)
    ensures DistinctKinds(s) ==> Level(r, kind) == Level(s, kind) + level
    ensures forall k :: k != kind ==> Level(r, k) == Level(s, k)
  {
    if s == [] then [StressEntry(kind, level)]
    else if s[0].kind == kind then
      var r := [StressEntry(kind, s[0].level + level)] + s[1..];
      assert r[1..] == s[1..];
      assert forall i :: 0 <= i < |r| ==> r[i].kind == s[i].kind;
      assert Kinds(r) == Kinds(s);
      r
    else
      var rest := Accumulate(s[1..], kind, level);
      KindsCons(s, kind, rest);
      assert ([s[0]] + rest)[1..] == rest;
      if DistinctKinds(s) then
        assert DistinctKinds(s[1..]) && s[0].kind !in Kinds(s[1..]);
        DistinctCons(s[0], rest);
        [s[0]] + rest
      else
        [s[0]] + rest
  }

  /** An entry whose kind the rest lacks can be put in front of distinct entries. */
  lemma DistinctCons(e: StressEntry, rest: seq<StressEntry>)
    requires DistinctKinds(rest) && e.kind !in Kinds(rest)
    ensures DistinctKinds([e] + rest)
  {
    var r := [e] + rest;
    forall i, j | 0 <= i < j < |r| ensures r[i].kind != r[j].kind {
      assert r[j] == rest[j - 1];
      if i > 0 {
        assert r[i] == rest[i - 1];
      } else {
        assert Kinds(rest)[j - 1] == rest[j - 1].kind;
      }
    }
  }

  /** Putting back a head entry of another kind keeps the shape of `Kinds`
      that accumulating into the tail produced. */
  lemma KindsCons(s: seq<StressEntry>, kind: string, rest: seq<StressEntry>)
    requires s != [] && s[0].kind != kind
    requires Kinds(rest) == if kind in Kinds(s[1..]) then Kinds(s[1..]) else Kinds(s[1..]) + [kind]
    ensures Kinds([s[0]] + rest) == if kind in Kinds(s) then Kinds(s) else Kinds(s) + [kind]
  {
    assert Kinds(s) == [s[0].kind] + Kinds(s[1..]);
    assert Kinds([s[0]] + rest) == [s[0].kind] + Kinds(rest);
    assert kind in Kinds(s) <==> kind in Kinds(s[1..]);
    if kind !in Kinds(s[1..]) {
      assert [s[0].kind] + (Kinds(s[1..]) + [kind]) == ([s[0].kind] + Kinds(s[1..])) + [kind];
    }
  }

  /** Accumulating `level` raises the total stress by exactly `level`. */
  lemma {:induction false} AccumulateTotal(s: seq<StressEntry>, kind: string, level: real)
    ensures TotalStress(Accumulate(s, kind, level)) == TotalStress(s) + level
  {
    if s != [] && s[0].kind != kind {
      AccumulateTotal(s[1..], kind, level);
      assert Accumulate(s, kind, level) == [s[0]] + Accumulate(s[1..], kind, level);
    }
  }

  /** The state of a crop, as a value. */
  datatype CropRec = CropRec(
    variety: Variety,
    plantingDate: Option<string>,
    harvestDate: Option<string>,
    growthStage: Option<string>,
    healthStatus: real,
    actualYieldTHa: Option<real>,
    stressFactors: seq<StressEntry>)

  /** A crop being grown on a plot in a given season. */
  class Crop {
    const variety: Variety
    var plantingDate: Option<string>
    var harvestDate: Option<string>
    var currentGrowthStage: Option<string>
    var healthStatus: real
    var actualYieldTHa: Option<real>
    var stressFactors: seq<StressEntry>

    ghost predicate Valid()
      reads this
    {
      DistinctKinds(stressFactors)
    }

    /** All fields of the crop, as a value. */
    function Record(): CropRec
      reads this
    {
      CropRec(variety, plantingDate, harvestDate, currentGrowthStage, healthStatus, actualYieldTHa, stressFactors)
    }

    /** A new crop: no stress, no growth stage, full health. */
    constructor (variety: Variety, plantingDate: Option<string> := None,
                 harvestDate: Option<string> := None, actualYieldTHa: Option<real> := None)
      ensures Valid()
      ensures Record() == CropRec(variety, plantingDate, harvestDate, None, 1.0, actualYieldTHa, [])
    {
      this.variety := variety;
      this.plantingDate := plantingDate;
      this.harvestDate := harvestDate;
      this.currentGrowthStage := None;
      this.healthStatus := 1.0;
      this.actualYieldTHa := actualYieldTHa;
      this.stressFactors := [];
    }

    /** Adds `level` to the stress of one kind; health and stage are left as they are. */
    method ApplyStress(kind: string, level: real)
      requires Valid()
      modifies this`stressFactors
      ensures Valid()
      ensures stressFactors == Accumulate(old(stressFactors), kind, level)
      ensures Level(stressFactors, kind) == Level(old(stressFactors), kind) + level
      ensures forall k :: k != kind ==> Level(stressFactors, k) == Level(old(stressFactors), k)
      ensures TotalStress(stressFactors) == TotalStress(old(stressFactors)) + level
    {
      AccumulateTotal(stressFactors, kind, level);
      stressFactors := Accumulate(stressFactors, kind, level);
    }
  }
}
