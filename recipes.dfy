/**
 * The recipe catalogue of the production planner (dsp_recipes.py): the table
 * of recipes, the rank that makes it well founded, and the substitution of
 * rare-material variants.
 */
module Recipes {

  datatype Option<+T> = None | Some(value: T)

  /**
   * An item name. Every name the source spells out has a constant here (the
   * source's "iron_ingot" is IronIngot), numbered so that the table's keys
   * come first and the names each counter dictionary of dsp.py holds are
   * consecutive. Every other code stands for a name the catalogue does not
   * know.
   */
  newtype Item = int

  // the table's keys with a counter in smelter
  const Magnet: Item := 0
  const IronIngot: Item := 1
  const Steel: Item := 2
  const CopperIngot: Item := 3
  const TitaniumIngot: Item := 4
  const Bricks: Item := 5
  const Glass: Item := 6
  const SiliconIngot: Item := 7
  const SiliconCrystal: Item := 8
  const Graphite: Item := 9
  const Crystal: Item := 10
  const TitaniumSteel: Item := 11
  // the table's keys with a counter in refinery
  const RefinedOil: Item := 12
  // the table's keys with a counter in chemical_plant
  const Plastic: Item := 13
  const OrganicCrystal: Item := 14
  const Graphene: Item := 15
  const CarbonNanotube: Item := 16
  // the table's keys with a counter in ray_receiver
  const CriticalPhoton: Item := 17
  // the table's keys with a counter in assembler
  const MagneticCoil: Item := 18
  const ElectricMotor: Item := 19
  const Gears: Item := 20
  const ElectricTurbine: Item := 21
  const SuperMagRing: Item := 22
  const Prism: Item := 23
  const PhotonCombiner: Item := 24
  const PlasmExciter: Item := 25
  const Circuit: Item := 26
  const TitaniumCrystal: Item := 27
  const GravitonLens: Item := 28
  const Processor: Item := 29
  const CasamirCrystal: Item := 30
  const TitaniumGlass: Item := 31
  const PlaneFilter: Item := 32
  const ParticleContainer: Item := 33
  const DeuteronFuel: Item := 34
  const QuantumChip: Item := 35
  const ParticleBroadband: Item := 36
  const Microcrystaline: Item := 37
  const Foundations: Item := 38
  const HydrogenFuel: Item := 39
  const AntimatterFuel: Item := 40
  const Annihilation: Item := 41
  const ReinforcedThrust: Item := 42
  const Thruster: Item := 43
  const SpaceWarper: Item := 44
  const LogisticsVessel: Item := 45
  const LogisticsDrone: Item := 46
  const SolarSail: Item := 47
  const SphereComponent: Item := 48
  const FrameMaterial: Item := 49
  const CarrierRocket: Item := 50
  // the table's keys with a counter in matrix_lab
  const BlueMatrix: Item := 51
  const RedMatrix: Item := 52
  const YellowMatrix: Item := 53
  const PurpleMatrix: Item := 54
  const GreenMatrix: Item := 55
  const UniverseMatrix: Item := 56
  // the table's keys with a counter in particle_collider
  const StrangeMatter: Item := 57
  const Antimatter: Item := 58
  // the name particle_collider also holds, which has no recipe
  const Deuterium: Item := 59
  // the raw materials
  const Iron: Item := 60
  const Copper: Item := 61
  const Stone: Item := 62
  const Coal: Item := 63
  const Silicon: Item := 64
  const Titanium: Item := 65
  const Water: Item := 66
  const Sulfur: Item := 67
  const Crude: Item := 68
  const Hydrogen: Item := 69
  const FireIce: Item := 70
  const Kimberlite: Item := 71
  const Fractal: Item := 72
  const Optical: Item := 73
  const Spiniform: Item := 74
  const Unipolar: Item := 75

  /** A table entry: the source's tuples `(r0,)`, `(r0, ingredients)` and `(r0, ingredients, br)`. */
  datatype Recipe =
    | Terminal(rate: real)
    | Plain(rate: real, ingredients: seq<(Item, real)>)
    | WithByproduct(rate: real, ingredients: seq<(Item, real)>, byproduct: real)
  {
    /** The ingredients in the order the table lists them; none for a one-component entry. */
    function Inputs(): seq<(Item, real)> {
      if Terminal? then [] else ingredients
    }
  }

  type Table = map<Item, Recipe>

  /**
   * The entry that the recipes table of dsp_recipes.py gives an item. The
   * literal is split into groups of a few consecutive keys (Rows1 … Rows15)
   * so that each soundness proof below unfolds only a handful of entries; one
   * function holding all 59 entries makes every fact about the table cost
   * the solver tens of case splits at once.
   */
  function Base(i: Item): Option<Recipe> {
    if i < Magnet then None
    else if i <= CopperIngot then Rows1(i)
    else if i <= SiliconIngot then Rows2(i)
    else if i <= TitaniumSteel then Rows3(i)
    else if i <= Graphene then Rows4(i)
    else if i <= ElectricMotor then Rows5(i)
    else if i <= Prism then Rows6(i)
    else if i <= TitaniumCrystal then Rows7(i)
    else if i <= TitaniumGlass then Rows8(i)
    else if i <= QuantumChip then Rows9(i)
    else if i <= HydrogenFuel then Rows10(i)
    else if i <= Thruster then Rows11(i)
    else if i <= SolarSail then Rows12(i)
    else if i <= BlueMatrix then Rows13(i)
    else if i <= GreenMatrix then Rows14(i)
    else if i <= Antimatter then Rows15(i)
    else None
  }

  function Rows1(i: Item): Option<Recipe> {
    if i == Magnet then Some(Plain(40.0, [(Iron, 40.0)]))
    else if i == IronIngot then Some(Plain(60.0, [(Iron, 60.0)]))
    else if i == Steel then Some(Plain(20.0, [(IronIngot, 60.0)]))
    else if i == CopperIngot then Some(Plain(60.0, [(Copper, 60.0)]))
    else None
  }

  function Rows2(i: Item): Option<Recipe> {
    if i == TitaniumIngot then Some(Plain(30.0, [(Titanium, 60.0)]))
    else if i == Bricks then Some(Plain(60.0, [(Stone, 60.0)]))
    else if i == Glass then Some(Plain(30.0, [(Stone, 60.0)]))
    else if i == SiliconIngot then Some(Plain(30.0, [(Silicon, 60.0)]))
    else None
  }

  function Rows3(i: Item): Option<Recipe> {
    if i == SiliconCrystal then Some(Plain(30.0, [(SiliconIngot, 60.0)]))
    else if i == Graphite then Some(Plain(30.0, [(Coal, 60.0)]))
    else if i == Crystal then Some(Plain(30.0, [(Graphite, 30.0)]))
    else if i == TitaniumSteel then Some(Plain(20.0, [(TitaniumIngot, 20.0), (Steel, 20.0), (Sulfur, 40.0)]))
    else None
  }

  function Rows4(i: Item): Option<Recipe> {
    if i == RefinedOil then Some(WithByproduct(30.0, [(Crude, 30.0)], 15.0))
    else if i == Plastic then Some(Plain(20.0, [(RefinedOil, 40.0), (Graphite, 20.0)]))
    else if i == OrganicCrystal then Some(Plain(10.0, [(Plastic, 20.0), (RefinedOil, 10.0), (Graphite, 10.0)]))
    else if i == Graphene then Some(WithByproduct(60.0, [(FireIce, 60.0)], 30.0))
    else None
  }

  function Rows5(i: Item): Option<Recipe> {
    if i == CarbonNanotube then Some(Plain(30.0, [(Graphene, 45.0), (TitaniumIngot, 15.0)]))
    else if i == CriticalPhoton then Some(Plain(16.0, [(GravitonLens, 0.25)]))
    else if i == MagneticCoil then Some(Plain(180.0, [(Magnet, 180.0), (CopperIngot, 90.0)]))
    else if i == ElectricMotor then Some(Plain(45.0, [(MagneticCoil, 45.0), (Gears, 45.0), (IronIngot, 90.0)]))
    else None
  }

  function Rows6(i: Item): Option<Recipe> {
    if i == Gears then Some(Plain(90.0, [(IronIngot, 90.0)]))
    else if i == ElectricTurbine then Some(Plain(45.0, [(ElectricMotor, 90.0), (MagneticCoil, 90.0)]))
    else if i == SuperMagRing then Some(Plain(30.0, [(ElectricTurbine, 60.0), (Magnet, 90.0), (Graphite, 30.0)]))
    else if i == Prism then Some(Plain(90.0, [(Glass, 135.0)]))
    else None
  }

  function Rows7(i: Item): Option<Recipe> {
    if i == PhotonCombiner then Some(Plain(30.0, [(Prism, 60.0), (Circuit, 30.0)]))
    else if i == PlasmExciter then Some(Plain(45.0, [(Prism, 90.0), (MagneticCoil, 180.0)]))
    else if i == Circuit then Some(Plain(180.0, [(IronIngot, 180.0), (CopperIngot, 90.0)]))
    else if i == TitaniumCrystal then Some(Plain(22.5, [(TitaniumIngot, 67.5), (OrganicCrystal, 22.5)]))
    else None
  }

  function Rows8(i: Item): Option<Recipe> {
    if i == GravitonLens then Some(Plain(15.0, [(Crystal, 60.0), (StrangeMatter, 15.0)]))
    else if i == Processor then Some(Plain(30.0, [(Circuit, 60.0), (Microcrystaline, 60.0)]))
    else if i == CasamirCrystal then Some(Plain(22.5, [(TitaniumCrystal, 22.5), (Graphene, 45.0), (Hydrogen, 270.0)]))
    else if i == TitaniumGlass then Some(Plain(36.0, [(Glass, 36.0), (TitaniumIngot, 36.0), (Water, 36.0)]))
    else None
  }

  function Rows9(i: Item): Option<Recipe> {
    if i == PlaneFilter then Some(Plain(7.5, [(TitaniumGlass, 15.0), (CasamirCrystal, 7.5)]))
    else if i == ParticleContainer then Some(Plain(22.5, [(ElectricTurbine, 45.0), (Graphene, 45.0), (CopperIngot, 45.0)]))
    else if i == DeuteronFuel then Some(Plain(15.0, [(TitaniumSteel, 7.5), (SuperMagRing, 7.5), (Deuterium, 150.0)]))
    else if i == QuantumChip then Some(Plain(15.0, [(Processor, 30.0), (PlaneFilter, 30.0)]))
    else None
  }

  function Rows10(i: Item): Option<Recipe> {
    if i == ParticleBroadband then Some(Plain(11.25, [(CarbonNanotube, 22.5), (SiliconCrystal, 22.5), (Plastic, 11.25)]))
    else if i == Microcrystaline then Some(Plain(45.0, [(SiliconIngot, 90.0), (CopperIngot, 45.0)]))
    else if i == Foundations then Some(Plain(90.0, [(Bricks, 270.0), (Steel, 90.0)]))
    else if i == HydrogenFuel then Some(Plain(30.0, [(TitaniumIngot, 15.0), (Hydrogen, 150.0)]))
    else None
  }

  function Rows11(i: Item): Option<Recipe> {
    if i == AntimatterFuel then Some(Plain(7.5, [(TitaniumSteel, 3.75), (Annihilation, 3.75), (Hydrogen, 45.0), (Antimatter, 45.0)]))
    else if i == Annihilation then Some(Plain(4.5, [(ParticleContainer, 4.5), (Processor, 4.5)]))
    else if i == ReinforcedThrust then Some(Plain(15.0, [(TitaniumSteel, 75.0), (ElectricTurbine, 75.0)]))
    else if i == Thruster then Some(Plain(22.5, [(CopperIngot, 67.5), (Steel, 45.0)]))
    else None
  }

  function Rows12(i: Item): Option<Recipe> {
    if i == SpaceWarper then Some(Plain(9.0, [(GravitonLens, 9.0)]))
    else if i == LogisticsVessel then Some(Plain(15.0, [(TitaniumSteel, 150.0), (Processor, 150.0), (ReinforcedThrust, 30.0)]))
    else if i == LogisticsDrone then Some(Plain(22.5, [(IronIngot, 112.5), (Processor, 45.0), (Thruster, 45.0)]))
    else if i == SolarSail then Some(Plain(45.0, [(Graphene, 22.5), (PhotonCombiner, 22.5)]))
    else None
  }

  function Rows13(i: Item): Option<Recipe> {
    if i == SphereComponent then Some(Plain(11.25, [(FrameMaterial, 33.75), (SolarSail, 33.75), (Processor, 33.75)]))
    else if i == FrameMaterial then Some(Plain(15.0, [(CarbonNanotube, 60.0), (TitaniumSteel, 15.0), (SiliconIngot, 15.0)]))
    else if i == CarrierRocket then Some(Plain(15.0, [(SphereComponent, 30.0), (DeuteronFuel, 60.0), (QuantumChip, 30.0)]))
    else if i == BlueMatrix then Some(Plain(20.0, [(MagneticCoil, 20.0), (Circuit, 20.0)]))
    else None
  }

  function Rows14(i: Item): Option<Recipe> {
    if i == RedMatrix then Some(Plain(10.0, [(Graphite, 20.0), (Hydrogen, 20.0)]))
    else if i == YellowMatrix then Some(Plain(7.5, [(Crystal, 7.5), (TitaniumCrystal, 7.5)]))
    else if i == PurpleMatrix then Some(Plain(6.0, [(Processor, 12.0), (ParticleBroadband, 6.0)]))
    else if i == GreenMatrix then Some(Plain(5.0, [(GravitonLens, 2.5), (QuantumChip, 2.5)]))
    else None
  }

  function Rows15(i: Item): Option<Recipe> {
    if i == UniverseMatrix then Some(Plain(4.0, [(BlueMatrix, 4.0), (RedMatrix, 4.0), (YellowMatrix, 4.0), (PurpleMatrix, 4.0), (GreenMatrix, 4.0), (Antimatter, 4.0)]))
    else if i == StrangeMatter then Some(Plain(7.5, [(ParticleContainer, 15.0), (IronIngot, 15.0), (Deuterium, 75.0)]))
    else if i == Antimatter then Some(WithByproduct(60.0, [(CriticalPhoton, 60.0)], 60.0))
    else None
  }

  /** The table's keys are the codes from Magnet to Antimatter. */
  lemma BaseKeys(i: Item)
    ensures Base(i).Some? <==> Magnet <= i <= Antimatter
  {
  }

  /** The table `recipes` as the module initialises it. */
  function InitialTable(): (t: Table)
    ensures forall i :: i in t <==> Base(i).Some?
    ensures forall i :: i in t ==> t[i] == Base(i).value
  {
    assert forall i :: Base(i).Some? ==> Magnet <= i <= Antimatter by {
      forall i ensures Base(i).Some? ==> Magnet <= i <= Antimatter { BaseKeys(i); }
    }
    map i | Magnet <= i <= Antimatter && Base(i).Some? :: Base(i).value
  }

  /**
   * The depth of an item in the ingredient graph, taken over the table and
   * every rare variant: each ingredient ranks below the item it makes.
   */
  function Rank(i: Item): nat {
    if i in {Magnet, IronIngot, CopperIngot, TitaniumIngot, Bricks, Glass, SiliconIngot, Graphite, RefinedOil, Graphene} then 1
    else if i in {Steel, SiliconCrystal, Crystal, Plastic, CarbonNanotube, MagneticCoil, Gears, Prism, Circuit, TitaniumGlass, HydrogenFuel, Microcrystaline, RedMatrix} then 2
    else if i in {TitaniumSteel, OrganicCrystal, ElectricMotor, PlasmExciter, PhotonCombiner, Processor, Foundations, ParticleBroadband, Thruster, BlueMatrix} then 3
    else if i in {ElectricTurbine, TitaniumCrystal, LogisticsDrone, SolarSail, FrameMaterial, PurpleMatrix} then 4
    else if i in {ParticleContainer, SuperMagRing, CasamirCrystal, ReinforcedThrust, SphereComponent, YellowMatrix} then 5
    else if i in {StrangeMatter, PlaneFilter, DeuteronFuel, Annihilation, LogisticsVessel} then 6
    else if i in {GravitonLens, QuantumChip} then 7
    else if i in {CriticalPhoton, SpaceWarper, CarrierRocket, GreenMatrix} then 8
    else if i in {Antimatter} then 9
    else if i in {AntimatterFuel, UniverseMatrix} then 10
    else 0
  }

  // ---------------------------------------------------------------------
  // Well-formedness and well-foundedness of a table

  /** A positive output rate, positive ingredient rates and a non-negative byproduct rate. */
  predicate WellFormedRecipe(r: Recipe) {
    && r.rate > 0.0
    && (forall j :: 0 <= j < |r.Inputs()| ==> r.Inputs()[j].1 > 0.0)
    && (r.WithByproduct? ==> r.byproduct >= 0.0)
  }

  /** Every ingredient of the recipe for k ranks strictly below k. */
  predicate RankedRecipe(k: Item, r: Recipe) {
    forall j :: 0 <= j < |r.Inputs()| ==> Rank(r.Inputs()[j].0) < Rank(k)
  }

  predicate Ranked(t: Table) {
    forall k :: k in t ==> RankedRecipe(k, t[k])
  }

  /** The three facts about one entry that the resolver relies on. */
  predicate EntrySound(k: Item, r: Recipe) {
    WellFormedRecipe(r) && !r.Terminal? && RankedRecipe(k, r)
  }

  /** Every entry of the table is well formed, has two or three components and is ranked. */
  predicate Sound(t: Table) {
    forall k :: k in t ==> EntrySound(k, t[k])
  }

  /**
   * What the resolver needs of a table: a nonzero output rate to divide by,
   * and ingredients ranked below what they make, so that it terminates.
   */
  predicate Resolvable(t: Table) {
    forall k :: k in t ==> t[k].rate != 0.0 && RankedRecipe(k, t[k])
  }

  /** Positive output and ingredient rates and non-negative byproduct rates throughout. */
  predicate PositiveRates(t: Table) {
    forall k :: k in t ==> WellFormedRecipe(t[k])
  }

  // Each group of the literal holds only sound entries; InitialTableSound gathers them.

  lemma Rows1Sound(k: Item)
    ensures Rows1(k).Some? ==> EntrySound(k, Rows1(k).value)
  {
  }

  lemma Rows2Sound(k: Item)
    ensures Rows2(k).Some? ==> EntrySound(k, Rows2(k).value)
  {
  }

  lemma Rows3Sound(k: Item)
    ensures Rows3(k).Some? ==> EntrySound(k, Rows3(k).value)
  {
  }

  lemma Rows4Sound(k: Item)
    ensures Rows4(k).Some? ==> EntrySound(k, Rows4(k).value)
  {
  }

  lemma Rows5Sound(k: Item)
    ensures Rows5(k).Some? ==> EntrySound(k, Rows5(k).value)
  {
  }

  lemma Rows6Sound(k: Item)
    ensures Rows6(k).Some? ==> EntrySound(k, Rows6(k).value)
  {
  }

  lemma Rows7Sound(k: Item)
    ensures Rows7(k).Some? ==> EntrySound(k, Rows7(k).value)
  {
  }

  lemma Rows8Sound(k: Item)
    ensures Rows8(k).Some? ==> EntrySound(k, Rows8(k).value)
  {
  }

  lemma Rows9Sound(k: Item)
    ensures Rows9(k).Some? ==> EntrySound(k, Rows9(k).value)
  {
  }

  lemma Rows10Sound(k: Item)
    ensures Rows10(k).Some? ==> EntrySound(k, Rows10(k).value)
  {
  }

  lemma Rows11Sound(k: Item)
    ensures Rows11(k).Some? ==> EntrySound(k, Rows11(k).value)
  {
  }

  lemma Rows12Sound(k: Item)
    ensures Rows12(k).Some? ==> EntrySound(k, Rows12(k).value)
  {
  }

  lemma Rows13Sound(k: Item)
    ensures Rows13(k).Some? ==> EntrySound(k, Rows13(k).value)
  {
  }

  lemma Rows14Sound(k: Item)
    ensures Rows14(k).Some? ==> EntrySound(k, Rows14(k).value)
  {
  }

  lemma Rows15Sound(k: Item)
    ensures Rows15(k).Some? ==> EntrySound(k, Rows15(k).value)
  {
  }

  /** Every entry of the source's table is well formed, has two or three components and is ranked. */
  lemma InitialTableSound()
    ensures Sound(InitialTable())
  {
    var t := InitialTable();
    forall k | k in t ensures EntrySound(k, t[k]) {
      BaseKeys(k);
      Rows1Sound(k);
      Rows2Sound(k);
      Rows3Sound(k);
      Rows4Sound(k);
      Rows5Sound(k);
      Rows6Sound(k);
      Rows7Sound(k);
      Rows8Sound(k);
      Rows9Sound(k);
      Rows10Sound(k);
      Rows11Sound(k);
      Rows12Sound(k);
      Rows13Sound(k);
      Rows14Sound(k);
      Rows15Sound(k);
    }
  }

  // ---------------------------------------------------------------------
  // The ingredient graph is acyclic

  /** The recipe for a uses b as an ingredient. */
  predicate Uses(t: Table, a: Item, b: Item) {
    a in t && exists l :: 0 <= l < |t[a].Inputs()| && t[a].Inputs()[l].0 == b
  }

  /** p follows edges of the ingredient graph of t. */
  predicate IsPath(t: Table, p: seq<Item>) {
    forall j :: 0 <= j < |p| - 1 ==> Uses(t, p[j], p[j + 1])
  }

  /** Along a path the rank drops by at least one per edge. */
  lemma {:induction false} PathDescends(t: Table, p: seq<Item>)
    requires Ranked(t) && IsPath(t, p) && |p| > 0
    ensures Rank(p[|p| - 1]) + |p| <= Rank(p[0]) + 1
  {
    if |p| > 1 {
      assert Uses(t, p[0], p[1]);
      var l :| 0 <= l < |t[p[0]].Inputs()| && t[p[0]].Inputs()[l].0 == p[1];
      assert RankedRecipe(p[0], t[p[0]]);
      assert IsPath(t, p[1..]) by {
        forall j | 0 <= j < |p[1..]| - 1 ensures Uses(t, p[1..][j], p[1..][j + 1]) {
          assert Uses(t, p[j + 1], p[j + 2]);
        }
      }
      PathDescends(t, p[1..]);
    }
  }

  /** No item is, directly or transitively, an ingredient of itself. */
  lemma Acyclic(t: Table, p: seq<Item>)
    requires Ranked(t) && IsPath(t, p) && |p| > 1
    ensures p[0] != p[|p| - 1]
  {
    PathDescends(t, p);
  }

  // ---------------------------------------------------------------------
  // Rare-material variants (use_rares)

  /** The rare names, in the order the source lists them. */
  const AllRares: seq<Item> := [Kimberlite, Spiniform, Optical, Fractal, Unipolar]

  /** For each item that has a rare variant: the rare name that selects it and the recipe it installs. */
  function Variant(i: Item): Option<(Item, Recipe)> {
    if i == Crystal then Some((Kimberlite, Plain(80.0, [(Kimberlite, 40.0)])))
    else if i == CarbonNanotube then Some((Spiniform, Plain(30.0, [(Spiniform, 30.0)])))
    else if i == PhotonCombiner then Some((Optical, Plain(30.0, [(Optical, 30.0), (Circuit, 30.0)])))
    else if i == CasamirCrystal then Some((Optical, Plain(22.5, [(Optical, 90.0), (Graphene, 45.0), (Hydrogen, 270.0)])))
    else if i == SiliconCrystal then Some((Fractal, Plain(120.0, [(Fractal, 60.0)])))
    else if i == ParticleContainer then Some((Unipolar, Plain(22.5, [(Unipolar, 225.0), (CopperIngot, 45.0)])))
    else None
  }

  /** The items that have a rare variant. */
  const VariantKeys: set<Item> :=
    {Crystal, CarbonNanotube, PhotonCombiner, CasamirCrystal, SiliconCrystal, ParticleContainer}

  lemma VariantKeysExact(i: Item)
    ensures Variant(i).Some? <==> i in VariantKeys
  {
  }

  /** The names the substitution acts on: no list, or an empty one, means every rare name. */
  function Selection(rareList: Option<seq<Item>>): seq<Item> {
    if rareList.None? || rareList.value == [] then AllRares else rareList.value
  }

  /** The items whose recipe a selection replaces: those whose rare name it lists. */
  function Targets(sel: seq<Item>): set<Item> {
    set i | i in VariantKeys && Variant(i).Some? && Variant(i).value.0 in sel
  }

  /** The table after substitution: each targeted entry is replaced by its variant, every other entry kept. */
  function Substituted(t: Table, sel: seq<Item>): Table {
    map k | k in t.Keys + Targets(sel) :: if k in Targets(sel) then Variant(k).value.1 else t[k]
  }

  /** Calling the substitution with no list or an empty list selects all five rare names. */
  lemma DefaultSelectsAll()
    ensures Selection(None) == Selection(Some([])) == AllRares
    ensures Targets(AllRares) == VariantKeys
  {
  }

  /** 'optical' replaces two recipes; each other rare name replaces one. */
  lemma TargetsOfEachName()
    ensures Targets([Kimberlite]) == {Crystal}
    ensures Targets([Spiniform]) == {CarbonNanotube}
    ensures Targets([Optical]) == {PhotonCombiner, CasamirCrystal}
    ensures Targets([Fractal]) == {SiliconCrystal}
    ensures Targets([Unipolar]) == {ParticleContainer}
  {
  }

  lemma TargetsOfConcat(a: seq<Item>, b: seq<Item>)
    ensures Targets(a + b) == Targets(a) + Targets(b)
  {
  }

  /** Names that are not rare names select nothing, wherever they stand in the list. */
  lemma UnknownNamesIgnored(t: Table, a: seq<Item>, b: seq<Item>)
    requires forall j :: 0 <= j < |b| ==> b[j] !in AllRares
    ensures Substituted(t, a + b) == Substituted(t, a)
    ensures Substituted(t, b) == t
  {
    TargetsOfConcat(a, b);
    assert Targets(b) == {};
  }

  /** The substitution replaces entries; it never adds a key to the source's table or removes one. */
  lemma SubstitutedKeys(t: Table, sel: seq<Item>)
    requires VariantKeys <= t.Keys
    ensures Substituted(t, sel).Keys == t.Keys
    ensures forall k :: k in t && k !in Targets(sel) ==> Substituted(t, sel)[k] == t[k]
  {
  }

  /** Selecting 'kimberlite' installs exactly (80, {'kimberlite': 40}) for crystal: graphite is gone. */
  lemma ReplacesNotMerges()
    ensures Graphite == InitialTable()[Crystal].Inputs()[0].0
    ensures Substituted(InitialTable(), [Kimberlite])[Crystal] == Plain(80.0, [(Kimberlite, 40.0)])
    ensures forall j :: 0 <= j < |Substituted(InitialTable(), [Kimberlite])[Crystal].Inputs()| ==>
              Substituted(InitialTable(), [Kimberlite])[Crystal].Inputs()[j].0 != Graphite
  {
    TargetsOfEachName();
  }

  /** Two substitutions in a row act as one with both selections. */
  lemma SubstitutedTwice(t: Table, a: seq<Item>, b: seq<Item>)
    ensures Substituted(Substituted(t, a), b) == Substituted(t, a + b)
  {
    TargetsOfConcat(a, b);
  }

  /** Applying the same selection twice gives the same table as applying it once. */
  lemma SubstitutedIdempotent(t: Table, sel: seq<Item>)
    ensures Substituted(Substituted(t, sel), sel) == Substituted(t, sel)
  {
    SubstitutedTwice(t, sel, sel);
    TargetsOfConcat(sel, sel);
  }

  /** Every variant is well formed, has exactly two components and is ranked. */
  lemma VariantsSound(k: Item)
    ensures Variant(k).Some? ==> EntrySound(k, Variant(k).value.1) && Variant(k).value.1.Plain?
  {
  }

  /** Substitution therefore keeps a table sound. */
  lemma SubstitutedSound(t: Table, sel: seq<Item>)
    requires Sound(t)
    ensures Sound(Substituted(t, sel))
  {
    var s := Substituted(t, sel);
    forall k | k in s ensures EntrySound(k, s[k]) {
      VariantsSound(k);
    }
  }

  /** Whatever the selection, the table stays sound and keeps its keys. */
  lemma AnySelectionSound(sel: seq<Item>)
    ensures Sound(Substituted(InitialTable(), sel))
    ensures Substituted(InitialTable(), sel).Keys == InitialTable().Keys
  {
    InitialTableSound();
    SubstitutedSound(InitialTable(), sel);
    SubstitutedKeys(InitialTable(), sel);
  }

  /** Whatever rare names are selected, no chain of ingredients leads back to where it started. */
  lemma AcyclicAfterSelection(sel: seq<Item>, p: seq<Item>)
    requires IsPath(Substituted(InitialTable(), sel), p) && |p| > 1
    ensures p[0] != p[|p| - 1]
  {
    AnySelectionSound(sel);
    Acyclic(Substituted(InitialTable(), sel), p);
  }

  /** The substitution depends on the selection only through the items it targets. */
  lemma SameTargets(t: Table, a: seq<Item>, b: seq<Item>)
    requires forall n :: n in AllRares ==> (n in a <==> n in b)
    ensures Substituted(t, a) == Substituted(t, b)
  {
    VariantNames();
    assert Targets(a) == Targets(b);
  }

  /** Every variant is selected by one of the five rare names. */
  lemma VariantNames()
    ensures forall i :: i in VariantKeys ==> Variant(i).Some? && Variant(i).value.0 in AllRares
  {
  }

  /** The block of use_rares for one rare name: substitute it when the selection lists it. */
  function SubstituteName(t: Table, sel: seq<Item>, n: Item): Table {
    if n in sel then Substituted(t, [n]) else t
  }

  function Listed(sel: seq<Item>, n: Item): seq<Item> {
    if n in sel then [n] else []
  }

  lemma SubstituteNameAfter(t: Table, sel: seq<Item>, done: seq<Item>, n: Item)
    ensures SubstituteName(Substituted(t, done), sel, n) == Substituted(t, done + Listed(sel, n))
  {
    SubstitutedTwice(t, done, [n]);
    assert done + [] == done;
  }

  /** Substituting a selection is substituting its rare names one after another, in the source's order. */
  lemma SubstitutedInBlocks(t: Table, sel: seq<Item>)
    ensures Substituted(t, sel) == SubstituteName(SubstituteName(SubstituteName(SubstituteName(SubstituteName(t, sel, Kimberlite), sel, Spiniform), sel, Optical), sel, Fractal), sel, Unipolar)
  {
    var d1, d2, d3, d4, d5 := Listed(sel, Kimberlite), Listed(sel, Spiniform), Listed(sel, Optical),
      Listed(sel, Fractal), Listed(sel, Unipolar);
    assert Substituted(t, []) == t;
    SubstituteNameAfter(t, sel, [], Kimberlite);
    assert [] + d1 == d1;
    SubstituteNameAfter(t, sel, d1, Spiniform);
    SubstituteNameAfter(t, sel, d1 + d2, Optical);
    SubstituteNameAfter(t, sel, d1 + d2 + d3, Fractal);
    SubstituteNameAfter(t, sel, d1 + d2 + d3 + d4, Unipolar);
    SameTargets(t, d1 + d2 + d3 + d4 + d5, sel);
  }

  lemma KimberliteStep(s: Table)
    ensures s[Crystal := Plain(80.0, [(Kimberlite, 40.0)])] == Substituted(s, [Kimberlite])
  {
    TargetsOfEachName();
  }

  lemma SpiniformStep(s: Table)
    ensures s[CarbonNanotube := Plain(30.0, [(Spiniform, 30.0)])] == Substituted(s, [Spiniform])
  {
    TargetsOfEachName();
  }

  lemma OpticalStep(s: Table)
    ensures s[PhotonCombiner := Plain(30.0, [(Optical, 30.0), (Circuit, 30.0)])]
       [CasamirCrystal := Plain(22.5, [(Optical, 90.0), (Graphene, 45.0), (Hydrogen, 270.0)])] == Substituted(s, [Optical])
  {
    TargetsOfEachName();
  }

  lemma FractalStep(s: Table)
    ensures s[SiliconCrystal := Plain(120.0, [(Fractal, 60.0)])] == Substituted(s, [Fractal])
  {
    TargetsOfEachName();
  }

  lemma UnipolarStep(s: Table)
    ensures s[ParticleContainer := Plain(22.5, [(Unipolar, 225.0), (CopperIngot, 45.0)])] == Substituted(s, [Unipolar])
  {
    TargetsOfEachName();
  }

  /** The module-level dictionary `recipes`, which use_rares overwrites entry by entry. */
  class Catalog {
    var recipes: Table

    constructor ()
      ensures recipes == InitialTable()
    {
      recipes := InitialTable();
    }

    /** Replaces recipes with variants that consume rare materials (use_rares). */
    method UseRares(rareList: Option<seq<Item>>)
      modifies this
      ensures recipes == Substituted(old(recipes), Selection(rareList))
    {
      var names := if rareList.None? then [] else rareList.value;
      if names == [] {
        names := AllRares;
      }
      assert names == Selection(rareList);
      ghost var beforeKimberlite := recipes;
      if Kimberlite in names {
        KimberliteStep(recipes);
        recipes := recipes[Crystal := Plain(80.0, [(Kimberlite, 40.0)])];
      }
      assert recipes == SubstituteName(beforeKimberlite, names, Kimberlite);
      ghost var beforeSpiniform := recipes;
      if Spiniform in names {
        SpiniformStep(recipes);
        recipes := recipes[CarbonNanotube := Plain(30.0, [(Spiniform, 30.0)])];
      }
      assert recipes == SubstituteName(beforeSpiniform, names, Spiniform);
      ghost var beforeOptical := recipes;
      if Optical in names {
        OpticalStep(recipes);
        recipes := recipes[PhotonCombiner := Plain(30.0, [(Optical, 30.0), (Circuit, 30.0)])];
        recipes := recipes[CasamirCrystal := Plain(22.5, [(Optical, 90.0), (Graphene, 45.0), (Hydrogen, 270.0)])];
      }
      assert recipes == SubstituteName(beforeOptical, names, Optical);
      ghost var beforeFractal := recipes;
      if Fractal in names {
        FractalStep(recipes);
        recipes := recipes[SiliconCrystal := Plain(120.0, [(Fractal, 60.0)])];
      }
      assert recipes == SubstituteName(beforeFractal, names, Fractal);
      ghost var beforeUnipolar := recipes;
      if Unipolar in names {
        UnipolarStep(recipes);
        recipes := recipes[ParticleContainer := Plain(22.5, [(Unipolar, 225.0), (CopperIngot, 45.0)])];
      }
      assert recipes == SubstituteName(beforeUnipolar, names, Unipolar);
      SubstitutedInBlocks(old(recipes), names);
    }
  }
}
