/**
 * The resolver of the production planner (dsp.py): the counter dictionaries,
 * update_products, backtrack, and the arithmetic of simplify.
 */
module Production {
  import opened Recipes

  // ---------------------------------------------------------------------
  // The counters

  /**
   * A counter dictionary of the source, by its position in update_products'
   * chain of tests: the seven factory dictionaries, then materials, the
   * fallback.
   */
  newtype Slot = n: int | 0 <= n < 8

  const Smelter: Slot := 0
  const Refinery: Slot := 1
  const ChemicalPlant: Slot := 2
  const ParticleCollider: Slot := 3
  const RayReceiver: Slot := 4
  const Assembler: Slot := 5
  const MatrixLab: Slot := 6
  const Materials: Slot := 7

  /** Eight dictionaries, indexed by Slot. */
  type Dicts = d: seq<map<Item, real>> | |d| == 8
    witness [map[], map[], map[], map[], map[], map[], map[], map[]]

  /** The values of every counter: the eight dictionaries and byproducts['hydrogen']. */
  datatype Snapshot = Snapshot(dicts: Dicts, hydrogen: real)

  /** Every dictionary keeps its key set: counters are updated, never added or removed. */
  predicate SameKeys(s: Snapshot, r: Snapshot) {
    forall b: Slot :: s.dicts[b].Keys == r.dicts[b].Keys
  }

  /**
   * The dictionary update_products credits an item to: the first factory
   * dictionary that holds it, in the source's order, and materials otherwise.
   */
  function Route(s: Snapshot, p: Item): (b: Slot)
    ensures b != Materials ==> p in s.dicts[b]
    ensures forall c: Slot :: c < b ==> p !in s.dicts[c]
  {
    if p in s.dicts[Smelter] then Smelter
    else if p in s.dicts[Refinery] then Refinery
    else if p in s.dicts[ChemicalPlant] then ChemicalPlant
    else if p in s.dicts[ParticleCollider] then ParticleCollider
    else if p in s.dicts[RayReceiver] then RayReceiver
    else if p in s.dicts[Assembler] then Assembler
    else if p in s.dicts[MatrixLab] then MatrixLab
    else Materials
  }

  /** update_products can credit p without a KeyError. */
  predicate Known(s: Snapshot, p: Item) {
    p in s.dicts[Route(s, p)]
  }

  /** The counter that update_products would credit for p; 0 for a name no dictionary holds. */
  function Amount(s: Snapshot, p: Item): real {
    if Known(s, p) then s.dicts[Route(s, p)][p] else 0.0
  }

  lemma RouteSameKeys(s: Snapshot, r: Snapshot, p: Item)
    requires SameKeys(s, r)
    ensures Route(r, p) == Route(s, p) && (Known(r, p) <==> Known(s, p))
  {
    assert forall b: Slot :: p in s.dicts[b] <==> p in r.dicts[b];
  }

  /** Adding x to p's counter: exactly one counter changes, by exactly x, and no key appears. */
  function Credit(s: Snapshot, p: Item, x: real): (r: Snapshot)
    requires Known(s, p)
    ensures SameKeys(s, r) && r.hydrogen == s.hydrogen
    ensures forall b: Slot, q :: q in s.dicts[b] ==>
              r.dicts[b][q] == s.dicts[b][q] + (if b == Route(s, p) && q == p then x else 0.0)
  {
    var b := Route(s, p);
    s.(dicts := s.dicts[b := s.dicts[b][p := s.dicts[b][p] + x]])
  }

  /** Credit when the dictionary that takes p is known to be b. */
  lemma CreditIn(s: Snapshot, b: Slot, p: Item, x: real)
    requires Route(s, p) == b && p in s.dicts[b]
    ensures Credit(s, p, x) == Snapshot(s.dicts[b := s.dicts[b][p := s.dicts[b][p] + x]], s.hydrogen)
  {
  }

  /** A raw material always has a counter, whichever dictionary holds it first. */
  lemma MaterialKnown(s: Snapshot, q: Item)
    requires q in s.dicts[Materials]
    ensures Known(s, q)
  {
  }

  /** Every item of the table has a counter. */
  predicate Covers(s: Snapshot, t: Table) {
    forall k :: k in t ==> Known(s, k)
  }

  lemma CoversKept(s: Snapshot, r: Snapshot, t: Table)
    requires Covers(s, t) && SameKeys(s, r)
    ensures Covers(r, t)
  {
    forall k | k in t ensures Known(r, k) {
      RouteSameKeys(s, r, k);
    }
  }

  // ---------------------------------------------------------------------
  // The counters as the module initialises them

  // The key sets of the dictionaries, as the source declares them.
  const SmelterKeys: set<Item> := {
    Magnet, IronIngot, Steel, CopperIngot, TitaniumIngot, Bricks, Glass, SiliconIngot,
    SiliconCrystal, Graphite, Crystal, TitaniumSteel
  }
  const RefineryKeys: set<Item> := {RefinedOil}
  const ChemicalPlantKeys: set<Item> := {Plastic, OrganicCrystal, Graphene, CarbonNanotube}
  const ParticleColliderKeys: set<Item> := {StrangeMatter, Deuterium, Antimatter}
  const RayReceiverKeys: set<Item> := {CriticalPhoton}
  const AssemblerKeys: set<Item> := {
    MagneticCoil, ElectricMotor, Gears, ElectricTurbine, SuperMagRing, Prism, PhotonCombiner,
    PlasmExciter, Circuit, TitaniumCrystal, GravitonLens, Processor, CasamirCrystal,
    TitaniumGlass, PlaneFilter, ParticleContainer, DeuteronFuel, QuantumChip,
    ParticleBroadband, Microcrystaline, Foundations, HydrogenFuel, AntimatterFuel,
    Annihilation, ReinforcedThrust, Thruster, SpaceWarper, LogisticsVessel, LogisticsDrone,
    SolarSail, SphereComponent, FrameMaterial, CarrierRocket
  }
  const MatrixLabKeys: set<Item> := {
    BlueMatrix, RedMatrix, YellowMatrix, PurpleMatrix, GreenMatrix, UniverseMatrix
  }
  const MaterialKeys: set<Item> := {
    Iron, Copper, Stone, Coal, Silicon, Titanium, Water, Sulfur,
    Crude, Hydrogen, FireIce, Kimberlite, Fractal, Optical, Spiniform, Unipolar
  }

  function Zeros(keys: set<Item>): (d: map<Item, real>)
    ensures d.Keys == keys
    ensures forall x :: x in d ==> d[x] == 0.0
  {
    map x | x in keys :: 0.0
  }

  /** Every counter at zero, over the key sets the source declares. */
  function InitialSnapshot(): Snapshot {
    Snapshot([
      Zeros(SmelterKeys), Zeros(RefineryKeys), Zeros(ChemicalPlantKeys), Zeros(ParticleColliderKeys),
      Zeros(RayReceiverKeys), Zeros(AssemblerKeys), Zeros(MatrixLabKeys), Zeros(MaterialKeys)
    ], 0.0)
  }

  /** The dictionaries hold consecutive codes (the items are numbered so). */
  lemma KeysInRange(x: Item)
    ensures x in SmelterKeys ==> Magnet <= x <= TitaniumSteel
    ensures x in RefineryKeys ==> x == RefinedOil
    ensures x in ChemicalPlantKeys ==> Plastic <= x <= CarbonNanotube
    ensures x in ParticleColliderKeys ==> StrangeMatter <= x <= Deuterium
    ensures x in RayReceiverKeys ==> x == CriticalPhoton
    ensures x in AssemblerKeys ==> MagneticCoil <= x <= CarrierRocket
    ensures x in MatrixLabKeys ==> BlueMatrix <= x <= UniverseMatrix
    ensures x in MaterialKeys ==> Iron <= x <= Unipolar
  {
  }

  /** No item has counters in two dictionaries of the initial state. */
  lemma InitialDisjoint(b: Slot, c: Slot, x: Item)
    requires x in InitialSnapshot().dicts[b] && x in InitialSnapshot().dicts[c]
    ensures b == c
  {
    KeysInRange(x);
  }

  /** Every item of the table has a factory counter, so backtrack never needs the materials fallback for a product. */
  lemma InitialCovers()
    ensures Covers(InitialSnapshot(), InitialTable())
    ensures forall k :: k in InitialTable() ==> Route(InitialSnapshot(), k) != Materials
  {
    forall k | k in InitialTable() ensures Route(InitialSnapshot(), k) != Materials {
      BaseKeys(k);
    }
  }

  /** Deuterium has a counter but no recipe and is no raw material: nothing ever credits it. */
  lemma DeuteriumIsNeither()
    ensures Deuterium !in InitialTable()
    ensures Deuterium !in InitialSnapshot().dicts[Materials]
    ensures Deuterium in InitialSnapshot().dicts[ParticleCollider]
  {
    BaseKeys(Deuterium);
  }

  // ---------------------------------------------------------------------
  // backtrack, as a function of the table and the counters

  /**
   * multiplier * rate. backtrack's products are written through this function
   * so that each is a single term wherever it is passed on.
   */
  function Times(multiplier: real, rate: real): real {
    multiplier * rate
  }

  /**
   * The first step of backtrack for an item with entry e: credit the item
   * with multiplier * r0, and tally the byproduct unless it is ignored.
   */
  function Produce(s: Snapshot, p: Item, e: Recipe, g: real, ignore: bool): (r: Snapshot)
    requires Known(s, p) && e.rate != 0.0
    ensures SameKeys(s, r)
  {
    var m := g / e.rate;
    var s1 := Credit(s, p, Times(m, e.rate));
    if e.WithByproduct? && !ignore then s1.(hydrogen := s1.hydrogen + Times(m, e.byproduct)) else s1
  }

  /**
   * The counters after backtrack(p, g, ignore): nothing for a name without a
   * recipe; otherwise the first step, then the ingredients in order.
   */
  function Resolve(t: Table, p: Item, g: real, ignore: bool, s: Snapshot): (r: Snapshot)
    requires Resolvable(t) && Covers(s, t)
    ensures SameKeys(s, r)
    decreases Rank(p), 2
  {
    if p !in t then s
    else
      var s1 := Produce(s, p, t[p], g, ignore);
      if t[p].Terminal? then s1
      else
        CoversKept(s, s1, t);
        ResolveIngredients(t, p, g / t[p].rate, ignore, 0, s1)
  }

  /** One pass of backtrack's loop: a raw material is credited directly, anything else resolved. */
  function Ingredient(t: Table, q: Item, y: real, ignore: bool, s: Snapshot): (r: Snapshot)
    requires Resolvable(t) && Covers(s, t)
    ensures SameKeys(s, r)
    decreases Rank(q), 3
  {
    if q in s.dicts[Materials] then Credit(s, q, y) else Resolve(t, q, y, ignore, s)
  }

  /** backtrack's loop over p's ingredients from the i-th on, at multiplier m. */
  function ResolveIngredients(t: Table, p: Item, m: real, ignore: bool, i: nat, s: Snapshot): (r: Snapshot)
    requires Resolvable(t) && Covers(s, t)
    requires p in t && i <= |t[p].Inputs()|
    ensures SameKeys(s, r)
    decreases Rank(p), 1, |t[p].Inputs()| - i
  {
    if i == |t[p].Inputs()| then s
    else
      var s1 := Ingredient(t, t[p].Inputs()[i].0, Times(m, t[p].Inputs()[i].1), ignore, s);
      CoversKept(s, s1, t);
      ResolveIngredients(t, p, m, ignore, i + 1, s1)
  }

  // ---------------------------------------------------------------------
  // What backtrack adds up, independently of the counters

  /** The total rate that resolving p at rate g credits to item x, raw being the raw materials. */
  function Demand(t: Table, raw: set<Item>, p: Item, g: real, x: Item): real
    requires Resolvable(t)
    decreases Rank(p), 2
  {
    if p !in t then 0.0
    else (if x == p then g else 0.0) + DemandOf(t, raw, p, g / t[p].rate, 0, x)
  }

  /** What one ingredient q needed at rate y credits to x. */
  function IngredientDemand(t: Table, raw: set<Item>, q: Item, y: real, x: Item): real
    requires Resolvable(t)
    decreases Rank(q), 3
  {
    if q in raw then (if x == q then y else 0.0) else Demand(t, raw, q, y, x)
  }

  /** What p's ingredients from the i-th on, at multiplier m, credit to x. */
  function DemandOf(t: Table, raw: set<Item>, p: Item, m: real, i: nat, x: Item): real
    requires Resolvable(t) && p in t && i <= |t[p].Inputs()|
    decreases Rank(p), 1, |t[p].Inputs()| - i
  {
    if i == |t[p].Inputs()| then 0.0
    else IngredientDemand(t, raw, t[p].Inputs()[i].0, Times(m, t[p].Inputs()[i].1), x) + DemandOf(t, raw, p, m, i + 1, x)
  }

  /** The hydrogen byproduct that resolving p at rate g tallies. */
  function Byproduct(t: Table, raw: set<Item>, p: Item, g: real, ignore: bool): real
    requires Resolvable(t)
    decreases Rank(p), 2
  {
    if p !in t then 0.0
    else
      (if t[p].WithByproduct? && !ignore then Times(g / t[p].rate, t[p].byproduct) else 0.0)
      + ByproductOf(t, raw, p, g / t[p].rate, ignore, 0)
  }

  function IngredientByproduct(t: Table, raw: set<Item>, q: Item, y: real, ignore: bool): real
    requires Resolvable(t)
    decreases Rank(q), 3
  {
    if q in raw then 0.0 else Byproduct(t, raw, q, y, ignore)
  }

  function ByproductOf(t: Table, raw: set<Item>, p: Item, m: real, ignore: bool, i: nat): real
    requires Resolvable(t) && p in t && i <= |t[p].Inputs()|
    decreases Rank(p), 1, |t[p].Inputs()| - i
  {
    if i == |t[p].Inputs()| then 0.0
    else IngredientByproduct(t, raw, t[p].Inputs()[i].0, Times(m, t[p].Inputs()[i].1), ignore) + ByproductOf(t, raw, p, m, ignore, i + 1)
  }

  /**
   * No item has a counter in two dictionaries. The source's dictionaries are
   * built that way and no operation adds a key, so every reachable state is
   * disjoint; then the dictionary holding an item is the one it is routed to.
   */
  ghost predicate Disjoint(s: Snapshot) {
    forall b: Slot, c: Slot, x :: x in s.dicts[b] && x in s.dicts[c] ==> b == c
  }

  lemma RouteDisjoint(s: Snapshot, b: Slot, x: Item)
    requires Disjoint(s) && x in s.dicts[b]
    ensures Route(s, x) == b && Known(s, x)
  {
  }

  lemma DisjointKept(s: Snapshot, r: Snapshot)
    requires Disjoint(s) && SameKeys(s, r)
    ensures Disjoint(r)
  {
  }

  /**
   * r is s with d(x) added to the counter of every item x, h added to the
   * byproduct tally, and nothing else changed.
   */
  ghost predicate Grows(s: Snapshot, r: Snapshot, d: Item -> real, h: real) {
    && SameKeys(s, r)
    && (forall b: Slot, x :: x in s.dicts[b] ==> r.dicts[b][x] == s.dicts[b][x] + d(x))
    && r.hydrogen == s.hydrogen + h
  }

  lemma GrowsAt(s: Snapshot, r: Snapshot, d: Item -> real, h: real, b: Slot, x: Item)
    requires Grows(s, r, d, h) && x in s.dicts[b]
    ensures r.dicts[b][x] == s.dicts[b][x] + d(x)
  {
  }

  lemma GrowsNothing(s: Snapshot)
    ensures Grows(s, s, _ => 0.0, 0.0)
  {
  }

  /** Two successive growths add up. */
  lemma GrowsCompose(s: Snapshot, s1: Snapshot, r: Snapshot, d1: Item -> real, h1: real, d2: Item -> real, h2: real,
                     d: Item -> real, h: real)
    requires Grows(s, s1, d1, h1) && Grows(s1, r, d2, h2)
    requires (forall x :: d(x) == d1(x) + d2(x)) && h == h1 + h2
    ensures Grows(s, r, d, h)
  {
    forall b: Slot, x | x in s.dicts[b]
      ensures r.dicts[b][x] == s.dicts[b][x] + d(x)
    {
      assert x in s1.dicts[b];
    }
  }

  /** The same growth, told by another function with the same values. */
  lemma GrowsSame(s: Snapshot, r: Snapshot, d1: Item -> real, h1: real, d: Item -> real, h: real)
    requires Grows(s, r, d1, h1) && (forall x :: d(x) == d1(x)) && h == h1
    ensures Grows(s, r, d, h)
  {
  }

  /** update_products(p, y) as a growth. */
  lemma CreditGrows(s: Snapshot, p: Item, y: real)
    requires Disjoint(s) && Known(s, p)
    ensures Grows(s, Credit(s, p, y), x => if x == p then y else 0.0, 0.0)
  {
    forall b: Slot, x | x in s.dicts[b]
      ensures Credit(s, p, y).dicts[b][x] == s.dicts[b][x] + (if x == p then y else 0.0)
    {
      RouteDisjoint(s, b, x);
    }
  }

  /** Lines 69-72 as a growth: p's own counter by g, the tally by the byproduct. */
  lemma ProduceGrows(s: Snapshot, p: Item, e: Recipe, g: real, ignore: bool)
    requires Disjoint(s) && Known(s, p) && e.rate != 0.0
    ensures Grows(s, Produce(s, p, e, g, ignore), x => if x == p then g else 0.0,
                  if e.WithByproduct? && !ignore then Times(g / e.rate, e.byproduct) else 0.0)
  {
    DivTimes(g, e.rate);
    CreditGrows(s, p, g);
  }

  /** (goal / r0) * r0 == goal. */
  lemma DivTimes(g: real, r: real)
    requires r != 0.0
    ensures Times(g / r, r) == g
  {
  }

  lemma DemandStep(t: Table, raw: set<Item>, p: Item, g: real, ignore: bool)
    requires Resolvable(t) && p in t
    ensures forall x :: Demand(t, raw, p, g, x) == (if x == p then g else 0.0) + DemandOf(t, raw, p, g / t[p].rate, 0, x)
    ensures Byproduct(t, raw, p, g, ignore)
            == (if t[p].WithByproduct? && !ignore then Times(g / t[p].rate, t[p].byproduct) else 0.0)
               + ByproductOf(t, raw, p, g / t[p].rate, ignore, 0)
  {
  }

  lemma DemandOfStep(t: Table, raw: set<Item>, p: Item, m: real, ignore: bool, i: nat)
    requires Resolvable(t) && p in t && i < |t[p].Inputs()|
    ensures forall x :: DemandOf(t, raw, p, m, i, x)
                        == IngredientDemand(t, raw, t[p].Inputs()[i].0, Times(m, t[p].Inputs()[i].1), x) + DemandOf(t, raw, p, m, i + 1, x)
    ensures ByproductOf(t, raw, p, m, ignore, i)
            == IngredientByproduct(t, raw, t[p].Inputs()[i].0, Times(m, t[p].Inputs()[i].1), ignore) + ByproductOf(t, raw, p, m, ignore, i + 1)
  {
  }

  /** backtrack credits every counter with exactly its Demand and tallies exactly the Byproduct; nothing else changes. */
  lemma {:induction false} ResolveAdds(t: Table, p: Item, g: real, ignore: bool, s: Snapshot)
    requires Resolvable(t) && Covers(s, t) && Disjoint(s)
    ensures Grows(s, Resolve(t, p, g, ignore, s),
                  x => Demand(t, s.dicts[Materials].Keys, p, g, x), Byproduct(t, s.dicts[Materials].Keys, p, g, ignore))
    decreases Rank(p), 2
  {
    var raw := s.dicts[Materials].Keys;
    if p !in t {
      GrowsNothing(s);
      GrowsSame(s, s, _ => 0.0, 0.0, x => Demand(t, raw, p, g, x), Byproduct(t, raw, p, g, ignore));
    } else {
      var e := t[p];
      var s1 := Produce(s, p, e, g, ignore);
      ProduceGrows(s, p, e, g, ignore);
      CoversKept(s, s1, t);
      DisjointKept(s, s1);
      var r := ResolveIngredients(t, p, g / e.rate, ignore, 0, s1);
      assert r == Resolve(t, p, g, ignore, s);
      ResolveIngredientsAdds(t, p, g / e.rate, ignore, 0, s1);
      assert s1.dicts[Materials].Keys == raw;
      DemandStep(t, raw, p, g, ignore);
      GrowsCompose(s, s1, r,
                   x => if x == p then g else 0.0, if e.WithByproduct? && !ignore then Times(g / e.rate, e.byproduct) else 0.0,
                   x => DemandOf(t, raw, p, g / e.rate, 0, x), ByproductOf(t, raw, p, g / e.rate, ignore, 0),
                   x => Demand(t, raw, p, g, x), Byproduct(t, raw, p, g, ignore));
    }
  }

  lemma {:induction false} IngredientAdds(t: Table, q: Item, y: real, ignore: bool, s: Snapshot)
    requires Resolvable(t) && Covers(s, t) && Disjoint(s)
    ensures Grows(s, Ingredient(t, q, y, ignore, s),
                  x => IngredientDemand(t, s.dicts[Materials].Keys, q, y, x),
                  IngredientByproduct(t, s.dicts[Materials].Keys, q, y, ignore))
    decreases Rank(q), 3
  {
    var raw := s.dicts[Materials].Keys;
    if q in raw {
      CreditGrows(s, q, y);
      GrowsSame(s, Credit(s, q, y), x => if x == q then y else 0.0, 0.0,
                x => IngredientDemand(t, raw, q, y, x), IngredientByproduct(t, raw, q, y, ignore));
    } else {
      ResolveAdds(t, q, y, ignore, s);
      GrowsSame(s, Resolve(t, q, y, ignore, s), x => Demand(t, raw, q, y, x), Byproduct(t, raw, q, y, ignore),
                x => IngredientDemand(t, raw, q, y, x), IngredientByproduct(t, raw, q, y, ignore));
    }
  }

  lemma {:induction false} ResolveIngredientsAdds(t: Table, p: Item, m: real, ignore: bool, i: nat, s: Snapshot)
    requires Resolvable(t) && Covers(s, t) && Disjoint(s)
    requires p in t && i <= |t[p].Inputs()|
    ensures Grows(s, ResolveIngredients(t, p, m, ignore, i, s),
                  x => DemandOf(t, s.dicts[Materials].Keys, p, m, i, x), ByproductOf(t, s.dicts[Materials].Keys, p, m, ignore, i))
    decreases Rank(p), 1, |t[p].Inputs()| - i
  {
    var raw := s.dicts[Materials].Keys;
    if i == |t[p].Inputs()| {
      GrowsNothing(s);
      GrowsSame(s, s, _ => 0.0, 0.0, x => DemandOf(t, raw, p, m, i, x), ByproductOf(t, raw, p, m, ignore, i));
    } else {
      var q := t[p].Inputs()[i].0;
      var y := Times(m, t[p].Inputs()[i].1);
      var s1 := Ingredient(t, q, y, ignore, s);
      IngredientAdds(t, q, y, ignore, s);
      CoversKept(s, s1, t);
      DisjointKept(s, s1);
      var r := ResolveIngredients(t, p, m, ignore, i + 1, s1);
      assert r == ResolveIngredients(t, p, m, ignore, i, s);
      ResolveIngredientsAdds(t, p, m, ignore, i + 1, s1);
      assert s1.dicts[Materials].Keys == raw;
      DemandOfStep(t, raw, p, m, ignore, i);
      GrowsCompose(s, s1, r,
                   x => IngredientDemand(t, raw, q, y, x), IngredientByproduct(t, raw, q, y, ignore),
                   x => DemandOf(t, raw, p, m, i + 1, x), ByproductOf(t, raw, p, m, ignore, i + 1),
                   x => DemandOf(t, raw, p, m, i, x), ByproductOf(t, raw, p, m, ignore, i));
    }
  }

  // ---------------------------------------------------------------------
  // What backtrack promises

  /** A growth read through Amount: every counter's value grows by d, names without a counter stay at 0. */
  lemma AmountGrows(s: Snapshot, r: Snapshot, d: Item -> real, h: real, x: Item)
    requires Disjoint(s) && Grows(s, r, d, h)
    ensures Amount(r, x) == Amount(s, x) + (if Known(s, x) then d(x) else 0.0)
  {
    RouteSameKeys(s, r, x);
  }

  /** Nothing below p in the recipe graph is credited to an item ranked at or above p. */
  lemma {:induction false} DemandAbove(t: Table, raw: set<Item>, p: Item, g: real, x: Item)
    requires Resolvable(t) && Rank(p) < Rank(x)
    ensures Demand(t, raw, p, g, x) == 0.0
    decreases Rank(p), 2
  {
    if p in t {
      DemandOfAbove(t, raw, p, g / t[p].rate, 0, x);
    }
  }

  lemma {:induction false} IngredientDemandAbove(t: Table, raw: set<Item>, q: Item, y: real, x: Item)
    requires Resolvable(t) && Rank(q) < Rank(x)
    ensures IngredientDemand(t, raw, q, y, x) == 0.0
    decreases Rank(q), 3
  {
    if q !in raw {
      DemandAbove(t, raw, q, y, x);
    }
  }

  lemma {:induction false} DemandOfAbove(t: Table, raw: set<Item>, p: Item, m: real, i: nat, x: Item)
    requires Resolvable(t) && p in t && i <= |t[p].Inputs()| && Rank(p) <= Rank(x)
    ensures DemandOf(t, raw, p, m, i, x) == 0.0
    decreases Rank(p), 1, |t[p].Inputs()| - i
  {
    if i < |t[p].Inputs()| {
      IngredientDemandAbove(t, raw, t[p].Inputs()[i].0, Times(m, t[p].Inputs()[i].1), x);
      DemandOfAbove(t, raw, p, m, i + 1, x);
    }
  }

  /** The product's own counter is credited exactly goal, since (goal / r0) * r0 == goal. */
  lemma OwnDemand(t: Table, raw: set<Item>, p: Item, g: real)
    requires Resolvable(t) && p in t
    ensures Demand(t, raw, p, g, p) == g
  {
    DemandOfAbove(t, raw, p, g / t[p].rate, 0, p);
  }

  /** backtrack(p, goal, _) makes p's counter grow by exactly goal. */
  lemma OwnCounter(t: Table, p: Item, g: real, ignore: bool, s: Snapshot)
    requires Resolvable(t) && Covers(s, t) && Disjoint(s) && p in t
    ensures Amount(Resolve(t, p, g, ignore, s), p) == Amount(s, p) + g
  {
    var raw := s.dicts[Materials].Keys;
    ResolveAdds(t, p, g, ignore, s);
    AmountGrows(s, Resolve(t, p, g, ignore, s), x => Demand(t, raw, p, g, x), Byproduct(t, raw, p, g, ignore), p);
    OwnDemand(t, raw, p, g);
  }

  /** With ignore_byproduct set nothing is tallied, at any depth. */
  lemma {:induction false} ByproductIgnored(t: Table, raw: set<Item>, p: Item, g: real)
    requires Resolvable(t)
    ensures Byproduct(t, raw, p, g, true) == 0.0
    decreases Rank(p), 2
  {
    if p in t {
      ByproductOfIgnored(t, raw, p, g / t[p].rate, 0);
    }
  }

  lemma {:induction false} IngredientByproductIgnored(t: Table, raw: set<Item>, q: Item, y: real)
    requires Resolvable(t)
    ensures IngredientByproduct(t, raw, q, y, true) == 0.0
    decreases Rank(q), 3
  {
    if q !in raw {
      ByproductIgnored(t, raw, q, y);
    }
  }

  lemma {:induction false} ByproductOfIgnored(t: Table, raw: set<Item>, p: Item, m: real, i: nat)
    requires Resolvable(t) && p in t && i <= |t[p].Inputs()|
    ensures ByproductOf(t, raw, p, m, true, i) == 0.0
    decreases Rank(p), 1, |t[p].Inputs()| - i
  {
    if i < |t[p].Inputs()| {
      IngredientByproductIgnored(t, raw, t[p].Inputs()[i].0, Times(m, t[p].Inputs()[i].1));
      ByproductOfIgnored(t, raw, p, m, i + 1);
    }
  }

  /** backtrack with ignore_byproduct set leaves the hydrogen tally as it was. */
  lemma HydrogenIgnored(t: Table, p: Item, g: real, s: Snapshot)
    requires Resolvable(t) && Covers(s, t) && Disjoint(s)
    ensures Resolve(t, p, g, true, s).hydrogen == s.hydrogen
  {
    ResolveAdds(t, p, g, true, s);
    ByproductIgnored(t, s.dicts[Materials].Keys, p, g);
  }

  /** With a non-negative goal no credit is negative. */
  lemma {:induction false} DemandNonNegative(t: Table, raw: set<Item>, p: Item, g: real, x: Item)
    requires Resolvable(t) && PositiveRates(t) && g >= 0.0
    ensures Demand(t, raw, p, g, x) >= 0.0
    decreases Rank(p), 2
  {
    if p in t {
      DemandOfNonNegative(t, raw, p, g / t[p].rate, 0, x);
    }
  }

  lemma {:induction false} IngredientDemandNonNegative(t: Table, raw: set<Item>, q: Item, y: real, x: Item)
    requires Resolvable(t) && PositiveRates(t) && y >= 0.0
    ensures IngredientDemand(t, raw, q, y, x) >= 0.0
    decreases Rank(q), 3
  {
    if q !in raw {
      DemandNonNegative(t, raw, q, y, x);
    }
  }

  lemma {:induction false} DemandOfNonNegative(t: Table, raw: set<Item>, p: Item, m: real, i: nat, x: Item)
    requires Resolvable(t) && PositiveRates(t) && p in t && i <= |t[p].Inputs()| && m >= 0.0
    ensures DemandOf(t, raw, p, m, i, x) >= 0.0
    decreases Rank(p), 1, |t[p].Inputs()| - i
  {
    if i < |t[p].Inputs()| {
      var y := Times(m, t[p].Inputs()[i].1);
      assert y >= 0.0 by { Positive(m, t[p].Inputs()[i].1); }
      IngredientDemandNonNegative(t, raw, t[p].Inputs()[i].0, y, x);
      DemandOfNonNegative(t, raw, p, m, i + 1, x);
    }
  }

  lemma {:induction false} ByproductNonNegative(t: Table, raw: set<Item>, p: Item, g: real, ignore: bool)
    requires Resolvable(t) && PositiveRates(t) && g >= 0.0
    ensures Byproduct(t, raw, p, g, ignore) >= 0.0
    decreases Rank(p), 2
  {
    if p in t {
      var m := g / t[p].rate;
      if t[p].WithByproduct? {
        Positive(m, t[p].byproduct);
      }
      ByproductOfNonNegative(t, raw, p, m, ignore, 0);
    }
  }

  lemma {:induction false} IngredientByproductNonNegative(t: Table, raw: set<Item>, q: Item, y: real, ignore: bool)
    requires Resolvable(t) && PositiveRates(t) && y >= 0.0
    ensures IngredientByproduct(t, raw, q, y, ignore) >= 0.0
    decreases Rank(q), 3
  {
    if q !in raw {
      ByproductNonNegative(t, raw, q, y, ignore);
    }
  }

  lemma {:induction false} ByproductOfNonNegative(t: Table, raw: set<Item>, p: Item, m: real, ignore: bool, i: nat)
    requires Resolvable(t) && PositiveRates(t) && p in t && i <= |t[p].Inputs()| && m >= 0.0
    ensures ByproductOf(t, raw, p, m, ignore, i) >= 0.0
    decreases Rank(p), 1, |t[p].Inputs()| - i
  {
    if i < |t[p].Inputs()| {
      var y := Times(m, t[p].Inputs()[i].1);
      assert y >= 0.0 by { Positive(m, t[p].Inputs()[i].1); }
      IngredientByproductNonNegative(t, raw, t[p].Inputs()[i].0, y, ignore);
      ByproductOfNonNegative(t, raw, p, m, ignore, i + 1);
    }
  }

  lemma Positive(a: real, b: real)
    requires a >= 0.0 && b >= 0.0
    ensures a * b >= 0.0
  {
  }

  /** With a non-negative goal backtrack only ever increases counters and the tally. */
  lemma ResolveIncreases(t: Table, p: Item, g: real, ignore: bool, s: Snapshot)
    requires Resolvable(t) && PositiveRates(t) && Covers(s, t) && Disjoint(s) && g >= 0.0
    ensures var r := Resolve(t, p, g, ignore, s);
      && SameKeys(s, r)
      && (forall b: Slot, x :: x in s.dicts[b] ==> r.dicts[b][x] >= s.dicts[b][x])
      && r.hydrogen >= s.hydrogen
  {
    var raw := s.dicts[Materials].Keys;
    var r := Resolve(t, p, g, ignore, s);
    ResolveAdds(t, p, g, ignore, s);
    forall b: Slot, x | x in s.dicts[b] ensures r.dicts[b][x] >= s.dicts[b][x] {
      GrowsAt(s, r, x => Demand(t, raw, p, g, x), Byproduct(t, raw, p, g, ignore), b, x);
      DemandNonNegative(t, raw, p, g, x);
    }
    ByproductNonNegative(t, raw, p, g, ignore);
  }

  /** backtrack on a name that is no key of the table, a raw material included, changes nothing. */
  lemma NonKeyUnchanged(t: Table, p: Item, g: real, ignore: bool, s: Snapshot)
    requires Resolvable(t) && Covers(s, t) && p !in t
    ensures Resolve(t, p, g, ignore, s) == s
  {
  }

  /** An ingredient that is neither a raw material nor a recipe key (deuterium) contributes nothing. */
  lemma NeitherContributesNothing(t: Table, q: Item, y: real, ignore: bool, s: Snapshot)
    requires Resolvable(t) && Covers(s, t)
    requires q !in s.dicts[Materials] && q !in t
    ensures Ingredient(t, q, y, ignore, s) == s
  {
  }

  // ---------------------------------------------------------------------
  // Linearity: scaling the goal by k scales everything backtrack adds by k

  lemma TimesZero(k: real)
    ensures Times(k, 0.0) == 0.0
  {
  }

  lemma TimesSum(k: real, a: real, b: real)
    ensures Times(k, a + b) == Times(k, a) + Times(k, b)
  {
  }

  lemma TimesAssoc(k: real, m: real, a: real)
    ensures Times(Times(k, m), a) == Times(k, Times(m, a))
  {
  }

  lemma TimesDiv(k: real, g: real, r: real)
    requires r != 0.0
    ensures Times(k, g) / r == Times(k, g / r)
  {
  }

  lemma {:induction false} DemandScales(t: Table, raw: set<Item>, p: Item, g: real, k: real, x: Item)
    requires Resolvable(t)
    ensures Demand(t, raw, p, Times(k, g), x) == Times(k, Demand(t, raw, p, g, x))
    decreases Rank(p), 2
  {
    TimesZero(k);
    if p in t {
      var m := g / t[p].rate;
      TimesDiv(k, g, t[p].rate);
      DemandOfScales(t, raw, p, m, k, 0, x);
      TimesSum(k, if x == p then g else 0.0, DemandOf(t, raw, p, m, 0, x));
    }
  }

  lemma {:induction false} IngredientDemandScales(t: Table, raw: set<Item>, q: Item, y: real, k: real, x: Item)
    requires Resolvable(t)
    ensures IngredientDemand(t, raw, q, Times(k, y), x) == Times(k, IngredientDemand(t, raw, q, y, x))
    decreases Rank(q), 3
  {
    TimesZero(k);
    if q !in raw {
      DemandScales(t, raw, q, y, k, x);
    }
  }

  lemma {:induction false} DemandOfScales(t: Table, raw: set<Item>, p: Item, m: real, k: real, i: nat, x: Item)
    requires Resolvable(t) && p in t && i <= |t[p].Inputs()|
    ensures DemandOf(t, raw, p, Times(k, m), i, x) == Times(k, DemandOf(t, raw, p, m, i, x))
    decreases Rank(p), 1, |t[p].Inputs()| - i
  {
    TimesZero(k);
    if i < |t[p].Inputs()| {
      var q := t[p].Inputs()[i].0;
      var a := t[p].Inputs()[i].1;
      TimesAssoc(k, m, a);
      IngredientDemandScales(t, raw, q, Times(m, a), k, x);
      DemandOfScales(t, raw, p, m, k, i + 1, x);
      TimesSum(k, IngredientDemand(t, raw, q, Times(m, a), x), DemandOf(t, raw, p, m, i + 1, x));
    }
  }

  lemma {:induction false} ByproductScales(t: Table, raw: set<Item>, p: Item, g: real, k: real, ignore: bool)
    requires Resolvable(t)
    ensures Byproduct(t, raw, p, Times(k, g), ignore) == Times(k, Byproduct(t, raw, p, g, ignore))
    decreases Rank(p), 2
  {
    TimesZero(k);
    if p in t {
      var e := t[p];
      var m := g / e.rate;
      TimesDiv(k, g, e.rate);
      ByproductOfScales(t, raw, p, m, k, ignore, 0);
      var own := if e.WithByproduct? && !ignore then Times(m, e.byproduct) else 0.0;
      if e.WithByproduct? && !ignore {
        TimesAssoc(k, m, e.byproduct);
      }
      TimesSum(k, own, ByproductOf(t, raw, p, m, ignore, 0));
    }
  }

  lemma {:induction false} IngredientByproductScales(t: Table, raw: set<Item>, q: Item, y: real, k: real, ignore: bool)
    requires Resolvable(t)
    ensures IngredientByproduct(t, raw, q, Times(k, y), ignore) == Times(k, IngredientByproduct(t, raw, q, y, ignore))
    decreases Rank(q), 3
  {
    TimesZero(k);
    if q !in raw {
      ByproductScales(t, raw, q, y, k, ignore);
    }
  }

  lemma {:induction false} ByproductOfScales(t: Table, raw: set<Item>, p: Item, m: real, k: real, ignore: bool, i: nat)
    requires Resolvable(t) && p in t && i <= |t[p].Inputs()|
    ensures ByproductOf(t, raw, p, Times(k, m), ignore, i) == Times(k, ByproductOf(t, raw, p, m, ignore, i))
    decreases Rank(p), 1, |t[p].Inputs()| - i
  {
    TimesZero(k);
    if i < |t[p].Inputs()| {
      var q := t[p].Inputs()[i].0;
      var a := t[p].Inputs()[i].1;
      TimesAssoc(k, m, a);
      IngredientByproductScales(t, raw, q, Times(m, a), k, ignore);
      ByproductOfScales(t, raw, p, m, k, ignore, i + 1);
      TimesSum(k, IngredientByproduct(t, raw, q, Times(m, a), ignore), ByproductOf(t, raw, p, m, ignore, i + 1));
    }
  }

  /**
   * backtrack is linear in its goal: what a run at goal k * g adds to a
   * counter is k times what a run at g adds to it.
   */
  lemma ResolveScales(t: Table, p: Item, g: real, k: real, ignore: bool, s: Snapshot, x: Item)
    requires Resolvable(t) && Covers(s, t) && Disjoint(s)
    ensures Amount(Resolve(t, p, Times(k, g), ignore, s), x) - Amount(s, x)
            == Times(k, Amount(Resolve(t, p, g, ignore, s), x) - Amount(s, x))
  {
    var raw := s.dicts[Materials].Keys;
    var d := Demand(t, raw, p, g, x);
    var dk := Demand(t, raw, p, Times(k, g), x);
    ResolveAdds(t, p, g, ignore, s);
    AmountGrows(s, Resolve(t, p, g, ignore, s), y => Demand(t, raw, p, g, y), Byproduct(t, raw, p, g, ignore), x);
    ResolveAdds(t, p, Times(k, g), ignore, s);
    AmountGrows(s, Resolve(t, p, Times(k, g), ignore, s), y => Demand(t, raw, p, Times(k, g), y),
                Byproduct(t, raw, p, Times(k, g), ignore), x);
    DemandScales(t, raw, p, g, k, x);
    if Known(s, x) {
      assert Amount(Resolve(t, p, g, ignore, s), x) - Amount(s, x) == d;
      assert Amount(Resolve(t, p, Times(k, g), ignore, s), x) - Amount(s, x) == dk;
    } else {
      TimesZero(k);
    }
  }

  /** The same for the hydrogen tally: a run at goal k * g tallies k times the byproduct of a run at g. */
  lemma HydrogenScales(t: Table, p: Item, g: real, k: real, ignore: bool, s: Snapshot)
    requires Resolvable(t) && Covers(s, t) && Disjoint(s)
    ensures Resolve(t, p, Times(k, g), ignore, s).hydrogen - s.hydrogen
            == Times(k, Resolve(t, p, g, ignore, s).hydrogen - s.hydrogen)
  {
    var raw := s.dicts[Materials].Keys;
    ResolveAdds(t, p, g, ignore, s);
    ResolveAdds(t, p, Times(k, g), ignore, s);
    ByproductScales(t, raw, p, g, k, ignore);
  }

  // ---------------------------------------------------------------------
  // A run from the module's initial state

  /** Every counter of the initial state is zero, and its dictionaries are disjoint. */
  lemma InitialZero(b: Slot, x: Item)
    requires x in InitialSnapshot().dicts[b]
    ensures InitialSnapshot().dicts[b][x] == 0.0
  {
  }

  lemma InitialIsDisjoint()
    ensures Disjoint(InitialSnapshot())
  {
    forall b: Slot, c: Slot, x | x in InitialSnapshot().dicts[b] && x in InitialSnapshot().dicts[c] ensures b == c {
      InitialDisjoint(b, c, x);
    }
  }

  /** Whatever rare names are selected, a run from the initial state meets backtrack's needs. */
  lemma InitialReady(sel: seq<Item>)
    ensures Resolvable(Substituted(InitialTable(), sel)) && PositiveRates(Substituted(InitialTable(), sel))
    ensures Covers(InitialSnapshot(), Substituted(InitialTable(), sel))
    ensures Disjoint(InitialSnapshot())
  {
    AnySelectionSound(sel);
    InitialCovers();
    InitialIsDisjoint();
  }

  /**
   * The counters after one run of the program: the module's table with the
   * rare names sel substituted (none for sel == []), counters at zero, then
   * backtrack(p, g, ignore).
   */
  function FreshRun(sel: seq<Item>, p: Item, g: real, ignore: bool): Snapshot {
    InitialReady(sel);
    Resolve(Substituted(InitialTable(), sel), p, g, ignore, InitialSnapshot())
  }

  /** The counters of the source before any run: every one zero, the tally zero. */
  ghost predicate Zeroed(s: Snapshot) {
    && (forall b: Slot, x :: x in s.dicts[b] ==> s.dicts[b][x] == 0.0)
    && s.hydrogen == 0.0
  }

  lemma InitialZeroed()
    ensures Zeroed(InitialSnapshot())
    ensures InitialSnapshot().dicts[Materials].Keys == MaterialKeys
  {
  }

  /** Only items of the table and raw materials are ever credited. */
  lemma {:induction false} DemandSupport(t: Table, raw: set<Item>, p: Item, g: real, x: Item)
    requires Resolvable(t) && x !in t && x !in raw
    ensures Demand(t, raw, p, g, x) == 0.0
    decreases Rank(p), 2
  {
    if p in t {
      DemandOfSupport(t, raw, p, g / t[p].rate, 0, x);
    }
  }

  lemma {:induction false} IngredientDemandSupport(t: Table, raw: set<Item>, q: Item, y: real, x: Item)
    requires Resolvable(t) && x !in t && x !in raw
    ensures IngredientDemand(t, raw, q, y, x) == 0.0
    decreases Rank(q), 3
  {
    if q !in raw {
      DemandSupport(t, raw, q, y, x);
    }
  }

  lemma {:induction false} DemandOfSupport(t: Table, raw: set<Item>, p: Item, m: real, i: nat, x: Item)
    requires Resolvable(t) && p in t && i <= |t[p].Inputs()| && x !in t && x !in raw
    ensures DemandOf(t, raw, p, m, i, x) == 0.0
    decreases Rank(p), 1, |t[p].Inputs()| - i
  {
    if i < |t[p].Inputs()| {
      IngredientDemandSupport(t, raw, t[p].Inputs()[i].0, Times(m, t[p].Inputs()[i].1), x);
      DemandOfSupport(t, raw, p, m, i + 1, x);
    }
  }

  /** From zeroed counters, every counter ends at exactly its Demand and the tally at the Byproduct. */
  lemma FromZero(t: Table, p: Item, g: real, ignore: bool, s: Snapshot, x: Item)
    requires Resolvable(t) && Covers(s, t) && Disjoint(s) && Zeroed(s)
    ensures Amount(Resolve(t, p, g, ignore, s), x) == Demand(t, s.dicts[Materials].Keys, p, g, x)
    ensures Resolve(t, p, g, ignore, s).hydrogen == Byproduct(t, s.dicts[Materials].Keys, p, g, ignore)
  {
    var raw := s.dicts[Materials].Keys;
    ResolveAdds(t, p, g, ignore, s);
    AmountGrows(s, Resolve(t, p, g, ignore, s), y => Demand(t, raw, p, g, y), Byproduct(t, raw, p, g, ignore), x);
    if x in raw {
      RouteDisjoint(s, Materials, x);
    } else if x !in t {
      DemandSupport(t, raw, p, g, x);
    }
  }

  /** In a fresh run every counter holds exactly its Demand, and the tally exactly the Byproduct. */
  lemma FreshRunAmounts(sel: seq<Item>, p: Item, g: real, ignore: bool, x: Item)
    ensures Resolvable(Substituted(InitialTable(), sel))
    ensures Amount(FreshRun(sel, p, g, ignore), x) == Demand(Substituted(InitialTable(), sel), MaterialKeys, p, g, x)
    ensures FreshRun(sel, p, g, ignore).hydrogen == Byproduct(Substituted(InitialTable(), sel), MaterialKeys, p, g, ignore)
  {
    InitialReady(sel);
    InitialZeroed();
    FromZero(Substituted(InitialTable(), sel), p, g, ignore, InitialSnapshot(), x);
  }

  /** The demand of 'iron_ingot' at 60, for any table holding the source's recipe for it. */
  lemma IronIngotDemand(t: Table, raw: set<Item>, x: Item)
    requires Resolvable(t) && IronIngot in t && t[IronIngot] == Plain(60.0, [(Iron, 60.0)]) && Iron in raw
    ensures Demand(t, raw, IronIngot, 60.0, x) == if x == IronIngot || x == Iron then 60.0 else 0.0
    ensures Byproduct(t, raw, IronIngot, 60.0, false) == 0.0
  {
    assert DemandOf(t, raw, IronIngot, 1.0, 1, x) == 0.0;
    assert IngredientDemand(t, raw, Iron, 60.0, x) == if x == Iron then 60.0 else 0.0;
    assert ByproductOf(t, raw, IronIngot, 1.0, false, 1) == 0.0;
    assert IngredientByproduct(t, raw, Iron, 60.0, false) == 0.0;
  }

  /** The table of a run without rare recipes: the source's own. */
  lemma NoRaresTable()
    ensures Substituted(InitialTable(), []) == InitialTable()
    ensures Resolvable(InitialTable())
  {
    UnknownNamesIgnored(InitialTable(), [], []);
    InitialReady([]);
  }

  /** 'iron_ingot' at 60 per minute: iron_ingot 60 and iron 60, nothing else. */
  lemma IronIngotExample()
    ensures forall x :: Amount(FreshRun([], IronIngot, 60.0, false), x) == if x == IronIngot || x == Iron then 60.0 else 0.0
    ensures FreshRun([], IronIngot, 60.0, false).hydrogen == 0.0
  {
    NoRaresTable();
    var t := InitialTable();
    assert t[IronIngot] == Plain(60.0, [(Iron, 60.0)]);
    forall x ensures Amount(FreshRun([], IronIngot, 60.0, false), x) == if x == IronIngot || x == Iron then 60.0 else 0.0 {
      FreshRunAmounts([], IronIngot, 60.0, false, x);
      IronIngotDemand(t, MaterialKeys, x);
    }
    FreshRunAmounts([], IronIngot, 60.0, false, Iron);
    IronIngotDemand(t, MaterialKeys, Iron);
  }

  lemma MagnetDemand(t: Table, raw: set<Item>, x: Item)
    requires Resolvable(t) && Magnet in t && t[Magnet] == Plain(40.0, [(Iron, 40.0)]) && Iron in raw
    ensures Demand(t, raw, Magnet, 180.0, x) == if x == Magnet || x == Iron then 180.0 else 0.0
    ensures Byproduct(t, raw, Magnet, 180.0, false) == 0.0
  {
    assert DemandOf(t, raw, Magnet, 4.5, 1, x) == 0.0;
    assert IngredientDemand(t, raw, Iron, 180.0, x) == if x == Iron then 180.0 else 0.0;
    assert ByproductOf(t, raw, Magnet, 4.5, false, 1) == 0.0;
    assert IngredientByproduct(t, raw, Iron, 180.0, false) == 0.0;
  }

  lemma CopperIngotDemand(t: Table, raw: set<Item>, x: Item)
    requires Resolvable(t) && CopperIngot in t && t[CopperIngot] == Plain(60.0, [(Copper, 60.0)]) && Copper in raw
    ensures Demand(t, raw, CopperIngot, 90.0, x) == if x == CopperIngot || x == Copper then 90.0 else 0.0
    ensures Byproduct(t, raw, CopperIngot, 90.0, false) == 0.0
  {
    assert DemandOf(t, raw, CopperIngot, 1.5, 1, x) == 0.0;
    assert IngredientDemand(t, raw, Copper, 90.0, x) == if x == Copper then 90.0 else 0.0;
    assert ByproductOf(t, raw, CopperIngot, 1.5, false, 1) == 0.0;
    assert IngredientByproduct(t, raw, Copper, 90.0, false) == 0.0;
  }

  /** The demand of 'magnetic_coil' at 180: two levels of recipes below it. */
  lemma MagneticCoilDemand(t: Table, raw: set<Item>, x: Item)
    requires Resolvable(t) && MagneticCoil in t && Magnet in t && CopperIngot in t
    requires t[MagneticCoil] == Plain(180.0, [(Magnet, 180.0), (CopperIngot, 90.0)])
    requires t[Magnet] == Plain(40.0, [(Iron, 40.0)]) && t[CopperIngot] == Plain(60.0, [(Copper, 60.0)])
    requires Iron in raw && Copper in raw && Magnet !in raw && CopperIngot !in raw
    ensures Demand(t, raw, MagneticCoil, 180.0, x)
            == if x == MagneticCoil || x == Magnet || x == Iron then 180.0
               else if x == CopperIngot || x == Copper then 90.0
               else 0.0
    ensures Byproduct(t, raw, MagneticCoil, 180.0, false) == 0.0
  {
    MagnetDemand(t, raw, x);
    CopperIngotDemand(t, raw, x);
    assert DemandOf(t, raw, MagneticCoil, 1.0, 2, x) == 0.0;
    assert DemandOf(t, raw, MagneticCoil, 1.0, 1, x) == IngredientDemand(t, raw, CopperIngot, 90.0, x);
    assert IngredientDemand(t, raw, Magnet, 180.0, x) == Demand(t, raw, Magnet, 180.0, x);
    assert IngredientDemand(t, raw, CopperIngot, 90.0, x) == Demand(t, raw, CopperIngot, 90.0, x);
    assert ByproductOf(t, raw, MagneticCoil, 1.0, false, 2) == 0.0;
    assert ByproductOf(t, raw, MagneticCoil, 1.0, false, 1) == IngredientByproduct(t, raw, CopperIngot, 90.0, false);
    assert IngredientByproduct(t, raw, Magnet, 180.0, false) == Byproduct(t, raw, Magnet, 180.0, false);
    assert IngredientByproduct(t, raw, CopperIngot, 90.0, false) == Byproduct(t, raw, CopperIngot, 90.0, false);
  }

  /** The three recipes the 'magnetic_coil' example goes through, and the materials it stops at. */
  lemma MagneticCoilEntries()
    ensures MagneticCoil in InitialTable() && Magnet in InitialTable() && CopperIngot in InitialTable()
    ensures InitialTable()[MagneticCoil] == Plain(180.0, [(Magnet, 180.0), (CopperIngot, 90.0)])
    ensures InitialTable()[Magnet] == Plain(40.0, [(Iron, 40.0)])
    ensures InitialTable()[CopperIngot] == Plain(60.0, [(Copper, 60.0)])
    ensures Iron in MaterialKeys && Copper in MaterialKeys && Magnet !in MaterialKeys && CopperIngot !in MaterialKeys
  {
  }

  /** 'magnetic_coil' at 180 per minute: magnet 180, copper_ingot 90, iron 180, copper 90. */
  lemma MagneticCoilExample()
    ensures forall x :: Amount(FreshRun([], MagneticCoil, 180.0, false), x)
                        == if x == MagneticCoil || x == Magnet || x == Iron then 180.0
                           else if x == CopperIngot || x == Copper then 90.0
                           else 0.0
    ensures FreshRun([], MagneticCoil, 180.0, false).hydrogen == 0.0
  {
    NoRaresTable();
    MagneticCoilEntries();
    forall x ensures Amount(FreshRun([], MagneticCoil, 180.0, false), x)
                     == if x == MagneticCoil || x == Magnet || x == Iron then 180.0
                        else if x == CopperIngot || x == Copper then 90.0
                        else 0.0
    {
      FreshRunAmounts([], MagneticCoil, 180.0, false, x);
      MagneticCoilDemand(InitialTable(), MaterialKeys, x);
    }
    FreshRunAmounts([], MagneticCoil, 180.0, false, Iron);
    MagneticCoilDemand(InitialTable(), MaterialKeys, Iron);
  }

  /** The demand of 'refined_oil' at 30, whose recipe has a byproduct. */
  lemma RefinedOilDemand(t: Table, raw: set<Item>, x: Item)
    requires Resolvable(t) && RefinedOil in t && t[RefinedOil] == WithByproduct(30.0, [(Crude, 30.0)], 15.0) && Crude in raw
    ensures Demand(t, raw, RefinedOil, 30.0, x) == if x == RefinedOil || x == Crude then 30.0 else 0.0
    ensures Byproduct(t, raw, RefinedOil, 30.0, false) == 15.0
  {
    assert DemandOf(t, raw, RefinedOil, 1.0, 1, x) == 0.0;
    assert IngredientDemand(t, raw, Crude, 30.0, x) == if x == Crude then 30.0 else 0.0;
    assert ByproductOf(t, raw, RefinedOil, 1.0, false, 1) == 0.0;
    assert IngredientByproduct(t, raw, Crude, 30.0, false) == 0.0;
  }

  /** 'refined_oil' at 30 per minute: refined_oil 30, crude 30, and a hydrogen byproduct of 15. */
  lemma RefinedOilExample()
    ensures forall x :: Amount(FreshRun([], RefinedOil, 30.0, false), x) == if x == RefinedOil || x == Crude then 30.0 else 0.0
    ensures FreshRun([], RefinedOil, 30.0, false).hydrogen == 15.0
  {
    NoRaresTable();
    var t := InitialTable();
    assert t[RefinedOil] == WithByproduct(30.0, [(Crude, 30.0)], 15.0);
    forall x ensures Amount(FreshRun([], RefinedOil, 30.0, false), x) == if x == RefinedOil || x == Crude then 30.0 else 0.0 {
      FreshRunAmounts([], RefinedOil, 30.0, false, x);
      RefinedOilDemand(t, MaterialKeys, x);
    }
    FreshRunAmounts([], RefinedOil, 30.0, false, Crude);
    RefinedOilDemand(t, MaterialKeys, Crude);
  }

  // ---------------------------------------------------------------------
  // Steps of the imperative backtrack, stated on values

  /** Lines 69-72 with the multiplier held in a variable m. */
  lemma ProduceWith(s: Snapshot, p: Item, e: Recipe, g: real, ignore: bool, m: real)
    requires Known(s, p) && e.rate != 0.0 && m == g / e.rate
    ensures !(e.WithByproduct? && !ignore) ==> Produce(s, p, e, g, ignore) == Credit(s, p, Times(m, e.rate))
    ensures e.WithByproduct? && !ignore ==>
              Produce(s, p, e, g, ignore) == Credit(s, p, Times(m, e.rate)).(hydrogen := s.hydrogen + Times(m, e.byproduct))
  {
  }

  /** One pass of backtrack's loop, for the ingredient (q, a) at position i, needed at rate y. */
  lemma ResolveIngredientsStep(t: Table, p: Item, m: real, ignore: bool, i: nat, s: Snapshot, q: Item, a: real, y: real)
    requires Resolvable(t) && Covers(s, t) && p in t && i < |t[p].Inputs()| && t[p].Inputs()[i] == (q, a) && y == Times(m, a)
    ensures Rank(q) < Rank(p) && Covers(Ingredient(t, q, y, ignore, s), t)
    ensures ResolveIngredients(t, p, m, ignore, i, s) == ResolveIngredients(t, p, m, ignore, i + 1, Ingredient(t, q, y, ignore, s))
  {
    assert RankedRecipe(p, t[p]);
    CoversKept(s, Ingredient(t, q, y, ignore, s), t);
  }

  // ---------------------------------------------------------------------
  // The module's shared state and the procedures that update it

  /**
   * The source's module-level counters. Its eight dictionaries (smelter,
   * refinery, chemical_plant, particle_collider, ray_receiver, assembler,
   * matrix_lab, materials) are the eight entries of dicts, indexed by Slot.
   */
  class Planner {
    var dicts: Dicts
    /** byproducts['hydrogen'], the only byproduct the source tracks. */
    var hydrogen: real

    /** The counters as a value. */
    function View(): Snapshot
      reads this
    {
      Snapshot(dicts, hydrogen)
    }

    /** The counters as the module declares them: every one zero. */
    constructor ()
      ensures View() == InitialSnapshot()
    {
      dicts := InitialSnapshot().dicts;
      hydrogen := 0.0;
    }

    /**
     * update_products: adds numNeeded to the counter of the first dictionary
     * holding product, materials last. A name that not even materials holds
     * raises KeyError in the source; here ok is false and nothing changes.
     */
    method UpdateProducts(product: Item, numNeeded: real) returns (ok: bool)
      modifies this
      ensures ok == Known(old(View()), product)
      ensures ok ==> View() == Credit(old(View()), product, numNeeded)
      ensures !ok ==> View() == old(View())
    {
      ok := true;
      if product in dicts[Smelter] {
        dicts := dicts[Smelter := dicts[Smelter][product := dicts[Smelter][product] + numNeeded]];
      } else if product in dicts[Refinery] {
        dicts := dicts[Refinery := dicts[Refinery][product := dicts[Refinery][product] + numNeeded]];
      } else if product in dicts[ChemicalPlant] {
        dicts := dicts[ChemicalPlant := dicts[ChemicalPlant][product := dicts[ChemicalPlant][product] + numNeeded]];
      } else if product in dicts[ParticleCollider] {
        dicts := dicts[ParticleCollider := dicts[ParticleCollider][product := dicts[ParticleCollider][product] + numNeeded]];
      } else if product in dicts[RayReceiver] {
        dicts := dicts[RayReceiver := dicts[RayReceiver][product := dicts[RayReceiver][product] + numNeeded]];
      } else if product in dicts[Assembler] {
        dicts := dicts[Assembler := dicts[Assembler][product := dicts[Assembler][product] + numNeeded]];
      } else if product in dicts[MatrixLab] {
        dicts := dicts[MatrixLab := dicts[MatrixLab][product := dicts[MatrixLab][product] + numNeeded]];
      } else if product in dicts[Materials] {
        dicts := dicts[Materials := dicts[Materials][product := dicts[Materials][product] + numNeeded]];
      } else {
        ok := false;
      }
    }

    /**
     * backtrack(product, goal, ignore) over the table that catalog holds:
     * the counters end as Resolve says.
     */
    method Backtrack(catalog: Catalog, product: Item, goal: real, ignore: bool)
      requires Resolvable(catalog.recipes) && Covers(View(), catalog.recipes)
      modifies this
      ensures View() == Resolve(catalog.recipes, product, goal, ignore, old(View()))
      decreases Rank(product), 2
    {
      var t := catalog.recipes;
      ghost var s := View();
      if product in t {
        var e := t[product];
        var multiplier := goal / e.rate;
        ProduceWith(s, product, e, goal, ignore, multiplier);
        var ok := UpdateProducts(product, Times(multiplier, e.rate));
        if e.WithByproduct? && !ignore {
          hydrogen := hydrogen + Times(multiplier, e.byproduct);
        } else if e.Terminal? {
          return;
        }
        assert View() == Produce(s, product, e, goal, ignore);
        CoversKept(s, View(), t);
        ResolveEach(catalog, product, multiplier, ignore);
      }
    }

    /** The loop of backtrack over the ingredients of product, at the given multiplier. */
    method ResolveEach(catalog: Catalog, product: Item, multiplier: real, ignore: bool)
      requires Resolvable(catalog.recipes) && Covers(View(), catalog.recipes) && product in catalog.recipes
      modifies this
      ensures View() == ResolveIngredients(catalog.recipes, product, multiplier, ignore, 0, old(View()))
      decreases Rank(product), 1
    {
      var t := catalog.recipes;
      var e := t[product];
      var i: nat := 0;
      while i < |e.Inputs()|
        invariant i <= |e.Inputs()|
        invariant Covers(View(), t)
        invariant ResolveIngredients(t, product, multiplier, ignore, i, View()) == ResolveIngredients(t, product, multiplier, ignore, 0, old(View()))
      {
        ResolveIngredient(catalog, product, multiplier, ignore, i);
        i := i + 1;
      }
    }

    /**
     * Pass i of that loop: the i-th ingredient of product is credited directly
     * when it is a raw material and backtracked otherwise.
     */
    method ResolveIngredient(catalog: Catalog, product: Item, multiplier: real, ignore: bool, i: nat)
      requires Resolvable(catalog.recipes) && Covers(View(), catalog.recipes)
      requires product in catalog.recipes && i < |catalog.recipes[product].Inputs()|
      modifies this
      ensures View() == Ingredient(catalog.recipes, catalog.recipes[product].Inputs()[i].0,
                                   Times(multiplier, catalog.recipes[product].Inputs()[i].1), ignore, old(View()))
      ensures Covers(View(), catalog.recipes)
      ensures ResolveIngredients(catalog.recipes, product, multiplier, ignore, i + 1, View())
           == ResolveIngredients(catalog.recipes, product, multiplier, ignore, i, old(View()))
      decreases Rank(product), 0
    {
      var t := catalog.recipes;
      var s := View();
      var (ingredient, rate) := t[product].Inputs()[i];
      var needed := Times(multiplier, rate);
      ResolveIngredientsStep(t, product, multiplier, ignore, i, s, ingredient, rate, needed);
      if ingredient in dicts[Materials] {
        MaterialKnown(s, ingredient);
        var ok := UpdateProducts(ingredient, needed);
      } else {
        Backtrack(catalog, ingredient, needed, ignore);
      }
    }
  }

  /**
   * One run of the program with --use_rares: the module-level table and
   * counters as the source initialises them, use_rares(rares), then
   * backtrack(p, g, ignore). The counters end as FreshRun says.
   */
  method RunWithRares(rares: Option<seq<Item>>, p: Item, g: real, ignore: bool) returns (pl: Planner)
    ensures pl.View() == FreshRun(Selection(rares), p, g, ignore)
  {
    var catalog := new Catalog();
    catalog.UseRares(rares);
    InitialReady(Selection(rares));
    pl := new Planner();
    pl.Backtrack(catalog, p, g, ignore);
  }

  /** One run without --use_rares: use_rares is never called, which is the empty selection. */
  method Run(p: Item, g: real, ignore: bool) returns (pl: Planner)
    ensures pl.View() == FreshRun([], p, g, ignore)
  {
    var catalog := new Catalog();
    InitialReady([]);
    NoRaresTable();
    pl := new Planner();
    pl.Backtrack(catalog, p, g, ignore);
  }

  // ---------------------------------------------------------------------
  // simplify: from one counter dictionary to numbers of factories

  /** The least integer at or above x, as math.ceil computes it. */
  function Ceil(x: real): (n: int)
    ensures n as real - 1.0 < x <= n as real
  {
    -((-x).Floor)
  }

  /**
   * Every entry simplify reports can be priced: its item has a table entry
   * with a non-zero output rate. Otherwise the source stops with a KeyError
   * or a ZeroDivisionError.
   */
  predicate Priced(t: Table, f: seq<(Item, real)>) {
    forall i :: 0 <= i < |f| && f[i].1 > 0.0 ==> f[i].0 in t && t[f[i].0].rate != 0.0
  }

  /** The lines of simplify's output: each positive entry with demand / r0 factories, in order. */
  function Rows(t: Table, f: seq<(Item, real)>): seq<(Item, real)>
    requires Priced(t, f)
  {
    if f == [] then []
    else
      var k := f[|f| - 1].0;
      var v := f[|f| - 1].1;
      Rows(t, f[..|f| - 1]) + if v > 0.0 then [(k, v / t[k].rate)] else []
  }

  /** The sum of the ceilings of the counts. */
  function CeilSum(rows: seq<(Item, real)>): int {
    if rows == [] then 0 else CeilSum(rows[..|rows| - 1]) + Ceil(rows[|rows| - 1].1)
  }

  /** The sum of the counts themselves. */
  function CountSum(rows: seq<(Item, real)>): real {
    if rows == [] then 0.0 else CountSum(rows[..|rows| - 1]) + rows[|rows| - 1].1
  }

  /** What simplify reports of one dictionary: its lines and its total. */
  datatype Report = Report(rows: seq<(Item, real)>, total: int)

  /** simplify's result, or None where it raises. */
  function Summary(t: Table, f: seq<(Item, real)>): Option<Report> {
    if Priced(t, f) then Some(Report(Rows(t, f), CeilSum(Rows(t, f)))) else None
  }

  /**
   * simplify(factory, name), with the dictionary given as its entries in
   * iteration order and the table as a parameter.
   */
  method Simplify(t: Table, factory: seq<(Item, real)>) returns (r: Option<Report>)
    ensures r == Summary(t, factory)
  {
    var rows: seq<(Item, real)> := [];
    var total := 0;
    var i := 0;
    while i < |factory|
      invariant i <= |factory|
      invariant Priced(t, factory[..i])
      invariant rows == Rows(t, factory[..i])
      invariant total == CeilSum(rows)
    {
      var entry := factory[i];
      if entry.1 > 0.0 {
        if entry.0 !in t || t[entry.0].rate == 0.0 {
          UnpricedEntry(t, factory, i);
          return None;
        }
        var count := entry.1 / t[entry.0].rate;
        RowsStep(t, factory, i);
        CeilSumStep(rows, (entry.0, count));
        rows := rows + [(entry.0, count)];
        total := total + Ceil(count);
      } else {
        RowsStep(t, factory, i);
      }
      i := i + 1;
    }
    assert factory[..i] == factory;
    return Some(Report(rows, total));
  }

  lemma UnpricedEntry(t: Table, f: seq<(Item, real)>, i: nat)
    requires i < |f| && f[i].1 > 0.0 && (f[i].0 !in t || t[f[i].0].rate == 0.0)
    ensures !Priced(t, f)
  {
  }

  /** One more entry of the dictionary adds at most its own line. */
  lemma RowsStep(t: Table, f: seq<(Item, real)>, i: nat)
    requires i < |f| && Priced(t, f[..i])
    requires f[i].1 > 0.0 ==> f[i].0 in t && t[f[i].0].rate != 0.0
    ensures Priced(t, f[..i + 1])
    ensures Rows(t, f[..i + 1]) == Rows(t, f[..i]) + if f[i].1 > 0.0 then [(f[i].0, f[i].1 / t[f[i].0].rate)] else []
  {
    assert f[..i + 1][..i] == f[..i];
  }

  lemma CountSumStep(rows: seq<(Item, real)>, row: (Item, real))
    ensures CountSum(rows + [row]) == CountSum(rows) + row.1
  {
    assert (rows + [row])[..|rows|] == rows;
  }

  lemma CeilSumStep(rows: seq<(Item, real)>, row: (Item, real))
    ensures CeilSum(rows + [row]) == CeilSum(rows) + Ceil(row.1)
  {
    assert (rows + [row])[..|rows|] == rows;
  }

  /** A line is reported for exactly the positive entries, each at demand / r0. */
  lemma {:induction false} RowsMembers(t: Table, f: seq<(Item, real)>, k: Item, c: real)
    requires Priced(t, f)
    ensures (k, c) in Rows(t, f) <==>
      exists i :: 0 <= i < |f| && f[i].0 == k && f[i].1 > 0.0 && c == f[i].1 / t[k].rate
    decreases |f|
  {
    if f != [] {
      var g := f[..|f| - 1];
      assert Priced(t, g);
      RowsMembers(t, g, k, c);
      if (k, c) in Rows(t, g) {
        var i :| 0 <= i < |g| && g[i].0 == k && g[i].1 > 0.0 && c == g[i].1 / t[k].rate;
        assert f[i] == g[i];
      }
      if exists i :: 0 <= i < |f| && f[i].0 == k && f[i].1 > 0.0 && c == f[i].1 / t[k].rate {
        var i :| 0 <= i < |f| && f[i].0 == k && f[i].1 > 0.0 && c == f[i].1 / t[k].rate;
        if i < |g| {
          assert g[i] == f[i];
        }
      }
    }
  }

  /** One line per positive entry: nothing is reported exactly when no entry is positive. */
  lemma {:induction false} RowsEmpty(t: Table, f: seq<(Item, real)>)
    requires Priced(t, f)
    ensures Rows(t, f) == [] <==> forall i :: 0 <= i < |f| ==> f[i].1 <= 0.0
    decreases |f|
  {
    if f != [] {
      var g := f[..|f| - 1];
      RowsEmpty(t, g);
      forall i | 0 <= i < |g| ensures g[i] == f[i] { }
    }
  }

  /** With positive output rates every reported count is positive. */
  lemma {:induction false} RowsPositive(t: Table, f: seq<(Item, real)>, j: nat)
    requires Priced(t, f) && PositiveRates(t) && j < |Rows(t, f)|
    ensures Rows(t, f)[j].1 > 0.0
  {
    var k := Rows(t, f)[j].0;
    var c := Rows(t, f)[j].1;
    RowsMembers(t, f, k, c);
    var i :| 0 <= i < |f| && f[i].0 == k && f[i].1 > 0.0 && c == f[i].1 / t[k].rate;
    Positive(f[i].1, t[k].rate);
  }

  /**
   * The total is the sum of the ceilings, not the ceiling of the sum: it lies
   * at or above the summed counts and below them plus the number of lines.
   */
  lemma {:induction false} CeilSumBounds(rows: seq<(Item, real)>)
    ensures CountSum(rows) <= CeilSum(rows) as real
    ensures CeilSum(rows) as real < CountSum(rows) + |rows| as real || rows == []
    decreases |rows|
  {
    if rows != [] {
      CeilSumBounds(rows[..|rows| - 1]);
    }
  }

  /** Each positive count needs at least one factory, so the total is at least the number of lines. */
  lemma {:induction false} CeilSumAtLeast(rows: seq<(Item, real)>)
    requires forall j :: 0 <= j < |rows| ==> rows[j].1 > 0.0
    ensures CeilSum(rows) >= |rows|
    decreases |rows|
  {
    if rows != [] {
      CeilSumAtLeast(rows[..|rows| - 1]);
    }
  }

  /**
   * Two items at 66 a minute from recipes of rate 60 are 1.1 factories each:
   * the total is 2 + 2 = 4, while the ceiling of the summed 2.2 is 3.
   */
  lemma CeilingOfEachExample(t: Table, a: Item, b: Item)
    requires a in t && b in t && t[a].rate == 60.0 && t[b].rate == 60.0
    ensures Summary(t, [(a, 66.0), (b, 66.0)]) == Some(Report([(a, 1.1), (b, 1.1)], 4))
    ensures Ceil(CountSum([(a, 1.1), (b, 1.1)])) == 3
  {
    var f := [(a, 66.0), (b, 66.0)];
    assert f[..0] == [] && f[..2] == f;
    RowsStep(t, f, 0);
    RowsStep(t, f, 1);
    assert 66.0 / 60.0 == 1.1;
    var rows := [(a, 1.1), (b, 1.1)];
    assert Rows(t, f) == rows;
    CeilSumStep([], (a, 1.1));
    CeilSumStep([(a, 1.1)], (b, 1.1));
    CountSumStep([], (a, 1.1));
    CountSumStep([(a, 1.1)], (b, 1.1));
  }

  /** A run never credits deuterium, which has no recipe and is no raw material. */
  lemma DeuteriumNeverCredited(sel: seq<Item>, p: Item, g: real, ignore: bool)
    ensures Amount(FreshRun(sel, p, g, ignore), Deuterium) == 0.0
  {
    FreshRunAmounts(sel, p, g, ignore, Deuterium);
    DeuteriumIsNeither();
    AnySelectionSound(sel);
    DemandSupport(Substituted(InitialTable(), sel), MaterialKeys, p, g, Deuterium);
  }

  /** Every key of a factory dictionary but deuterium has a recipe. */
  lemma FactoryKeyHasRecipe(b: Slot, k: Item)
    requires b != Materials && k in InitialSnapshot().dicts[b] && k != Deuterium
    ensures k in InitialTable()
  {
    KeysInRange(k);
    BaseKeys(k);
  }

  /**
   * After a run from the initial state, simplify never raises on a factory
   * dictionary: every factory key but deuterium has a recipe, and deuterium's
   * counter is never credited.
   */
  lemma FreshRunPriced(sel: seq<Item>, p: Item, g: real, ignore: bool, b: Slot, f: seq<(Item, real)>)
    requires b != Materials
    requires forall i :: 0 <= i < |f| ==> f[i].0 in InitialSnapshot().dicts[b]
    requires forall i :: 0 <= i < |f| ==> f[i].1 == Amount(FreshRun(sel, p, g, ignore), f[i].0)
    ensures Priced(Substituted(InitialTable(), sel), f)
  {
    var t := Substituted(InitialTable(), sel);
    AnySelectionSound(sel);
    DeuteriumNeverCredited(sel, p, g, ignore);
    forall i | 0 <= i < |f| && f[i].1 > 0.0
      ensures f[i].0 in t && t[f[i].0].rate != 0.0
    {
      FactoryKeyHasRecipe(b, f[i].0);
      assert EntrySound(f[i].0, t[f[i].0]);
    }
  }
}
