# Dyson Sphere Program production planner: a verified model

The planner takes a target item and a rate in items per minute. It expands the
item through a fixed recipe graph and adds up the rate at which every upstream
item must be produced. It then turns those rates into numbers of factories.
This project models the core of that program in Dafny and proves what it
computes.

- `recipes.dfy`, module `Recipes`, models `dsp_recipes.py`:
  - The `recipes` table is the value `InitialTable()`. An entry is a `Recipe`:
    - `Terminal(r0)` for a one-component tuple;
    - `Plain(r0, ingredients)` for two components;
    - `WithByproduct(r0, ingredients, br)` for three.
  - The table is held by a `Catalog` object whose `recipes` field `UseRares`
    overwrites in place.
  - `UseRares` is proved against the value-level `Substituted`.
  - `Rank` gives every item a depth in the ingredient graph. Every ingredient
    ranks below what it makes, before and after any substitution. This is the
    `decreases` measure of the resolver.
- `dsp.py` (the counters, `update_products`, `backtrack` and `simplify`) is
  modelled in `dsp.dfy`, module `Production`:
  - The nine counter dictionaries are the fields of a `Planner` object:
    - the seven factory dictionaries and `materials`, together as one `dicts`
      sequence indexed by `Slot` in the order `update_products` tests them;
    - `byproducts['hydrogen']` as `hydrogen`.
  - `View()` reads them as a `Snapshot` value.
  - `UpdateProducts` is proved against `Credit`.
  - `Backtrack` is proved against `Resolve`, a function that follows the
    recursion step by step.
  - `Demand` and `Byproduct` define, independently of any counter, what a run
    credits to each item and to the hydrogen tally. `ResolveAdds` ties the two
    together; the properties of a run are proved on it.
  - `Simplify` is proved against `Summary`.

Item names are the integer codes of the newtype `Item`, with one named
constant per name the source spells out (`'iron_ingot'` is `IronIngot`). The
codes are chosen so that each dictionary holds consecutive codes. Rates are
exact `real`s.

`for` loop and recursion of `backtrack` are kept:

- `Planner.Backtrack` is lines 68-74.
- `Planner.ResolveEach` is the `for` loop of lines 75-80.
- `Planner.ResolveIngredient` is pass i of it (lines 76-80).

The three methods call each other exactly as the source's single function
recurses into itself. The products `multiplier * rate` are written through the
function `Times`.

## Model

| member | source | states |
|---|---|---|
| Recipes.InitialTable | dsp_recipes.py:26-157 | the table has a key exactly where the source's literal has an entry, and each key's entry is the one the literal gives (`Base`) |
| Recipes.BaseKeys | dsp_recipes.py:26-157 | the table's 59 keys are exactly the codes from magnet to antimatter |
| Recipes.InitialTableSound | dsp_recipes.py:26-157 | every entry has a positive output rate, positive ingredient rates, a non-negative byproduct rate and two or three components, and every ingredient ranks strictly below the item it makes |
| Recipes.PathDescends | dsp_recipes.py:26-157 | along any chain of "uses as ingredient" edges of a ranked table the rank drops by at least one per edge |
| Recipes.Acyclic | dsp_recipes.py:26-157 | in a ranked table no item is, directly or transitively, an ingredient of itself |
| Recipes.DefaultSelectsAll | dsp_recipes.py:167-169 | no list and the empty list both select the five rare names kimberlite, spiniform, optical, fractal and unipolar, which target every item that has a variant |
| Recipes.TargetsOfEachName | dsp_recipes.py:170-184 | 'optical' replaces photon_combiner and casamir_crystal; each other rare name replaces exactly one recipe (crystal, carbon_nanotube, silicon_crystal, particle_container) |
| Recipes.ReplacesNotMerges | dsp_recipes.py:170-171 | after selecting 'kimberlite', crystal's entry is exactly (80, {kimberlite: 40}); graphite, its old ingredient, is no longer among its ingredients |
| Recipes.SubstitutedKeys | dsp_recipes.py:170-184 | substitution keeps the key set of the table, and every entry not targeted by a selected name is unchanged |
| Recipes.UnknownNamesIgnored | dsp_recipes.py:170-184 | names that are not rare names select nothing, alone or appended to a selection |
| Recipes.SameTargets | dsp_recipes.py:170-184 | two selections that list the same rare names substitute the same (order and repetition do not matter) |
| Recipes.SubstitutedTwice | dsp_recipes.py:170-184 | substituting a and then b equals substituting a + b |
| Recipes.SubstitutedIdempotent | dsp_recipes.py:170-184 | applying the same selection twice gives the table that applying it once gives |
| Recipes.VariantsSound | dsp_recipes.py:170-184 | every rare variant is well formed, has exactly two components (an output rate and ingredients, no byproduct) and is ranked |
| Recipes.SubstitutedSound | dsp_recipes.py:170-184 | substitution keeps a sound table sound |
| Recipes.AcyclicAfterSelection | dsp_recipes.py:26-184 | whatever rare names are selected, no chain of ingredients of the resulting table leads back to its start |
| Recipes.AnySelectionSound | dsp_recipes.py:26-184 | whatever the selection, the substituted source table is sound and has the source table's keys |
| Recipes.SubstitutedInBlocks | dsp_recipes.py:170-184 | substituting a selection equals performing the five `if name in rare_list` blocks one after another, in the source's order |
| Recipes.KimberliteStep | dsp_recipes.py:170-171 | the 'kimberlite' block's assignment equals substituting [kimberlite] |
| Recipes.SpiniformStep | dsp_recipes.py:172-173 | the 'spiniform' block's assignment equals substituting [spiniform] |
| Recipes.OpticalStep | dsp_recipes.py:174-179 | the two assignments of the 'optical' block equal substituting [optical] |
| Recipes.FractalStep | dsp_recipes.py:180-181 | the 'fractal' block's assignment equals substituting [fractal] |
| Recipes.UnipolarStep | dsp_recipes.py:182-184 | the 'unipolar' block's assignment equals substituting [unipolar] |
| Recipes.Catalog.constructor | dsp_recipes.py:26-157 | the module-level table starts as the source's literal |
| Recipes.Catalog.UseRares | dsp_recipes.py:160-184 | the new table is the old one with the selected variants substituted, where the selection is every rare name when the list is absent or empty |
| Production.Route | dsp.py:119-134 | the dictionary chosen for an item holds it unless it is materials, and no dictionary tested earlier holds it |
| Production.Credit | dsp.py:119-134 | exactly one counter changes, the item's in the first dictionary holding it, by exactly the amount; no key appears or disappears and the tally is unchanged |
| Production.Planner.UpdateProducts | dsp.py:109-134 | succeeds exactly when the item has a counter (otherwise the source's KeyError, leaving everything unchanged) and then credits the amount as `Credit` says |
| Production.Planner.constructor | dsp.py:28-56 | the counters start as the source declares them: every counter of the eight dictionaries and the tally at 0 |
| Production.InitialDisjoint | dsp.py:28-56 | no item has a counter in two dictionaries |
| Production.InitialCovers | dsp.py:28-56 | every key of the table has a counter in one of the seven factory dictionaries |
| Production.DeuteriumIsNeither | dsp.py:53 | deuterium has a particle_collider counter but no recipe and is no raw material |
| Production.InitialZeroed | dsp.py:28-32 | every counter starts at zero, and the raw materials are exactly the sixteen names of `materials` |
| Production.InitialReady | dsp.py:28-56 | for any selection of rare names the table is resolvable and has positive rates, and the initial counters cover it and are disjoint |
| Production.Resolve | dsp.py:59-80 | a run of backtrack adds no counter and removes none |
| Production.Ingredient | dsp.py:76-80 | one pass of the loop adds no counter and removes none |
| Production.ResolveIngredients | dsp.py:75-80 | the loop over the ingredients adds no counter and removes none |
| Production.Produce | dsp.py:69-72 | the first step of backtrack adds no counter and removes none |
| Production.Planner.Backtrack | dsp.py:59-80 | the counters and the tally end as `Resolve` of the table, the product, the goal and the old counters |
| Production.Planner.ResolveEach | dsp.py:75-80 | the counters end as backtrack's loop over the product's ingredients, in order, at the multiplier |
| Production.Planner.ResolveIngredient | dsp.py:76-80 | pass i of the loop: the i-th ingredient, at `multiplier` times its rate, is credited directly when it is a raw material and backtracked otherwise, as `Ingredient` says; every table key keeps its counter, and the passes after i compute what passes i onwards computed from the old counters |
| Production.NonKeyUnchanged | dsp.py:68 | backtrack on a name that is no key of the table (a raw material included) changes no counter and not the tally |
| Production.DivTimes | dsp.py:69-70 | (goal / r0) * r0 == goal |
| Production.CreditGrows | dsp.py:109-134 | in a disjoint state, crediting p with y grows p's counter by y and every other counter by 0 |
| Production.ProduceGrows | dsp.py:69-72 | the first step grows the product's own counter by exactly goal, and the tally by (goal / r0) * br for a three-component entry when byproducts are not ignored, otherwise by 0 |
| Production.ResolveAdds | dsp.py:59-80 | a run grows each counter by exactly `Demand` of its item and the tally by exactly `Byproduct`, and changes nothing else |
| Production.IngredientAdds | dsp.py:75-80 | an ingredient that is a raw material grows its own counter by multiplier * rate; any other is resolved with goal multiplier * rate |
| Production.ResolveIngredientsAdds | dsp.py:75-80 | the loop grows every counter by the sum over the remaining ingredients |
| Production.OwnDemand | dsp.py:69-70 | resolving a product with a recipe credits the product itself exactly goal |
| Production.OwnCounter | dsp.py:69-70 | after backtrack(product, goal) the product's counter has grown by exactly goal |
| Production.DemandAbove | dsp.py:59-80 | resolving p credits nothing to an item ranked above p |
| Production.ByproductIgnored | dsp.py:71-72 | with ignore_byproduct set no byproduct is tallied at any depth |
| Production.HydrogenIgnored | dsp.py:71-72 | backtrack with ignore_byproduct set leaves the hydrogen tally unchanged |
| Production.NeitherContributesNothing | dsp.py:75-80 | an ingredient that is neither a raw material nor a key of the table (such as deuterium) changes nothing |
| Production.DemandNonNegative | dsp.py:59-80 | with a non-negative goal and a table of positive rates no item is credited a negative amount |
| Production.ByproductNonNegative | dsp.py:59-80 | with a non-negative goal and a table of positive rates the tallied byproduct is non-negative |
| Production.ResolveIncreases | dsp.py:59-80 | with a non-negative goal and a table of positive rates a run only increases counters and the tally, and keeps the key sets |
| Production.DemandScales | dsp.py:59-80 | what resolving p at goal k * g credits to an item is k times what resolving at g credits |
| Production.ByproductScales | dsp.py:59-80 | the byproduct tallied at goal k * g is k times the byproduct at g |
| Production.ResolveScales | dsp.py:59-80 | what a run at goal k * g adds to any counter is k times what a run at g adds |
| Production.HydrogenScales | dsp.py:59-80 | what a run at goal k * g adds to the tally is k times what a run at g adds |
| Production.DemandSupport | dsp.py:59-80 | only keys of the table and raw materials are ever credited |
| Production.FromZero | dsp.py:59-80 | from zeroed counters every counter ends at exactly its `Demand` and the tally at the `Byproduct` |
| Production.FreshRunAmounts | dsp.py:59-80 | in a run from the initial state, with any rare selection, every counter ends at its `Demand` and the tally at the `Byproduct` |
| Production.IronIngotExample | dsp.py:59-80 | from zeroed counters, iron_ingot at 60 gives iron_ingot 60 and iron 60, every other counter 0 and no byproduct |
| Production.MagneticCoilExample | dsp.py:59-80 | from zeroed counters, magnetic_coil at 180 gives magnetic_coil 180, magnet 180, copper_ingot 90, iron 180 and copper 90, every other counter 0 and no byproduct |
| Production.RefinedOilExample | dsp.py:59-80 | from zeroed counters, refined_oil at 30 gives refined_oil 30, crude 30 and hydrogen byproduct 15 |
| Production.RunWithRares | dsp.py:185-186 | a run of the program with rare recipes selected (the table and counters built as the modules initialise them, use_rares, then backtrack) leaves the counters as `FreshRun` of the selection says |
| Production.Run | dsp.py:185-186 | a run without rare recipes (use_rares never called) leaves the counters as `FreshRun` of the empty selection says |
| Production.Ceil | dsp.py:154 | `ceiling` returns the least integer at or above its argument |
| Production.Simplify | dsp.py:137-158 | the result is the report `Summary` defines: the lines and the total, or None where the source raises |
| Production.UnpricedEntry | dsp.py:151-152 | a positive entry without a recipe, or with a zero output rate, makes simplify fail |
| Production.RowsMembers | dsp.py:150-153 | a line (k, c) is reported exactly when some entry for k has positive demand d and c == d / r0 |
| Production.RowsEmpty | dsp.py:150-157 | nothing is reported (the empty string) exactly when no entry is positive |
| Production.RowsPositive | dsp.py:151-152 | with positive output rates every reported count is positive |
| Production.CeilSumBounds | dsp.py:154 | the total is the sum of the ceilings: at least the summed counts, and below them plus the number of lines |
| Production.CeilSumAtLeast | dsp.py:154 | with positive counts the total is at least the number of lines |
| Production.CeilingOfEachExample | dsp.py:150-158 | two lines of 1.1 factories give a total of 4, while the ceiling of their sum is 3 |
| Production.DeuteriumNeverCredited | dsp.py:53 | in a run from the initial state deuterium's counter stays 0 |
| Production.FreshRunPriced | dsp.py:150-152 | after a run from the initial state simplify never raises on a factory dictionary |

## Left out

- `parse_args`, `pretty_print`, `pprint` and the `__main__` block of `dsp_recipes.py` are not modelled: they are command-line and text plumbing. Of the `__main__` block of `dsp.py`, `Run` and `RunWithRares` model the calls that build and resolve a plan; the printing is left out. `parse_args` maps "all" to `use_rares()` and anything else to a comma-split list; in the model that list is the `Option<seq<Item>>` given to `UseRares`.
- `dsp_helpers.py` is not part of this model: its energy formula is standalone floating-point arithmetic unrelated to the resolver.
- The text simplify builds is not modelled. `Report` holds its lines as (name, count) pairs and its total; no lines stands for the empty string the source returns.
- Floating point: rates, goals and counters are exact reals, so `(goal / r0) * r0 == goal` holds exactly; the source's float rounding is not modelled.
- Item names are integer codes, not strings. Code 0 to 58 are the table's keys, 59 is deuterium, 60 to 75 the raw materials; every other code stands for an unknown name.
- Dictionary iteration order: a recipe's ingredients are a sequence in the order the literal lists them. A dictionary given to simplify is the sequence of its entries in iteration order.
- The eight counter dictionaries are one field `dicts` of `Planner`, a sequence indexed by `Slot`, rather than eight module-level variables. Aliasing between them cannot arise in the source either.
- Exceptions: a KeyError in `update_products` is `ok == false` with nothing changed. A KeyError or ZeroDivisionError in simplify is `None`.
- Production.Planner.Backtrack: requires that every key of the table has a counter (`Covers`), where the source would raise a KeyError from update_products for a key without one. It also requires the table to be `Resolvable`: every output rate nonzero and every ingredient ranked below what it makes. A zero r0 would make the source raise ZeroDivisionError at `goal / r0`, and a cyclic table would make it exceed the interpreter's recursion limit and raise RecursionError; neither is modelled. Zero or negative ingredient rates and byproduct rates are allowed; only the sign lemmas (`DemandNonNegative`, `ByproductNonNegative`, `ResolveIncreases`, `RowsPositive`) also require `PositiveRates`. The source's table and dictionaries meet both requirements under every selection of rare names (`InitialReady`), so none of these paths can arise.
- Production.ResolveAdds: the growth lemmas require that no item has counters in two dictionaries (`Disjoint`). The source's dictionaries are built so and no operation adds a key (`InitialDisjoint`, `Resolve`'s key-set contract).
- Production.Simplify: takes the recipe table as a parameter instead of reading the module-level `recipes`.
- Production.FreshRunAmounts: a run "without rares" is the empty selection, `Substituted(InitialTable(), [])`, which equals the source table; the model does not call `UseRares` with the empty list, because that selects every rare name.
