# Star Citizen fracturation cheatsheet — a Dafny model of its core

The cheatsheet estimates the heaviest rock a fleet of mining ships can fracture. It adds up
the fracturing power of every manned laser, with each laser's power multiplied by its
modules' multipliers. It also multiplies the lasers' instability and resistance modifiers
together. From those two figures it computes a maximum mass:
`8000 × power/1850 × (1 − resistance·resistanceModifier)^2.5`. This mass is capped at 50 000 kg,
floored at 100 kg and then rounded. Around this arithmetic sit several pieces:

- adapters that flatten the nested fleet (`ships → lasers → modules`) into calculator entries;
- the chart sampler;
- ship construction and laser compatibility;
- the UI handlers that edit the `ships` and `gadgets` arrays in place;
- the older `shipCount` / `shipModules` bookkeeping;
- the validator for configurations shared through the URL hash.

The model follows the program's files, one module per file.

- `calc_data.dfy` (`CalcData`) and `fleet_data.dfy` (`FleetData`) hold the lookup tables.
  `CalcData` is the `power`-keyed table in `public/js/data.js` that `calculations.js` reads.
  `FleetData` holds the ship table and the newer laser table in `public/js/data/`.
- `folds.dfy` (`Folds`) defines the sums and products the capacity loops accumulate, with their algebra.
- `calculations.dfy` (`Calculations`) models `public/js/calculations.js`. `public/script.js`
  carries a copy of these three functions and of the `data.js` tables that differs only in
  comments, so it is modelled once, here.
- `chart.dfy` (`Chart`): `convertShipsFormat` and `generateChartData`.
- `chart_calculator.dfy` (`ChartCalculator`): the chart's mass function instantiated with `calculateMaxMass`, including the lookup error it throws.
- `state_manager.dfy` (`StateManager`): the module-level UI state as class `UiState`, with
  `syncLegacyState`, `getShipConfig` and `loadFromURL`.
- `ship_utils.dfy` (`ShipUtils`): `createShip` and `getCompatibleLasers`.
- `ship_ui.dfy` (`ShipUi`) and `gadget_ui.dfy` (`GadgetUi`): the handlers that edit the state.
- `url_state.dfy` (`UrlState`): a small JSON datatype, `deserializeConfig`, `loadFromURLHash`,
  `serializeConfig`, and the round trip between them.
- `first_script.dfy` (`FirstScript`): the first-generation `script.js`. It has its own laser
  table, calculators over laser keys, the `canMine` verdict and the `shipCount` counter.
- `legacy_ui.dfy` (`LegacyUi`): the `shipCount` / `shipModules` bookkeeping of `public/js/ui.js`.
  `public/script.js` carries the same `addShip`, `removeShip`, `onLaserChange` and default-fill
  code, so it is modelled once, here.

Conventions:

- JavaScript numbers are `real`.
- `Math.round(x)` is `Floor(x + 0.5)`.
- `Math.pow(·, 2.5)` is a function parameter `pow`. The lemmas that need its shape require
  `Calculations.PowAssumptions`: 0 at 0, 1 at 1, non-negative and monotone on [0, 1].
- A table lookup of a missing key throws a TypeError in the source, so it is a precondition
  (`k in table`). The chart is the exception: there the lookup failure is an `Err` result.
- An effective resistance above 1 makes `Math.pow` return NaN, so `resistance × modifier ≤ 1`
  is a precondition of the capacity formula.
- Values read from `<select>` elements are parameters of the handlers.
- The base64/JSON codec is a pair of function parameters `enc` / `dec`.
- A JavaScript `throw` is an `Err` result.

## Model

| member | source | states |
|---|---|---|
| Calculations.CalculateCombinedPower | public/js/calculations.js:8-26 | the nested accumulation loop returns the sum over entries of laser power times the product of that entry's non-skipped module multipliers |
| Calculations.CalculateCombinedModifiers | public/js/calculations.js:33-45 | the loop returns the products of the lasers' instability and resistance, starting from 1.0 |
| Calculations.CalculateMaxMass | public/js/calculations.js:53-84 | returns the capacity formula applied to the combined power and the combined resistance modifier |
| Calculations.ApplyMassFormula | public/js/calculations.js:59-83 | the min-cap, max-floor and round steps produce the clamped, rounded `8000 × power/1850 × pow(1 − r·mod)` |
| Calculations.Round | public/js/calculations.js:83 | the rounded value lies within half a unit of its argument |
| Calculations.Clamp | public/js/calculations.js:78-81 | the result lies in [100, 50000], equals the input inside that range and the violated bound outside it |
| Calculations.MassFormula | public/js/calculations.js:63-83 | whenever effective resistance is at most 1, the result is an integer in [100, 50000] |
| Calculations.MaxMass | public/js/calculations.js:53-84 | `calculateMaxMass` always lies in [100, 50000] while effective resistance is at most 1 |
| Calculations.EmptyFleet | public/js/calculations.js:11-25 | an empty fleet has combined power 0 and modifiers {1.0, 1.0} |
| Calculations.ModuleMultiplierStep | public/js/calculations.js:17-21 | one step of the module loop multiplies by the module's power, or by nothing for a skipped key |
| Calculations.CombinedPowerStep | public/js/calculations.js:12-24 | one step of the ship loop adds that entry's power to the running total |
| Calculations.CombinedModifiersStep | public/js/calculations.js:39-42 | one step of the ship loop multiplies both running modifiers by that laser's values |
| Calculations.AllSkippedIsNeutral | public/js/calculations.js:18-20 | a module list of only `none`/empty keys has multiplier 1 |
| Calculations.SkippedModuleNeutral | public/js/calculations.js:18-20 | inserting a skipped key anywhere in a module list leaves its multiplier unchanged |
| Calculations.InsertSkippedModuleKeepsPower | public/js/calculations.js:18-20 | inserting a skipped key into any entry of a fleet leaves combined power unchanged |
| Calculations.ModuleMultiplierAppend | public/js/calculations.js:16-21 | the multiplier of concatenated module lists is the product of their multipliers |
| Calculations.ModuleStacking | public/js/calculations.js:19 | n copies of one module multiply power by that module's factor to the n-th power |
| Calculations.CombinedPowerAppend | public/js/calculations.js:11-25 | combined power is additive over concatenation of fleets |
| Calculations.CombinedModifiersAppend | public/js/calculations.js:36-44 | combined modifiers of a concatenation are the pointwise products of the parts' modifiers |
| Calculations.InstabilityProductAppend | public/js/calculations.js:39-40 | the instability product of a concatenated fleet is the product of the parts' products |
| Calculations.ResistanceProductAppend | public/js/calculations.js:39-41 | the resistance product of a concatenated fleet is the product of the parts' products |
| Calculations.ModifiersIgnoreModules | public/js/calculations.js:39-42 | two fleets with the same lasers in the same order have the same modifiers, whatever their modules |
| Calculations.AppliedMultipliersPositive | public/js/calculations.js:16-21 | with positive module tables every applied multiplier is positive |
| Calculations.CombinedPowerPositive | public/js/calculations.js:11-25 | with positive tables combined power is non-negative, and positive for a non-empty fleet |
| Calculations.CombinedModifiersPositive | public/js/calculations.js:36-44 | with positive tables both combined modifiers are positive |
| Calculations.SingleLaserNeutral | public/js/calculations.js:11-44 | one laser with only skipped modules has its table power and its own two modifiers |
| Calculations.MassFormulaMonotone | public/js/calculations.js:63-81 | for a monotone `pow`, a higher resistance never gives a larger mass |
| Calculations.MaxMassMonotone | public/js/calculations.js:53-84 | with the fleet fixed, `calculateMaxMass` does not increase as resistance increases |
| Calculations.SingleArborAtZero | public/js/calculations.js:58-75 | one Arbor at 0 % resistance fractures exactly the 8000 kg baseline |
| CalcData.ShippedTablesPositive | public/js/data.js:4-63 | every shipped laser power, modifier and module multiplier is positive, and `none` multiplies by 1 |
| Fleet.Spliced | public/js/ui/ship-ui.js:29 | `splice(i, 1)` removes exactly element i and shifts the rest down, keeps the array when i is out of range, and loses exactly that one element from the multiset |
| Chart.WithoutNone | public/js/chart.js:226 | the filter keeps exactly the non-`none` modules and never lengthens the list |
| Chart.WithoutNoneAppend | public/js/chart.js:226 | filtering distributes over concatenation, so the kept modules stay in order |
| Chart.WithoutNoneKeepsMultiplier | public/js/chart.js:226 | dropping `none` modules does not change the power multiplier |
| Chart.WithoutNoneKeepsApplied | public/js/chart.js:226 | dropping `none` modules leaves exactly the multipliers the power loop applies, in order |
| Chart.ConvertShipsFormat | public/js/chart.js:217-236 | the nested loops produce the ship-then-laser flattening of the fleet |
| Chart.ConvertedSnoc | public/js/chart.js:219-234 | one more ship appends exactly that ship's entries |
| Chart.ConvertedAppend | public/js/chart.js:219-234 | converting a concatenated fleet concatenates the conversions, so order is preserved |
| Chart.ConvertedSingle | public/js/chart.js:220-233 | a nested ship gives one entry per laser; a flat entry with a laser passes through; anything else is dropped |
| Chart.ConvertedKeepsUnManned | public/js/chart.js:220-228 | an `un-maned` laser is not filtered out by the chart conversion |
| Chart.DefaultResistanceSteps | public/js/chart.js:256-261 | the default loop yields the sequence of sampled resistances |
| Chart.DefaultStepsShape | public/js/chart.js:256-261 | the default sampling has 21 points from 0 to 1.0 in steps of 0.05 |
| Chart.GenerateChartData | public/js/chart.js:245-267 | fails with the not-loaded message when the calculator is absent; otherwise it is the map over the steps, which succeeds exactly when every step's calculation does and then holds one point per step, with that step as resistance and the calculator's value for the converted fleet |
| Chart.ChartPointsComputed | public/js/chart.js:263-266 | the map succeeds iff every step's calculation returns, and then yields one point per step in order |
| Chart.ChartPointsFirstError | public/js/chart.js:263-266 | a failing map fails with the error of the first step whose calculation throws, all earlier steps having returned |
| ChartCalculator.MaxMassOutcome | public/js/calculations.js:8-84 | the calculator throws exactly when a laser or module key is missing from the tables, gives NaN exactly when effective resistance exceeds 1, and otherwise a mass in [100, 50000] |
| ChartCalculator.ChartOfKnownFleet | public/js/chart.js:263-266 | over known keys and in-range steps, every chart point is the capacity formula's mass at that step |
| ChartCalculator.ShippedResistancesAtMostOne | public/js/data.js:4-37 | every shipped laser resistance modifier lies in (0, 1] |
| ChartCalculator.ShippedModifierAtMostOne | public/js/calculations.js:36-44 | with the shipped tables the combined resistance modifier of any known fleet lies in [0, 1] |
| ChartCalculator.DefaultChartOfShippedFleet | public/js/chart.js:245-267 | with the shipped tables and the default steps, the chart of a known fleet never fails and charts the formula's mass at each of the 21 steps |
| ChartCalculator.UnMannedBreaksChart | public/js/chart.js:220-266 | a fleet holding an `un-maned` laser makes the chart throw the lookup error, since conversion keeps that laser and the table has no such key |
| StateManager.UiState.constructor | public/js/ui/state-manager.js:5-10 | the state starts empty, with `shipCount` 0 |
| StateManager.UiState.SyncLegacyState | public/js/ui/state-manager.js:15-24 | `shipCount` becomes the fleet size; `shipModules` keys are exactly the ships with a laser and each value is that ship's first laser's modules; ships and gadgets are untouched |
| StateManager.UiState.GetShipConfig | public/js/ui/state-manager.js:31-45 | the nested loops return the ship-then-laser flattening without `un-maned` lasers |
| StateManager.UiState.LoadFromURL | public/js/ui/state-manager.js:60-74 | loads and syncs exactly when the URL module is present and a config was decoded; otherwise nothing changes |
| StateManager.ShipConfigSnoc | public/js/ui/state-manager.js:33-43 | one more ship appends its operated lasers |
| StateManager.ShipConfigAppend | public/js/ui/state-manager.js:33-43 | the configuration of a concatenated fleet is the concatenation of the configurations |
| StateManager.OperatedMembership | public/js/ui/state-manager.js:34-41 | an entry comes from a ship's lasers iff it is not `un-maned` and the ship has that laser with those modules |
| StateManager.ShipConfigMembership | public/js/ui/state-manager.js:33-43 | an entry is in the configuration iff some ship has a non-`un-maned` laser with that type and those exact modules |
| StateManager.OperatedCount | public/js/ui/state-manager.js:34-41 | a ship contributes its laser count minus its number of `un-maned` lasers |
| StateManager.ShipConfigCount | public/js/ui/state-manager.js:33-43 | the configuration length is the number of lasers minus the number of `un-maned` ones |
| StateManager.NoneDroppedAppend | public/js/chart.js:226 | the relation "same lasers, `none` modules dropped" is preserved by concatenation |
| StateManager.OperatedNoneDropped | public/js/chart.js:222-228 | for one manned ship the chart entries are the state-manager entries with `none` dropped |
| StateManager.ChartEntriesDropNone | public/js/chart.js:217-236 | for a fully manned fleet both flattenings agree up to the dropped `none` modules |
| StateManager.NoneDroppedSameCapacity | public/js/calculations.js:11-44 | flattenings that differ only in `none` modules have equal power and modifiers |
| StateManager.ChartAgreesWithShipConfig | public/js/chart.js:263-266 | for a fully manned fleet the chart and the table compute with the same power and modifiers |
| ShipUtils.NewShip | public/js/ui/ship-utils.js:9-42 | the new ship has the requested type; one fixed laser or `laserCount` default lasers; every laser's modules are `moduleSlots` copies of `none` |
| ShipUtils.CreateShip | public/js/ui/ship-utils.js:27-36 | the counted loop builds exactly the ship described above |
| ShipUtils.GetCompatibleLasers | public/js/ui/ship-utils.js:49-73 | a laser is kept iff its size matches and its compatible-ship list is absent, empty or names the ship; kept values are the table's own |
| ShipUtils.ShippedNewShips | public/js/data/ships.js:2-28 | golem gets one pitman, prospector one arbor, mole three arbor-mh2 lasers |
| ShipUtils.ShippedCompatibility | public/js/data/lasers.js:66-77 | pitman fits golem and not prospector; arbor fits prospector; the mole takes arbor-mh2 and not arbor |
| ShipUi.WithLaser | public/js/ui/ship-ui.js:367-379 | replacing one laser leaves every other ship and laser as it was |
| ShipUi.WithModule | public/js/ui/ship-ui.js:412 | assigning one module slot leaves every other ship, laser and slot as it was |
| ShipUi.ResetLaser | public/js/ui/ship-ui.js:366-380 | an `un-maned` laser gets no modules; any other gets `moduleSlots` copies of `none` |
| ShipUi.AddShip | public/js/ui/ship-ui.js:7-18 | appends a new prospector and keeps the existing ships and gadgets |
| ShipUi.RemoveShip | public/js/ui/ship-ui.js:24-35 | with more than one ship it splices out exactly ship i; with one it changes nothing; the fleet never becomes empty |
| ShipUi.OnShipTypeChange | public/js/ui/ship-ui.js:41-61 | only ship i is replaced, by a new ship of the selected type |
| ShipUi.OnLaserChange | public/js/ui/ship-ui.js:355-386 | only the addressed laser is replaced, by the reset laser of the selected type |
| ShipUi.OnModuleChange | public/js/ui/ship-ui.js:395-418 | errors, leaving the state unchanged, exactly when the slot is out of range; otherwise only that slot changes, and the fleet's laser types and the number of table entries stay the same |
| ShipUi.InitShipsIfEmpty | public/js/ui/ship-ui.js:75-81 | with a container present an empty fleet gets one prospector, so the fleet is non-empty |
| ShipUi.WithModuleKeepsLaserTypes | public/js/ui/ship-ui.js:412 | changing a module never changes which laser types the fleet carries |
| ShipUi.LaserTypesPointwise | public/js/ui/state-manager.js:33-43 | fleets with the same laser type at every position list the same laser types |
| GadgetUi.AddGadget | public/js/ui/gadget-ui.js:7-15 | appends `sabir` and leaves everything else unchanged |
| GadgetUi.RemoveGadget | public/js/ui/gadget-ui.js:21-29 | splices out exactly entry i, with no minimum-length guard |
| GadgetUi.OnGadgetChange | public/js/ui/gadget-ui.js:36-49 | with a select present only entry i changes; without one nothing changes |
| UrlState.DeserializeConfig | public/js/url-state.js:26-68 | returns the parsed value iff decoding succeeds and it passes every structural check, otherwise null |
| UrlState.LoadFromURLHash | public/js/url-state.js:89-98 | null unless the hash starts with `#config=`, otherwise the deserialisation of the text after it |
| UrlState.RejectsShipWithoutType | public/js/url-state.js:46-49 | a ship without `type` is rejected |
| UrlState.RejectsShipWithoutLasers | public/js/url-state.js:46-49 | a ship without a `lasers` array is rejected |
| UrlState.RejectsLaserWithoutModules | public/js/url-state.js:50-54 | a laser without a `modules` array is rejected |
| UrlState.RejectsNumericGadgets | public/js/url-state.js:58-62 | non-string gadgets are rejected whatever the ships are |
| UrlState.SerializeConfig | public/js/url-state.js:9-19 | the result is the encoding of a JSON value that reads back as exactly the given ships and gadgets |
| UrlState.WellFormedIsValid | public/js/url-state.js:9-19 | the JSON of any configuration with non-empty type strings passes the validator |
| UrlState.SerializeRoundTrip | public/js/url-state.js:9-68 | deserialising a serialised well-formed configuration returns that configuration's JSON, given an inverse codec |
| UrlState.HashRoundTrip | public/js/url-state.js:75-98 | reading back the written `#config=` hash returns the configuration, given an inverse codec |
| UrlState.StringsRoundTrip | public/js/url-state.js:9-19 | reading back a serialised string array gives the strings |
| UrlState.ShipRoundTrip | public/js/url-state.js:9-19 | reading back a serialised ship gives the ship |
| UrlState.ConfigRoundTrip | public/js/url-state.js:9-19 | reading back a serialised configuration gives the configuration, typed |
| FirstScript.CalculateCombinedPower | script.js:97-104 | the loop returns the sum of the lasers' powers |
| FirstScript.CalculateCombinedModifiers | script.js:106-117 | the loop returns the products of the lasers' instability and resistance |
| FirstScript.CalculateMaxMass | script.js:119-150 | returns the capacity formula on the combined figures |
| FirstScript.MaxMass | script.js:144-149 | the result is an integer in [100, 50000] while effective resistance is at most 1 |
| FirstScript.Classify | script.js:155-162 | impossible iff mass > 1.2·max; very difficult iff max < mass ≤ 1.2·max; difficult iff 0.8·max < mass ≤ max; easy otherwise; possible iff not impossible |
| FirstScript.CanMine | script.js:152-164 | impossible iff mass > 1.2 × the fleet's maximum at that resistance; very difficult iff above the maximum and within 1.2×; difficult iff within (0.8×, 1×]; easy iff at most 0.8× |
| FirstScript.ClassifyBands | script.js:155-162 | for a non-negative maximum, easy iff mass ≤ 0.8·max and difficult iff 0.8·max < mass ≤ max |
| FirstScript.ClassifyMonotone | script.js:155-163 | a heavier rock never gets an easier verdict |
| FirstScript.CanMineMonotone | script.js:152-164 | `canMine` never gives a heavier rock an easier verdict |
| FirstScript.ShippedPowers | script.js:3-32 | arbor gives 1850, two arbors 3700, arbor+hofstede+helix 4995 |
| FirstScript.TwoHofstedes | script.js:106-117 | two Hofstedes give instability 0.25 and resistance 0.49 |
| FirstScript.TablesAgree | public/js/data.js:4-37 | every laser of the first table has the same power and modifiers in the current table |
| FirstScript.AgreesWithCurrent | public/js/calculations.js:8-45 | the first-generation figures equal the current ones for module-less entries of the same lasers |
| FirstScript.ShipCounter.constructor | script.js:34 | the counter starts at 1 |
| FirstScript.ShipCounter.AddShip | script.js:36-40 | the counter goes up by one |
| FirstScript.ShipCounter.RemoveShip | script.js:42-48 | the counter goes down by one only when above 1, so it stays at least 1 |
| LegacyUi.Reindexed | public/js/ui.js:35-45 | key i is dropped; keys below i keep their values; every key above i moves down by one |
| LegacyUi.ShiftImageSize | public/js/ui.js:35-45 | moving keys down past a missing index loses no key |
| LegacyUi.ReindexedSize | public/js/ui.js:35-45 | the key count drops by one exactly when key i existed |
| LegacyUi.ReindexedKeysBelow | public/js/ui.js:35-47 | keys below the ship count stay below the decremented count |
| LegacyUi.ReindexModules | public/js/ui.js:35-45 | the loop over the keys builds exactly the re-indexed map |
| LegacyUi.LegacyShips.constructor | public/js/ui.js:4-5 | one ship, no module entries |
| LegacyUi.LegacyShips.AddShip | public/js/ui.js:10-14 | the count goes up by one, module entries unchanged |
| LegacyUi.LegacyShips.RemoveShip | public/js/ui.js:20-53 | above one ship it splices the laser selections, re-indexes the modules and decrements the count; otherwise nothing changes |
| LegacyUi.LegacyShips.OnLaserChange | public/js/ui.js:167-175 | only ship i's entry is reset to `moduleSlots` copies of `none` |
| LegacyUi.LegacyShips.FillDefaultModules | public/js/ui.js:75-77 | every ship below the count gets an entry, existing entries are kept and new ones are three `none` |

## Left out

- Rendering is not modelled. This covers the `updateShipsUI` markup, `updateGadgetsUI`,
  `updateTable`, `drawCapacityChart`, `formula-visualization.js` and the HTML generators. They only
  read the state and build markup or canvas drawings.
- `public/js/ui.js` `getShipConfig` and `public/script.js` `getShipConfig` are not modelled. Both
  read the fleet from DOM `<select>` elements, which the model does not have. The `ui.js` one
  (lines 181-200) also writes every module value it reads back into `shipModules[i][slot]`,
  creating the entry when missing. That is how the legacy module map changes apart from
  `onLaserChange`, the removal re-indexing and the default fill. `LegacyUi.LegacyShips` does not
  model this write-back, so its `shipModules` only changes through those three operations.
- Focus restoration, the resize debounce, `initializeApp` / `initializeUI` and `checkRock` are
  not modelled. They are event wiring and DOM presentation.
- The base64 / JSON / `encodeURIComponent` codec is two parameters, and the round-trip lemmas
  assume they are inverse on the value at hand. `btoa`'s Latin-1 limitation is not modelled.
- `history.replaceState` and the `updateURL` calls after each handler are not modelled. They are
  side effects on the browser.
- The gadget-adjusted rock resistance and the gadgets argument that `chart.js` passes to
  `calculateMaxMass` are not modelled. `calculateRockResistance` is not part of this model.
  `Chart.GenerateChartData` takes the mass function as a parameter, which may return a value
  (a mass or NaN) or throw. `ChartCalculator.Calculator` instantiates it with the shown `calculateMaxMass`,
  which ignores the gadgets.
- The tables' field names differ between files. `calculations.js` reads a `power` field, as in
  `public/js/data.js`, while `public/js/data/lasers.js` names it `fracturingPower` /
  `extractionPower`. The calculators are modelled over the `data.js` tables.
- Floating point is not modelled; arithmetic is exact over `real`. `Math.pow(·, 2.5)` is a
  parameter. Effective resistance above 1, where the source yields NaN, is excluded by a
  precondition, except in `ChartCalculator.MaxMassOutcome`, which returns NaN there.
- Calculations.MaxMass, Calculations.MassFormula, Calculations.CalculateMaxMass,
  Calculations.ApplyMassFormula and FirstScript.MaxMass: each requires effective resistance ≤ 1,
  because the source's NaN result there has no `real` counterpart.
- Missing table keys and out-of-range indices throw a TypeError in the source; here they are
  preconditions. This applies to `onShipTypeChange`, `onLaserChange` and `onModuleChange` (ship
  and laser index). The exception is the chart, where the lookup failure of `calculateMaxMass`
  is modelled (`ChartCalculator.MaxMassOutcome`).
- GadgetUi.OnGadgetChange: requires an in-range index when a select is present. The source
  does not throw there: `gadgets[index] = …` past the end would extend the array. The page
  renders a select only for the indices of existing gadgets, so the precondition records that
  page invariant.
- ShipUi.OnModuleChange: the error value carries the indices and laser type but not the message
  text. The TypeError raised when that laser type has no table entry is not modelled.
- Negative `splice` indices are not modelled; indices are `nat`.
- `parseInt` of `shipModules` keys is not modelled; the keys are `nat`.
- The iteration order of `for…in` and `Object.keys` is not modelled. `getCompatibleLasers` and
  the re-indexing loop build maps, whose contents do not depend on that order.
- Aliasing is not modelled. In the source, `shipModules[i]` shares the modules array of a ship's
  first laser; here the arrays are values, so a later in-place module edit is reflected only
  through the next `syncLegacyState`, which every handler calls.
- StateManager.UiState.LoadFromURL takes the decoded configuration already typed. Two kinds of
  value are accepted by `deserializeConfig` (modelled by `UrlState.ValidConfig`) but cannot be
  loaded into the typed state: a JSON `type` or `laserType` that is truthy but not a string, and
  a `modules` array holding non-string elements (for example `[1, null]`), since only
  `Array.isArray(laser.modules)` is checked. `UrlState.ToConfig` is the typed read-back and
  rejects both.
- JSON numbers are `real`.
- Tests, tooling, the static data tables' own correctness, and the aggregators
  `public/js/data/index.js` and `public/js/app.js` are not modelled.
