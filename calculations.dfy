/**
 * The capacity formula of public/js/calculations.js (public/script.js carries the same
 * three functions over the same tables). Each `calculate…` routine is an accumulator
 * loop in the source and is a method here, proved equal to a specification function;
 * the properties the source promises are lemmas about those functions.
 *
 * The specification names the list of factors each loop folds in (the multipliers of the
 * modules that are not skipped, the entries' powers, the lasers' instabilities and
 * resistances), so the algebra of the folds (module Folds) stays apart from the lookups.
 *
 * The routines read their tables from the global data namespace at call time; here that
 * namespace is the parameter `data` (the shipped one is `CalcData.Data()`), and the general
 * properties hold for every table with positive entries.
 *
 * `Math.pow(x, 2.5)` is a foreign call: it is the parameter `pow`, and the lemmas that
 * need its shape require `PowAssumptions(pow)`. `Math.round(x)` is `(x + 0.5).Floor`.
 */
module Calculations {
  import opened CalcData
  import opened Folds

  /** One operated laser in the flat shape the formula reads: `{laser, modules}`. */
  datatype CalcEntry = CalcEntry(laser: string, modules: seq<string>)

  /** The `{instability, resistance}` pair of combined laser modifiers. */
  datatype Modifiers = Modifiers(instability: real, resistance: real)

  const BaselinePower: real := 1850.0
  const BaselineMass: real := 8000.0
  const MassCap: real := 50000.0
  const MassFloor: real := 100.0

  /** Module keys the power loop passes over: the empty (falsy) key and `none`. */
  predicate Skipped(moduleKey: string) {
    moduleKey == "" || moduleKey == "none"
  }

  /** Every module key the power loop looks up is in the table (otherwise the lookup throws). */
  predicate KnownModules(data: Tables, modules: seq<string>) {
    forall i :: 0 <= i < |modules| && !Skipped(modules[i]) ==> modules[i] in data.moduleData
  }

  /** Every laser and module key the loops look up is in the tables. */
  predicate KnownEntries(data: Tables, ships: seq<CalcEntry>) {
    forall i :: 0 <= i < |ships| ==> ships[i].laser in data.laserData && KnownModules(data, ships[i].modules)
  }

  // ---------------------------------------------------------------- specification functions

  /** The multipliers the power loop applies: one per module that is not skipped, in order. */
  function AppliedMultipliers(data: Tables, modules: seq<string>): seq<real>
    requires KnownModules(data, modules)
  {
    if modules == [] then []
    else
      var front := AppliedMultipliers(data, modules[..|modules| - 1]);
      var last := modules[|modules| - 1];
      if Skipped(last) then front else front + [data.moduleData[last].power]
  }

  /** The product of the applied module multipliers. */
  function ModuleMultiplier(data: Tables, modules: seq<string>): real
    requires KnownModules(data, modules)
  {
    Product(AppliedMultipliers(data, modules))
  }

  /** The fracturing power one entry contributes: laser power times its module multiplier. */
  function EntryPower(data: Tables, e: CalcEntry): real
    requires e.laser in data.laserData && KnownModules(data, e.modules)
  {
    data.laserData[e.laser].power * ModuleMultiplier(data, e.modules)
  }

  /** Each entry's contribution, in order. */
  function EntryPowers(data: Tables, ships: seq<CalcEntry>): seq<real>
    requires KnownEntries(data, ships)
  {
    seq(|ships|, i requires 0 <= i < |ships| => EntryPower(data, ships[i]))
  }

  /** Combined power: the sum of the entries' contributions. */
  function CombinedPower(data: Tables, ships: seq<CalcEntry>): real
    requires KnownEntries(data, ships)
  {
    Sum(EntryPowers(data, ships))
  }

  /** Each entry's laser instability, in order (modules play no part). */
  function Instabilities(data: Tables, ships: seq<CalcEntry>): seq<real>
    requires KnownEntries(data, ships)
  {
    seq(|ships|, i requires 0 <= i < |ships| => data.laserData[ships[i].laser].instability)
  }

  /** Each entry's laser resistance modifier, in order (modules play no part). */
  function Resistances(data: Tables, ships: seq<CalcEntry>): seq<real>
    requires KnownEntries(data, ships)
  {
    seq(|ships|, i requires 0 <= i < |ships| => data.laserData[ships[i].laser].resistance)
  }

  /** Combined modifiers: the products of the lasers' instability and resistance. */
  function CombinedModifiers(data: Tables, ships: seq<CalcEntry>): Modifiers
    requires KnownEntries(data, ships)
  {
    Modifiers(Product(Instabilities(data, ships)), Product(Resistances(data, ships)))
  }

  /** `Math.round` on the values the formula produces. */
  function Round(x: real): (r: int)
    ensures x - 0.5 < r as real <= x + 0.5
  {
    (x + 0.5).Floor
  }

  /** `Math.max(Math.min(x, 50000), 100)`. */
  function Clamp(x: real): (r: real)
    ensures MassFloor <= r <= MassCap
    ensures MassFloor <= x <= MassCap ==> r == x
    ensures x < MassFloor ==> r == MassFloor
    ensures x > MassCap ==> r == MassCap
  {
    var capped := if x < MassCap then x else MassCap;
    if capped > MassFloor then capped else MassFloor
  }

  /** The assumed shape of `Math.pow(u, 2.5)` on [0, 1]. */
  ghost predicate PowAssumptions(pow: real -> real) {
    && pow(0.0) == 0.0
    && pow(1.0) == 1.0
    && forall u, v :: 0.0 <= u <= v <= 1.0 ==> 0.0 <= pow(u) <= pow(v)
  }

  /** The resistance factor `Math.pow(1 - effectiveResistance, 2.5)`. */
  function ResistanceFactor(effectiveResistance: real, pow: real -> real): real {
    pow(1.0 - effectiveResistance)
  }

  /**
   * The unclamped mass: 8000 kg per 1850 units of power, scaled by the resistance factor
   * of the effective resistance `resistance * resistanceMod`.
   */
  function RawMass(resistance: real, combinedPower: real, resistanceMod: real, pow: real -> real): real {
    BaselineMass * (combinedPower / BaselinePower) * ResistanceFactor(resistance * resistanceMod, pow)
  }

  /**
   * The capacity formula from combined power and combined resistance modifier. Beyond an
   * effective resistance of 1 the source computes `Math.pow` of a negative base, which is
   * NaN, so that region is excluded.
   */
  function MassFormula(resistance: real, combinedPower: real, resistanceMod: real, pow: real -> real): (m: int)
    requires resistance * resistanceMod <= 1.0
    ensures 100 <= m <= 50000
  {
    Round(Clamp(RawMass(resistance, combinedPower, resistanceMod, pow)))
  }

  /** `calculateMaxMass(resistance, ships)`. */
  function MaxMass(data: Tables, resistance: real, ships: seq<CalcEntry>, pow: real -> real): (m: int)
    requires KnownEntries(data, ships)
    requires resistance * CombinedModifiers(data, ships).resistance <= 1.0
    ensures 100 <= m <= 50000
  {
    MassFormula(resistance, CombinedPower(data, ships), CombinedModifiers(data, ships).resistance, pow)
  }

  // ---------------------------------------------------------------- the source's loops

  /** `calculateCombinedPower`: the nested `forEach` accumulation. */
  method CalculateCombinedPower(data: Tables, ships: seq<CalcEntry>) returns (totalPower: real)
    requires KnownEntries(data, ships)
    ensures totalPower == CombinedPower(data, ships)
  {
    totalPower := 0.0;
    var i := 0;
    while i < |ships|
      invariant 0 <= i <= |ships|
      invariant totalPower == CombinedPower(data, ships[..i])
    {
      var ship := ships[i];
      var laserPower := data.laserData[ship.laser].power;
      var modulePowerMultiplier := 1.0;
      var j := 0;
      while j < |ship.modules|
        invariant 0 <= j <= |ship.modules|
        invariant modulePowerMultiplier == ModuleMultiplier(data, ship.modules[..j])
      {
        var moduleKey := ship.modules[j];
        ModuleMultiplierStep(data, ship.modules, j);
        if !Skipped(moduleKey) {
          modulePowerMultiplier := modulePowerMultiplier * data.moduleData[moduleKey].power;
        }
        j := j + 1;
      }
      assert ship.modules[..j] == ship.modules;
      CombinedPowerStep(data, ships, i);
      totalPower := totalPower + laserPower * modulePowerMultiplier;
      i := i + 1;
    }
    assert ships[..i] == ships;
  }

  /** One step of the inner loop: module j is skipped or multiplies in its table power. */
  lemma ModuleMultiplierStep(data: Tables, modules: seq<string>, j: nat)
    requires KnownModules(data, modules) && j < |modules|
    ensures KnownModules(data, modules[..j]) && KnownModules(data, modules[..j + 1])
    ensures Skipped(modules[j]) ==> ModuleMultiplier(data, modules[..j + 1]) == ModuleMultiplier(data, modules[..j])
    ensures !Skipped(modules[j]) ==>
      ModuleMultiplier(data, modules[..j + 1]) == ModuleMultiplier(data, modules[..j]) * data.moduleData[modules[j]].power
  {
    assert modules[..j + 1][..j] == modules[..j];
    if !Skipped(modules[j]) {
      ProductSnoc(AppliedMultipliers(data, modules[..j]), data.moduleData[modules[j]].power);
    }
  }

  /** One step of the outer loop: entry i adds its contribution. */
  lemma CombinedPowerStep(data: Tables, ships: seq<CalcEntry>, i: nat)
    requires KnownEntries(data, ships) && i < |ships|
    ensures KnownEntries(data, ships[..i]) && KnownEntries(data, ships[..i + 1])
    ensures CombinedPower(data, ships[..i + 1]) == CombinedPower(data, ships[..i]) + EntryPower(data, ships[i])
  {
    assert EntryPowers(data, ships[..i + 1]) == EntryPowers(data, ships[..i]) + [EntryPower(data, ships[i])];
    SumSnoc(EntryPowers(data, ships[..i]), EntryPower(data, ships[i]));
  }

  /** `calculateCombinedModifiers`: products starting at 1.0, modules ignored. */
  method CalculateCombinedModifiers(data: Tables, ships: seq<CalcEntry>) returns (modifiers: Modifiers)
    requires KnownEntries(data, ships)
    ensures modifiers == CombinedModifiers(data, ships)
  {
    var instabilityMod := 1.0;
    var resistanceMod := 1.0;
    var i := 0;
    while i < |ships|
      invariant 0 <= i <= |ships|
      invariant Modifiers(instabilityMod, resistanceMod) == CombinedModifiers(data, ships[..i])
    {
      CombinedModifiersStep(data, ships, i);
      instabilityMod := instabilityMod * data.laserData[ships[i].laser].instability;
      resistanceMod := resistanceMod * data.laserData[ships[i].laser].resistance;
      i := i + 1;
    }
    assert ships[..i] == ships;
    modifiers := Modifiers(instabilityMod, resistanceMod);
  }

  /** One step of the modifier loop: entry i multiplies in its laser's two modifiers. */
  lemma CombinedModifiersStep(data: Tables, ships: seq<CalcEntry>, i: nat)
    requires KnownEntries(data, ships) && i < |ships|
    ensures KnownEntries(data, ships[..i]) && KnownEntries(data, ships[..i + 1])
    ensures CombinedModifiers(data, ships[..i + 1]) == Modifiers(
      CombinedModifiers(data, ships[..i]).instability * data.laserData[ships[i].laser].instability,
      CombinedModifiers(data, ships[..i]).resistance * data.laserData[ships[i].laser].resistance)
  {
    var laser := data.laserData[ships[i].laser];
    assert Instabilities(data, ships[..i + 1]) == Instabilities(data, ships[..i]) + [laser.instability];
    assert Resistances(data, ships[..i + 1]) == Resistances(data, ships[..i]) + [laser.resistance];
    ProductSnoc(Instabilities(data, ships[..i]), laser.instability);
    ProductSnoc(Resistances(data, ships[..i]), laser.resistance);
  }

  /** `calculateMaxMass`: the formula over the two accumulations, capped, floored and rounded. */
  method CalculateMaxMass(data: Tables, resistance: real, ships: seq<CalcEntry>, pow: real -> real) returns (maxMass: int)
    requires KnownEntries(data, ships)
    requires resistance * CombinedModifiers(data, ships).resistance <= 1.0
    ensures maxMass == MaxMass(data, resistance, ships, pow)
  {
    var combinedPower := CalculateCombinedPower(data, ships);
    var modifiers := CalculateCombinedModifiers(data, ships);
    maxMass := ApplyMassFormula(resistance, combinedPower, modifiers.resistance, pow);
  }

  /**
   * The source's step-by-step rendering of `MassFormula`, the arithmetic of `calculateMaxMass`
   * once both accumulations are known: scale, cap with `Math.min`, floor with `Math.max`, round.
   */
  method ApplyMassFormula(resistance: real, combinedPower: real, resistanceMod: real, pow: real -> real) returns (maxMass: int)
    requires resistance * resistanceMod <= 1.0
    ensures maxMass == MassFormula(resistance, combinedPower, resistanceMod, pow)
  {
    var effectiveResistance := resistance * resistanceMod;
    var powerMultiplier := combinedPower / BaselinePower;
    var resistanceFactor := ResistanceFactor(effectiveResistance, pow);
    var mass := BaselineMass * powerMultiplier * resistanceFactor;
    mass := if mass < MassCap then mass else MassCap;
    mass := if mass > MassFloor then mass else MassFloor;
    maxMass := (mass + 0.5).Floor;
  }

  // ---------------------------------------------------------------- properties

  /** Concatenating two lists of known module keys gives a list of known keys. */
  lemma KnownModulesAppend(data: Tables, a: seq<string>, b: seq<string>)
    requires KnownModules(data, a) && KnownModules(data, b)
    ensures KnownModules(data, a + b)
  {
    forall i | 0 <= i < |a + b| && !Skipped((a + b)[i])
      ensures (a + b)[i] in data.moduleData
    {
      if i >= |a| {
        assert (a + b)[i] == b[i - |a|];
      }
    }
  }

  /** Concatenating two lists of known entries gives a list of known entries. */
  lemma KnownEntriesAppend(data: Tables, a: seq<CalcEntry>, b: seq<CalcEntry>)
    requires KnownEntries(data, a) && KnownEntries(data, b)
    ensures KnownEntries(data, a + b)
  {
    forall i | 0 <= i < |a + b|
      ensures (a + b)[i].laser in data.laserData && KnownModules(data, (a + b)[i].modules)
    {
      if i >= |a| {
        assert (a + b)[i] == b[i - |a|];
      }
    }
  }

  /** The applied multipliers of a concatenation are the two lists of applied multipliers. */
  lemma {:induction false} AppliedMultipliersAppend(data: Tables, a: seq<string>, b: seq<string>)
    requires KnownModules(data, a) && KnownModules(data, b)
    ensures KnownModules(data, a + b)
    ensures AppliedMultipliers(data, a + b) == AppliedMultipliers(data, a) + AppliedMultipliers(data, b)
  {
    KnownModulesAppend(data, a, b);
    if b == [] {
      assert a + b == a;
    } else {
      var b' := b[..|b| - 1];
      assert KnownModules(data, b');
      assert (a + b)[..|a + b| - 1] == a + b';
      assert (a + b)[|a + b| - 1] == b[|b| - 1];
      AppliedMultipliersAppend(data, a, b');
    }
  }

  /** Module multipliers compose multiplicatively over concatenation. */
  lemma ModuleMultiplierAppend(data: Tables, a: seq<string>, b: seq<string>)
    requires KnownModules(data, a) && KnownModules(data, b)
    ensures KnownModules(data, a + b)
    ensures ModuleMultiplier(data, a + b) == ModuleMultiplier(data, a) * ModuleMultiplier(data, b)
  {
    AppliedMultipliersAppend(data, a, b);
    ProductAppend(AppliedMultipliers(data, a), AppliedMultipliers(data, b));
  }

  /** A module list made only of skipped keys applies nothing: its multiplier is 1. */
  lemma {:induction false} AllSkippedIsNeutral(data: Tables, modules: seq<string>)
    requires forall i :: 0 <= i < |modules| ==> Skipped(modules[i])
    ensures KnownModules(data, modules) && AppliedMultipliers(data, modules) == []
    ensures ModuleMultiplier(data, modules) == 1.0
  {
    if modules != [] {
      AllSkippedIsNeutral(data, modules[..|modules| - 1]);
    }
  }

  /** Inserting a skipped key (`none` or empty) anywhere leaves the multiplier unchanged. */
  lemma SkippedModuleNeutral(data: Tables, modules: seq<string>, p: nat, m: string)
    requires KnownModules(data, modules) && p <= |modules| && Skipped(m)
    ensures KnownModules(data, modules[..p] + [m] + modules[p..])
    ensures ModuleMultiplier(data, modules[..p] + [m] + modules[p..]) == ModuleMultiplier(data, modules)
  {
    var front, back := modules[..p], modules[p..];
    assert KnownModules(data, front) && KnownModules(data, back);
    assert front + back == modules;
    AllSkippedIsNeutral(data, [m]);
    AppliedMultipliersAppend(data, front, [m]);
    AppliedMultipliersAppend(data, front + [m], back);
    AppliedMultipliersAppend(data, front, back);
  }

  /** Applying the same module n times multiplies by its power to the n-th: modules stack. */
  lemma ModuleStacking(data: Tables, m: string, n: nat)
    requires m in data.moduleData && !Skipped(m)
    ensures KnownModules(data, seq(n, _ => m))
    ensures ModuleMultiplier(data, seq(n, _ => m)) == Power(data.moduleData[m].power, n)
  {
    StackedMultipliers(data, m, n);
    ProductConstant(data.moduleData[m].power, n);
  }

  /** n copies of one module apply n copies of its multiplier. */
  lemma {:induction false} StackedMultipliers(data: Tables, m: string, n: nat)
    requires m in data.moduleData && !Skipped(m)
    ensures KnownModules(data, seq(n, _ => m))
    ensures AppliedMultipliers(data, seq(n, _ => m)) == seq(n, _ => data.moduleData[m].power)
  {
    if n > 0 {
      assert seq(n, _ => m)[..n - 1] == seq(n - 1, _ => m);
      StackedMultipliers(data, m, n - 1);
      assert seq(n, _ => data.moduleData[m].power)
          == seq(n - 1, _ => data.moduleData[m].power) + [data.moduleData[m].power];
    }
  }

  /** Combined power is additive over concatenation of ship lists. */
  lemma CombinedPowerAppend(data: Tables, a: seq<CalcEntry>, b: seq<CalcEntry>)
    requires KnownEntries(data, a) && KnownEntries(data, b)
    ensures KnownEntries(data, a + b)
    ensures CombinedPower(data, a + b) == CombinedPower(data, a) + CombinedPower(data, b)
  {
    KnownEntriesAppend(data, a, b);
    assert EntryPowers(data, a + b) == EntryPowers(data, a) + EntryPowers(data, b);
    SumAppend(EntryPowers(data, a), EntryPowers(data, b));
  }

  /** Combined modifiers multiply componentwise over concatenation. */
  lemma CombinedModifiersAppend(data: Tables, a: seq<CalcEntry>, b: seq<CalcEntry>)
    requires KnownEntries(data, a) && KnownEntries(data, b)
    ensures KnownEntries(data, a + b)
    ensures CombinedModifiers(data, a + b).instability
         == CombinedModifiers(data, a).instability * CombinedModifiers(data, b).instability
    ensures CombinedModifiers(data, a + b).resistance
         == CombinedModifiers(data, a).resistance * CombinedModifiers(data, b).resistance
  {
    InstabilityAppend(data, a, b);
    ResistanceAppend(data, a, b);
  }

  /** The combined instability of a concatenation is the product of the parts' instabilities. */
  lemma InstabilityAppend(data: Tables, a: seq<CalcEntry>, b: seq<CalcEntry>)
    requires KnownEntries(data, a) && KnownEntries(data, b)
    ensures KnownEntries(data, a + b)
    ensures CombinedModifiers(data, a + b).instability
         == CombinedModifiers(data, a).instability * CombinedModifiers(data, b).instability
  {
    InstabilityProductAppend(data, a, b);
  }

  /** The combined resistance modifier of a concatenation is the product of the parts' modifiers. */
  lemma ResistanceAppend(data: Tables, a: seq<CalcEntry>, b: seq<CalcEntry>)
    requires KnownEntries(data, a) && KnownEntries(data, b)
    ensures KnownEntries(data, a + b)
    ensures CombinedModifiers(data, a + b).resistance
         == CombinedModifiers(data, a).resistance * CombinedModifiers(data, b).resistance
  {
    ResistanceProductAppend(data, a, b);
  }

  /** The instabilities of a concatenation are the two lists of instabilities, so their products multiply. */
  lemma InstabilityProductAppend(data: Tables, a: seq<CalcEntry>, b: seq<CalcEntry>)
    requires KnownEntries(data, a) && KnownEntries(data, b)
    ensures KnownEntries(data, a + b)
    ensures Product(Instabilities(data, a + b)) == Product(Instabilities(data, a)) * Product(Instabilities(data, b))
  {
    KnownEntriesAppend(data, a, b);
    assert Instabilities(data, a + b) == Instabilities(data, a) + Instabilities(data, b) by {
      forall i | |a| <= i < |a + b|
        ensures (a + b)[i] == b[i - |a|]
      {
      }
    }
    ProductAppend(Instabilities(data, a), Instabilities(data, b));
  }

  /** The resistances of a concatenation are the two lists of resistances, so their products multiply. */
  lemma ResistanceProductAppend(data: Tables, a: seq<CalcEntry>, b: seq<CalcEntry>)
    requires KnownEntries(data, a) && KnownEntries(data, b)
    ensures KnownEntries(data, a + b)
    ensures Product(Resistances(data, a + b)) == Product(Resistances(data, a)) * Product(Resistances(data, b))
  {
    KnownEntriesAppend(data, a, b);
    assert Resistances(data, a + b) == Resistances(data, a) + Resistances(data, b) by {
      forall i | |a| <= i < |a + b|
        ensures (a + b)[i] == b[i - |a|]
      {
      }
    }
    ProductAppend(Resistances(data, a), Resistances(data, b));
  }

  /** Inserting a skipped module key into any entry never changes combined power. */
  lemma InsertSkippedModuleKeepsPower(data: Tables, ships: seq<CalcEntry>, i: nat, p: nat, m: string)
    requires KnownEntries(data, ships) && i < |ships| && p <= |ships[i].modules| && Skipped(m)
    ensures
      var ms := ships[i].modules;
      var edited := ships[i := CalcEntry(ships[i].laser, ms[..p] + [m] + ms[p..])];
      KnownEntries(data, edited) && CombinedPower(data, edited) == CombinedPower(data, ships)
  {
    var ms := ships[i].modules;
    var edited := ships[i := CalcEntry(ships[i].laser, ms[..p] + [m] + ms[p..])];
    SkippedModuleNeutral(data, ms, p, m);
    assert KnownEntries(data, edited) by {
      forall k | 0 <= k < |edited|
        ensures edited[k].laser in data.laserData && KnownModules(data, edited[k].modules)
      {
        if k != i {
          assert edited[k] == ships[k];
        }
      }
    }
    forall k | 0 <= k < |ships|
      ensures EntryPowers(data, edited)[k] == EntryPowers(data, ships)[k]
    {
      if k != i {
        assert edited[k] == ships[k];
      }
    }
    assert EntryPowers(data, edited) == EntryPowers(data, ships);
  }

  /** Modules never affect the modifiers: only the sequence of laser keys matters. */
  lemma ModifiersIgnoreModules(data: Tables, a: seq<CalcEntry>, b: seq<CalcEntry>)
    requires KnownEntries(data, a) && KnownEntries(data, b) && |a| == |b|
    requires forall i :: 0 <= i < |a| ==> a[i].laser == b[i].laser
    ensures CombinedModifiers(data, a) == CombinedModifiers(data, b)
  {
    assert Instabilities(data, a) == Instabilities(data, b);
    assert Resistances(data, a) == Resistances(data, b);
  }

  /** Over positive tables every applied multiplier is positive. */
  lemma {:induction false} AppliedMultipliersPositive(data: Tables, modules: seq<string>)
    requires PositiveTables(data) && KnownModules(data, modules)
    ensures forall k :: 0 <= k < |AppliedMultipliers(data, modules)| ==> AppliedMultipliers(data, modules)[k] > 0.0
  {
    if modules != [] {
      AppliedMultipliersPositive(data, modules[..|modules| - 1]);
    }
  }

  /** Over positive tables combined power is never negative, and positive once a laser is present. */
  lemma CombinedPowerPositive(data: Tables, ships: seq<CalcEntry>)
    requires PositiveTables(data) && KnownEntries(data, ships)
    ensures CombinedPower(data, ships) >= 0.0
    ensures ships != [] ==> CombinedPower(data, ships) > 0.0
  {
    var powers := EntryPowers(data, ships);
    forall i | 0 <= i < |ships|
      ensures powers[i] > 0.0
    {
      var e := ships[i];
      AppliedMultipliersPositive(data, e.modules);
      ProductPositive(AppliedMultipliers(data, e.modules));
      MulPositive(data.laserData[e.laser].power, ModuleMultiplier(data, e.modules));
    }
    SumNonNegative(powers);
  }

  /** Over positive tables both combined modifiers are positive. */
  lemma CombinedModifiersPositive(data: Tables, ships: seq<CalcEntry>)
    requires PositiveTables(data) && KnownEntries(data, ships)
    ensures CombinedModifiers(data, ships).instability > 0.0
    ensures CombinedModifiers(data, ships).resistance > 0.0
  {
    ProductPositive(Instabilities(data, ships));
    ProductPositive(Resistances(data, ships));
  }

  /** An empty fleet has no power and neutral modifiers. */
  lemma EmptyFleet(data: Tables)
    ensures KnownEntries(data, [])
    ensures CombinedPower(data, []) == 0.0
    ensures CombinedModifiers(data, []) == Modifiers(1.0, 1.0)
  {
    assert EntryPowers(data, []) == [];
    assert Instabilities(data, []) == [] && Resistances(data, []) == [];
  }

  /** One laser with only skipped modules: its raw power and its own modifiers. */
  lemma SingleLaserNeutral(data: Tables, k: string, modules: seq<string>)
    requires k in data.laserData && forall i :: 0 <= i < |modules| ==> Skipped(modules[i])
    ensures KnownEntries(data, [CalcEntry(k, modules)])
    ensures CombinedPower(data, [CalcEntry(k, modules)]) == data.laserData[k].power
    ensures CombinedModifiers(data, [CalcEntry(k, modules)])
         == Modifiers(data.laserData[k].instability, data.laserData[k].resistance)
  {
    var ships := [CalcEntry(k, modules)];
    var laser := data.laserData[k];
    AllSkippedIsNeutral(data, modules);
    assert EntryPowers(data, ships) == [] + [laser.power];
    SumSnoc([], laser.power);
    assert Instabilities(data, ships) == [] + [laser.instability];
    assert Resistances(data, ships) == [] + [laser.resistance];
    ProductSnoc([], laser.instability);
    ProductSnoc([], laser.resistance);
  }

  lemma MulMonotone(k: real, x: real, y: real)
    requires k >= 0.0 && x <= y
    ensures k * x <= k * y
  {
  }

  /** The formula never increases as resistance increases (for a monotone `pow`). */
  lemma MassFormulaMonotone(r1: real, r2: real, combinedPower: real, resistanceMod: real, pow: real -> real)
    requires PowAssumptions(pow)
    requires combinedPower >= 0.0 && resistanceMod >= 0.0
    requires 0.0 <= r1 <= r2 && r2 * resistanceMod <= 1.0
    ensures r1 * resistanceMod <= 1.0
    ensures MassFormula(r2, combinedPower, resistanceMod, pow) <= MassFormula(r1, combinedPower, resistanceMod, pow)
  {
    MulMonotone(resistanceMod, r1, r2);
    var u1, u2 := 1.0 - r1 * resistanceMod, 1.0 - r2 * resistanceMod;
    assert 0.0 <= r1 * resistanceMod by { MulMonotone(resistanceMod, 0.0, r1); }
    assert 0.0 <= u2 <= u1 <= 1.0;
    assert 0.0 <= pow(u2) <= pow(u1);
    var k := BaselineMass * (combinedPower / BaselinePower);
    assert k >= 0.0;
    MulMonotone(k, pow(u2), pow(u1));
    assert RawMass(r2, combinedPower, resistanceMod, pow) <= RawMass(r1, combinedPower, resistanceMod, pow);
  }

  /** With the ship list fixed, the maximum mass does not increase as resistance increases. */
  lemma MaxMassMonotone(data: Tables, r1: real, r2: real, ships: seq<CalcEntry>, pow: real -> real)
    requires PositiveTables(data) && KnownEntries(data, ships) && PowAssumptions(pow)
    requires 0.0 <= r1 <= r2 && r2 * CombinedModifiers(data, ships).resistance <= 1.0
    ensures r1 * CombinedModifiers(data, ships).resistance <= 1.0
    ensures MaxMass(data, r2, ships, pow) <= MaxMass(data, r1, ships, pow)
  {
    var power, resistanceMod := CombinedPower(data, ships), CombinedModifiers(data, ships).resistance;
    assert power >= 0.0 by { CombinedPowerPositive(data, ships); }
    assert resistanceMod >= 0.0 by { CombinedModifiersPositive(data, ships); }
    MassFormulaMonotone(r1, r2, power, resistanceMod, pow);
  }

  /** The calibration anchor: one Arbor without modules at resistance 0 fractures exactly 8000 kg. */
  lemma SingleArborAtZero(pow: real -> real)
    requires pow(1.0) == 1.0
    ensures KnownEntries(Data(), [CalcEntry("arbor", [])])
    ensures MaxMass(Data(), 0.0, [CalcEntry("arbor", [])], pow) == 8000
  {
    assert "arbor" in Data().laserData && Data().laserData["arbor"] == LaserSpec(1850.0, 1.0, 1.0, 3);
    SingleLaserNeutral(Data(), "arbor", []);
    assert RawMass(0.0, 1850.0, 1.0, pow) == 8000.0;
  }
}
