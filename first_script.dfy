/**
 * The first generation of the page (script.js): the formula over plain laser keys (no
 * modules), the `canMine` verdict and the global ship counter. The formula's arithmetic
 * after the two accumulations is the one of public/js/calculations.js, so it is
 * `Calculations.MassFormula` here too.
 */
module FirstScript {
  import opened Folds
  import opened Calculations
  import CalcData

  /** A row of script.js's laser table. */
  datatype Laser = Laser(power: real, instability: real, resistance: real)

  /** script.js's laser table. */
  function Lasers(): map<string, Laser> {
    map[
      "arbor" := Laser(1850.0, 1.0, 1.0),
      "hofstede" := Laser(1295.0, 0.5, 0.7),
      "helix" := Laser(1850.0, 0.6, 0.7),
      "lancet" := Laser(1850.0, 0.7, 1.0)
    ]
  }

  /** Every key the loops look up is in the table (otherwise the lookup throws). */
  ghost predicate KnownLasers(table: map<string, Laser>, lasers: seq<string>) {
    forall i :: 0 <= i < |lasers| ==> lasers[i] in table
  }

  /** Each laser's power, in order. */
  function Powers(table: map<string, Laser>, lasers: seq<string>): seq<real>
    requires KnownLasers(table, lasers)
  {
    seq(|lasers|, i requires 0 <= i < |lasers| => table[lasers[i]].power)
  }

  function Instabilities(table: map<string, Laser>, lasers: seq<string>): seq<real>
    requires KnownLasers(table, lasers)
  {
    seq(|lasers|, i requires 0 <= i < |lasers| => table[lasers[i]].instability)
  }

  function Resistances(table: map<string, Laser>, lasers: seq<string>): seq<real>
    requires KnownLasers(table, lasers)
  {
    seq(|lasers|, i requires 0 <= i < |lasers| => table[lasers[i]].resistance)
  }

  /** Combined power: the sum of the lasers' powers. */
  function CombinedPower(table: map<string, Laser>, lasers: seq<string>): real
    requires KnownLasers(table, lasers)
  {
    Sum(Powers(table, lasers))
  }

  /** Combined modifiers: the products of the lasers' instability and resistance. */
  function CombinedModifiers(table: map<string, Laser>, lasers: seq<string>): Modifiers
    requires KnownLasers(table, lasers)
  {
    Modifiers(Product(Instabilities(table, lasers)), Product(Resistances(table, lasers)))
  }

  /** `calculateMaxMass(resistance, lasers)`. */
  function MaxMass(table: map<string, Laser>, resistance: real, lasers: seq<string>, pow: real -> real): (m: int)
    requires KnownLasers(table, lasers)
    requires resistance * CombinedModifiers(table, lasers).resistance <= 1.0
    ensures 100 <= m <= 50000
  {
    MassFormula(resistance, CombinedPower(table, lasers), CombinedModifiers(table, lasers).resistance, pow)
  }

  /** `calculateCombinedPower(lasers)`: the accumulator loop. */
  method CalculateCombinedPower(table: map<string, Laser>, lasers: seq<string>) returns (totalPower: real)
    requires KnownLasers(table, lasers)
    ensures totalPower == CombinedPower(table, lasers)
  {
    totalPower := 0.0;
    var i := 0;
    while i < |lasers|
      invariant 0 <= i <= |lasers|
      invariant totalPower == CombinedPower(table, lasers[..i])
    {
      assert Powers(table, lasers[..i + 1]) == Powers(table, lasers[..i]) + [table[lasers[i]].power];
      SumSnoc(Powers(table, lasers[..i]), table[lasers[i]].power);
      totalPower := totalPower + table[lasers[i]].power;
      i := i + 1;
    }
    assert lasers[..i] == lasers;
  }

  /** `calculateCombinedModifiers(lasers)`: the two product loops. */
  method CalculateCombinedModifiers(table: map<string, Laser>, lasers: seq<string>) returns (modifiers: Modifiers)
    requires KnownLasers(table, lasers)
    ensures modifiers == CombinedModifiers(table, lasers)
  {
    var instabilityMod := 1.0;
    var resistanceMod := 1.0;
    var i := 0;
    while i < |lasers|
      invariant 0 <= i <= |lasers|
      invariant Modifiers(instabilityMod, resistanceMod) == CombinedModifiers(table, lasers[..i])
    {
      var laser := table[lasers[i]];
      assert Instabilities(table, lasers[..i + 1]) == Instabilities(table, lasers[..i]) + [laser.instability];
      assert Resistances(table, lasers[..i + 1]) == Resistances(table, lasers[..i]) + [laser.resistance];
      ProductSnoc(Instabilities(table, lasers[..i]), laser.instability);
      ProductSnoc(Resistances(table, lasers[..i]), laser.resistance);
      instabilityMod := instabilityMod * laser.instability;
      resistanceMod := resistanceMod * laser.resistance;
      i := i + 1;
    }
    assert lasers[..i] == lasers;
    modifiers := Modifiers(instabilityMod, resistanceMod);
  }

  /** `calculateMaxMass(resistance, lasers)`. */
  method CalculateMaxMass(table: map<string, Laser>, resistance: real, lasers: seq<string>, pow: real -> real)
    returns (maxMass: int)
    requires KnownLasers(table, lasers)
    requires resistance * CombinedModifiers(table, lasers).resistance <= 1.0
    ensures maxMass == MaxMass(table, resistance, lasers, pow)
  {
    var combinedPower := CalculateCombinedPower(table, lasers);
    var modifiers := CalculateCombinedModifiers(table, lasers);
    maxMass := ApplyMassFormula(resistance, combinedPower, modifiers.resistance, pow);
  }

  /** The `canMine` verdict. */
  datatype Verdict = Verdict(possible: bool, difficulty: string, color: string)

  /** The four classes, easiest first. */
  const Easy: Verdict := Verdict(true, "easy", "can-mine")
  const Difficult: Verdict := Verdict(true, "difficult", "difficult")
  const VeryDifficult: Verdict := Verdict(true, "very difficult", "difficult")
  const Impossible: Verdict := Verdict(false, "impossible", "cannot-mine")

  /** How hard a verdict is: 0 for easy up to 3 for impossible. */
  function Rank(v: Verdict): nat {
    if v == Easy then 0 else if v == Difficult then 1 else if v == VeryDifficult then 2 else 3
  }

  /** The threshold chain of `canMine` against a maximum mass. */
  function Classify(mass: real, maxMass: int): (v: Verdict)
    ensures v == Impossible <==> mass > maxMass as real * 1.2
    ensures v == VeryDifficult <==> maxMass as real < mass <= maxMass as real * 1.2
    ensures v == Difficult <==> maxMass as real * 0.8 < mass <= maxMass as real && !(mass > maxMass as real * 1.2)
    ensures v == Easy <==> mass <= maxMass as real * 0.8 && !(mass > maxMass as real) && !(mass > maxMass as real * 1.2)
    ensures v.possible <==> v != Impossible
  {
    if mass > maxMass as real * 1.2 then Impossible
    else if mass > maxMass as real then VeryDifficult
    else if mass > maxMass as real * 0.8 then Difficult
    else Easy
  }

  /** With a non-negative maximum the thresholds are ordered, so the classes are the four bands. */
  lemma ClassifyBands(mass: real, maxMass: int)
    requires maxMass >= 0
    ensures Classify(mass, maxMass) == Easy <==> mass <= maxMass as real * 0.8
    ensures Classify(mass, maxMass) == Difficult <==> maxMass as real * 0.8 < mass <= maxMass as real
  {
  }

  /** A heavier rock never gets an easier verdict. */
  lemma ClassifyMonotone(mass1: real, mass2: real, maxMass: int)
    requires maxMass >= 0 && mass1 <= mass2
    ensures Rank(Classify(mass1, maxMass)) <= Rank(Classify(mass2, maxMass))
  {
  }

  /** `canMine(mass, resistance, lasers)`: the rock's mass against the fleet's maximum at that resistance. */
  function CanMine(table: map<string, Laser>, mass: real, resistance: real, lasers: seq<string>, pow: real -> real): (v: Verdict)
    requires KnownLasers(table, lasers)
    requires resistance * CombinedModifiers(table, lasers).resistance <= 1.0
    ensures v == Classify(mass, MaxMass(table, resistance, lasers, pow))
    ensures !v.possible <==> mass > MaxMass(table, resistance, lasers, pow) as real * 1.2
    ensures v == VeryDifficult <==>
      MaxMass(table, resistance, lasers, pow) as real < mass <= MaxMass(table, resistance, lasers, pow) as real * 1.2
    ensures v == Difficult <==>
      MaxMass(table, resistance, lasers, pow) as real * 0.8 < mass <= MaxMass(table, resistance, lasers, pow) as real
    ensures v == Easy <==> mass <= MaxMass(table, resistance, lasers, pow) as real * 0.8
  {
    var maxMass := MaxMass(table, resistance, lasers, pow);
    ClassifyBands(mass, maxMass);
    Classify(mass, maxMass)
  }

  /** For a fixed fleet and resistance, a heavier rock never gets an easier verdict. */
  lemma CanMineMonotone(table: map<string, Laser>, mass1: real, mass2: real, resistance: real, lasers: seq<string>, pow: real -> real)
    requires KnownLasers(table, lasers)
    requires resistance * CombinedModifiers(table, lasers).resistance <= 1.0
    requires mass1 <= mass2
    ensures Rank(CanMine(table, mass1, resistance, lasers, pow)) <= Rank(CanMine(table, mass2, resistance, lasers, pow))
  {
    ClassifyMonotone(mass1, mass2, MaxMass(table, resistance, lasers, pow));
  }

  /** The sums the tests expect: one Arbor, two Arbors, and an Arbor, a Hofstede and a Helix. */
  lemma ShippedPowers()
    ensures KnownLasers(Lasers(), ["arbor"]) && CombinedPower(Lasers(), ["arbor"]) == 1850.0
    ensures KnownLasers(Lasers(), ["arbor", "arbor"]) && CombinedPower(Lasers(), ["arbor", "arbor"]) == 3700.0
    ensures KnownLasers(Lasers(), ["arbor", "hofstede", "helix"])
    ensures CombinedPower(Lasers(), ["arbor", "hofstede", "helix"]) == 4995.0
  {
    var arbor, hofstede, helix := Lasers()["arbor"].power, Lasers()["hofstede"].power, Lasers()["helix"].power;
    assert arbor == 1850.0 && hofstede == 1295.0 && helix == 1850.0;
    assert Powers(Lasers(), ["arbor"]) == [] + [arbor];
    SumSnoc([], arbor);
    assert Powers(Lasers(), ["arbor", "arbor"]) == [arbor] + [arbor];
    SumSnoc([arbor], arbor);
    assert Powers(Lasers(), ["arbor", "hofstede", "helix"]) == [arbor, hofstede] + [helix];
    assert [arbor, hofstede] == [arbor] + [hofstede];
    SumSnoc([arbor], hofstede);
    SumSnoc([arbor, hofstede], helix);
  }

  /** Two Hofstedes: instability 0.5 × 0.5 and resistance 0.7 × 0.7. */
  lemma TwoHofstedes()
    ensures KnownLasers(Lasers(), ["hofstede", "hofstede"])
    ensures CombinedModifiers(Lasers(), ["hofstede", "hofstede"]) == Modifiers(0.25, 0.49)
  {
    var h := Lasers()["hofstede"];
    assert h == Laser(1295.0, 0.5, 0.7);
    assert Instabilities(Lasers(), ["hofstede", "hofstede"]) == [0.5] + [0.5];
    assert Resistances(Lasers(), ["hofstede", "hofstede"]) == [0.7] + [0.7];
    assert [0.5] == [] + [0.5];
    assert [0.7] == [] + [0.7];
    ProductSnoc([], 0.5);
    ProductSnoc([0.5], 0.5);
    ProductSnoc([], 0.7);
    ProductSnoc([0.7], 0.7);
  }

  /** script.js's table carries the same power, instability and resistance as the later data.js table. */
  lemma TablesAgree(k: string)
    requires k in Lasers()
    ensures k in CalcData.Lasers()
    ensures Lasers()[k] == Laser(CalcData.Lasers()[k].power, CalcData.Lasers()[k].instability, CalcData.Lasers()[k].resistance)
  {
  }

  /** The first generation agrees with the current one on fleets without modules. */
  lemma AgreesWithCurrent(lasers: seq<string>)
    requires KnownLasers(Lasers(), lasers)
    ensures KnownEntries(CalcData.Data(), seq(|lasers|, i requires 0 <= i < |lasers| => CalcEntry(lasers[i], [])))
    ensures CombinedPower(Lasers(), lasers)
         == Calculations.CombinedPower(CalcData.Data(), seq(|lasers|, i requires 0 <= i < |lasers| => CalcEntry(lasers[i], [])))
    ensures CombinedModifiers(Lasers(), lasers)
         == Calculations.CombinedModifiers(CalcData.Data(), seq(|lasers|, i requires 0 <= i < |lasers| => CalcEntry(lasers[i], [])))
  {
    var entries := seq(|lasers|, i requires 0 <= i < |lasers| => CalcEntry(lasers[i], []));
    forall i | 0 <= i < |lasers|
      ensures entries[i].laser in CalcData.Data().laserData
      ensures Calculations.EntryPower(CalcData.Data(), entries[i]) == Powers(Lasers(), lasers)[i]
      ensures CalcData.Data().laserData[lasers[i]].instability == Lasers()[lasers[i]].instability
      ensures CalcData.Data().laserData[lasers[i]].resistance == Lasers()[lasers[i]].resistance
    {
      TablesAgree(lasers[i]);
      AllSkippedIsNeutral(CalcData.Data(), []);
    }
    assert Calculations.EntryPowers(CalcData.Data(), entries) == Powers(Lasers(), lasers);
    assert Calculations.Instabilities(CalcData.Data(), entries) == Instabilities(Lasers(), lasers);
    assert Calculations.Resistances(CalcData.Data(), entries) == Resistances(Lasers(), lasers);
  }

  /** script.js's global ship counter. */
  class ShipCounter {
    var shipCount: int

    /** At least one ship is always shown. */
    ghost predicate Valid()
      reads this
    {
      shipCount >= 1
    }

    constructor()
      ensures shipCount == 1 && Valid()
    {
      shipCount := 1;
    }

    /** `addShip()`. */
    method AddShip()
      modifies this
      ensures shipCount == old(shipCount) + 1
      ensures old(Valid()) ==> Valid()
    {
      shipCount := shipCount + 1;
    }

    /** `removeShip()`: only while more than one ship is shown. */
    method RemoveShip()
      modifies this
      ensures old(shipCount) > 1 ==> shipCount == old(shipCount) - 1
      ensures old(shipCount) <= 1 ==> shipCount == old(shipCount)
      ensures old(Valid()) ==> Valid()
    {
      if shipCount > 1 {
        shipCount := shipCount - 1;
      }
    }
  }
}
