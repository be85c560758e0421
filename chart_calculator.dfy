/**
 * The chart sampled with the `calculateMaxMass` of public/js/calculations.js: which fleets
 * chart the capacity formula and which make the chart throw.
 */
module ChartCalculator {
  import opened Wrappers
  import opened Fleet
  import opened Calculations
  import opened Chart
  import Folds
  import CalcData

  /** The TypeError `laserData[key].power` (or `moduleData[key].power`) raises for a key not in the table. */
  const LookupFailed: string := "Cannot read properties of undefined (reading 'power')"

  /**
   * `calculateMaxMass(resistance, calcShips)` of public/js/calculations.js as the chart sees
   * it: the power loop throws on a key missing from the tables, an effective resistance above
   * 1 gives NaN, and otherwise the result is the capacity formula.
   */
  function MaxMassOutcome(data: CalcData.Tables, pow: real -> real, resistance: real, calcShips: seq<CalcEntry>): (r: Result<MassValue, string>)
    ensures r.Err? <==> !KnownEntries(data, calcShips)
    ensures r == Ok(NotANumber) <==> KnownEntries(data, calcShips) && resistance * CombinedModifiers(data, calcShips).resistance > 1.0
    ensures r.Ok? && r.value.Kg? ==> 100 <= r.value.kg <= 50000
  {
    if !KnownEntries(data, calcShips) then Err(LookupFailed)
    else if resistance * CombinedModifiers(data, calcShips).resistance <= 1.0 then
      Ok(Kg(MaxMass(data, resistance, calcShips, pow)))
    else Ok(NotANumber)
  }

  /** The calculations namespace's entry point as the chart calls it; the gadgets argument is not read. */
  function Calculator(data: CalcData.Tables, pow: real -> real): MassFunction {
    (resistance: real, calcShips: seq<CalcEntry>, gadgets: seq<string>) => MaxMassOutcome(data, pow, resistance, calcShips)
  }

  /** Over entries whose keys are all in the tables, every step within range charts the formula's mass. */
  lemma ChartOfKnownFleet(data: CalcData.Tables, pow: real -> real, steps: seq<real>, calcShips: seq<CalcEntry>, gadgets: seq<string>)
    requires KnownEntries(data, calcShips)
    requires forall i :: 0 <= i < |steps| ==> steps[i] * CombinedModifiers(data, calcShips).resistance <= 1.0
    ensures ChartPoints(steps, calcShips, gadgets, Calculator(data, pow)).Ok?
    ensures |ChartPoints(steps, calcShips, gadgets, Calculator(data, pow)).value| == |steps|
    ensures forall i :: 0 <= i < |steps| ==>
      ChartPoints(steps, calcShips, gadgets, Calculator(data, pow)).value[i]
        == ChartPoint(steps[i], Kg(MaxMass(data, steps[i], calcShips, pow)))
  {
    var f := Calculator(data, pow);
    forall i | 0 <= i < |steps|
      ensures f(steps[i], calcShips, gadgets) == Ok(Kg(MaxMass(data, steps[i], calcShips, pow)))
    {
      CalculatorOfKnownEntries(data, pow, steps[i], calcShips, gadgets);
    }
    ChartPointsComputed(steps, calcShips, gadgets, f);
  }

  /** One step over known keys within range: the calculator returns the formula's mass. */
  lemma CalculatorOfKnownEntries(data: CalcData.Tables, pow: real -> real, resistance: real, calcShips: seq<CalcEntry>, gadgets: seq<string>)
    requires KnownEntries(data, calcShips)
    requires resistance * CombinedModifiers(data, calcShips).resistance <= 1.0
    ensures Calculator(data, pow)(resistance, calcShips, gadgets) == Ok(Kg(MaxMass(data, resistance, calcShips, pow)))
  {
    assert Calculator(data, pow)(resistance, calcShips, gadgets) == MaxMassOutcome(data, pow, resistance, calcShips);
  }

  /** Every laser resistance modifier of the shipped table lies in (0, 1]. */
  lemma ShippedResistancesAtMostOne()
    ensures forall k :: k in CalcData.Data().laserData ==> 0.0 < CalcData.Data().laserData[k].resistance <= 1.0
  {
  }

  /**
   * With the shipped tables and the default steps, the chart of entries whose keys are all
   * known never fails: each point is the formula's mass at that resistance.
   */
  lemma DefaultChartOfShippedFleet(pow: real -> real, calcShips: seq<CalcEntry>, gadgets: seq<string>)
    requires KnownEntries(CalcData.Data(), calcShips)
    ensures forall i :: 0 <= i < |DefaultSteps()| ==>
      DefaultSteps()[i] * CombinedModifiers(CalcData.Data(), calcShips).resistance <= 1.0
    ensures ChartPoints(DefaultSteps(), calcShips, gadgets, Calculator(CalcData.Data(), pow)).Ok?
    ensures |ChartPoints(DefaultSteps(), calcShips, gadgets, Calculator(CalcData.Data(), pow)).value| == |DefaultSteps()|
    ensures forall i :: 0 <= i < |DefaultSteps()| ==>
      ChartPoints(DefaultSteps(), calcShips, gadgets, Calculator(CalcData.Data(), pow)).value[i]
        == ChartPoint(DefaultSteps()[i], Kg(MaxMass(CalcData.Data(), DefaultSteps()[i], calcShips, pow)))
  {
    ShippedModifierAtMostOne(calcShips);
    DefaultStepsWithinRange(CombinedModifiers(CalcData.Data(), calcShips).resistance);
    ChartOfKnownFleet(CalcData.Data(), pow, DefaultSteps(), calcShips, gadgets);
  }

  /** With the shipped tables the combined resistance modifier of any known fleet lies in [0, 1]. */
  lemma ShippedModifierAtMostOne(calcShips: seq<CalcEntry>)
    requires KnownEntries(CalcData.Data(), calcShips)
    ensures 0.0 <= CombinedModifiers(CalcData.Data(), calcShips).resistance <= 1.0
  {
    ShippedResistancesAtMostOne();
    Folds.ProductAtMostOne(Resistances(CalcData.Data(), calcShips));
  }

  /** Every default step times a modifier in [0, 1] is an effective resistance of at most 1. */
  lemma DefaultStepsWithinRange(resistanceMod: real)
    requires 0.0 <= resistanceMod <= 1.0
    ensures forall i :: 0 <= i < |DefaultSteps()| ==> DefaultSteps()[i] * resistanceMod <= 1.0
  {
    DefaultStepsShape();
    forall i | 0 <= i < |DefaultSteps()|
      ensures DefaultSteps()[i] * resistanceMod <= 1.0
    {
      MulMonotone(resistanceMod, DefaultSteps()[i], 1.0);
    }
  }

  /** A fleet holding an `un-maned` laser makes the chart fail with the lookup error, at the first step. */
  lemma UnMannedBreaksChart(pow: real -> real, shipType: string, modules: seq<string>, steps: seq<real>, gadgets: seq<string>)
    requires steps != []
    ensures ChartPoints(steps, Converted([Nested(shipType, [LaserConfig(UnManned, modules)])]), gadgets, Calculator(CalcData.Data(), pow))
         == Err(LookupFailed)
  {
    var calcShips := Converted([Nested(shipType, [LaserConfig(UnManned, modules)])]);
    ConvertedKeepsUnManned(shipType, modules);
    assert UnManned !in CalcData.Data().laserData;
    assert !KnownEntries(CalcData.Data(), calcShips) by {
      assert calcShips[0].laser == UnManned;
    }
    assert Calculator(CalcData.Data(), pow)(steps[0], calcShips, gadgets) == MaxMassOutcome(CalcData.Data(), pow, steps[0], calcShips);
  }
}
