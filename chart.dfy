/**
 * The data side of the capacity chart (public/js/chart.js): converting the UI's nested
 * fleet into the flat entries the formula reads, and sampling the formula over a list of
 * resistances. Drawing the chart is presentation and is not modelled.
 */
module Chart {
  import opened Wrappers
  import opened Fleet
  import opened Calculations

  /**
   * An element of the `ships` argument as the converter tells them apart: an object with a
   * `lasers` array (the UI shape), one with only a `laser` key (already flat), or neither.
   */
  datatype ChartShip =
    | Nested(shipType: string, lasers: seq<LaserConfig>)
    | Flat(laser: string, modules: seq<string>)
    | Unrecognised

  /** What `calculateMaxMass` returns for one step: a mass in kg, or NaN. */
  datatype MassValue = Kg(kg: int) | NotANumber

  /** One point of the chart. */
  datatype ChartPoint = ChartPoint(resistance: real, maxMass: MassValue)

  /**
   * The `calculateMaxMass(resistance, ships, gadgets)` entry point of the calculations
   * namespace: the value it returns, or the message of the error it throws.
   */
  type MassFunction = (real, seq<CalcEntry>, seq<string>) -> Result<MassValue, string>

  const NotLoaded: string := "FracturationParty.calculations module not loaded"

  /** `modules.filter(m => m !== 'none')`. */
  function WithoutNone(modules: seq<string>): (r: seq<string>)
    ensures forall m :: m in r <==> m in modules && m != "none"
    ensures |r| <= |modules|
  {
    if modules == [] then []
    else
      var front := WithoutNone(modules[..|modules| - 1]);
      var last := modules[|modules| - 1];
      assert forall m :: m in modules <==> m in modules[..|modules| - 1] || m == last by {
        assert modules == modules[..|modules| - 1] + [last];
      }
      if last == "none" then front else front + [last]
  }

  /** Filtering distributes over concatenation, so the kept modules stay in their order. */
  lemma {:induction false} WithoutNoneAppend(a: seq<string>, b: seq<string>)
    ensures WithoutNone(a + b) == WithoutNone(a) + WithoutNone(b)
  {
    if b == [] {
      assert a + b == a;
    } else {
      var b' := b[..|b| - 1];
      assert (a + b)[..|a + b| - 1] == a + b';
      WithoutNoneAppend(a, b');
    }
  }

  /** Dropping `none` modules never changes the power multiplier the formula computes. */
  lemma WithoutNoneKeepsMultiplier(data: CalcData.Tables, modules: seq<string>)
    requires KnownModules(data, modules)
    ensures KnownModules(data, WithoutNone(modules))
    ensures ModuleMultiplier(data, WithoutNone(modules)) == ModuleMultiplier(data, modules)
  {
    WithoutNoneKeepsApplied(data, modules);
  }

  /** The power loop applies the same multipliers, in the same order, once `none` keys are gone. */
  lemma {:induction false} WithoutNoneKeepsApplied(data: CalcData.Tables, modules: seq<string>)
    requires KnownModules(data, modules)
    ensures KnownModules(data, WithoutNone(modules))
    ensures AppliedMultipliers(data, WithoutNone(modules)) == AppliedMultipliers(data, modules)
  {
    if modules != [] {
      var front, last := modules[..|modules| - 1], modules[|modules| - 1];
      assert KnownModules(data, front);
      WithoutNoneKeepsApplied(data, front);
      if last != "none" {
        AppliedMultipliersSnoc(data, WithoutNone(front), last);
      }
    }
  }

  /** One more known key adds its multiplier, unless the loop skips it. */
  lemma AppliedMultipliersSnoc(data: CalcData.Tables, modules: seq<string>, m: string)
    requires KnownModules(data, modules) && (Skipped(m) || m in data.moduleData)
    ensures KnownModules(data, modules + [m])
    ensures AppliedMultipliers(data, modules + [m])
      == AppliedMultipliers(data, modules) + (if Skipped(m) then [] else [data.moduleData[m].power])
  {
    assert (modules + [m])[..|modules|] == modules;
  }

  /** The entries one element of `ships` contributes. */
  function EntriesOf(ship: ChartShip): seq<CalcEntry> {
    match ship
    case Nested(_, lasers) =>
      seq(|lasers|, i requires 0 <= i < |lasers| => CalcEntry(lasers[i].laserType, WithoutNone(lasers[i].modules)))
    case Flat(laser, modules) => if laser != "" then [CalcEntry(laser, modules)] else []
    case Unrecognised => []
  }

  /** `convertShipsFormat(ships)`: every element's entries, in order. */
  function Converted(ships: seq<ChartShip>): seq<CalcEntry> {
    if ships == [] then [] else Converted(ships[..|ships| - 1]) + EntriesOf(ships[|ships| - 1])
  }

  /** `convertShipsFormat`: the nested `forEach` that pushes into `calcShips`. */
  method ConvertShipsFormat(uiShips: seq<ChartShip>) returns (calcShips: seq<CalcEntry>)
    ensures calcShips == Converted(uiShips)
  {
    calcShips := [];
    var i := 0;
    while i < |uiShips|
      invariant 0 <= i <= |uiShips|
      invariant calcShips == Converted(uiShips[..i])
    {
      var ship := uiShips[i];
      assert uiShips[..i + 1][..i] == uiShips[..i];
      if ship.Nested? {
        var start := calcShips;
        var j := 0;
        while j < |ship.lasers|
          invariant 0 <= j <= |ship.lasers|
          invariant calcShips == start + EntriesOf(ship)[..j]
        {
          var laserConfig := ship.lasers[j];
          calcShips := calcShips + [CalcEntry(laserConfig.laserType, WithoutNone(laserConfig.modules))];
          assert EntriesOf(ship)[..j + 1] == EntriesOf(ship)[..j] + [EntriesOf(ship)[j]];
          j := j + 1;
        }
        assert EntriesOf(ship)[..j] == EntriesOf(ship);
      } else if ship.Flat? && ship.laser != "" {
        calcShips := calcShips + [CalcEntry(ship.laser, ship.modules)];
      }
      i := i + 1;
    }
    assert uiShips[..i] == uiShips;
  }

  /** One more element of `ships` appends its entries. */
  lemma ConvertedSnoc(ships: seq<ChartShip>, ship: ChartShip)
    ensures Converted(ships + [ship]) == Converted(ships) + EntriesOf(ship)
  {
    assert (ships + [ship])[..|ships|] == ships;
  }

  /** Conversion distributes over concatenation: each element converts on its own, in place. */
  lemma {:induction false} ConvertedAppend(a: seq<ChartShip>, b: seq<ChartShip>)
    ensures Converted(a + b) == Converted(a) + Converted(b)
  {
    if b == [] {
      assert a + b == a;
    } else {
      var b', last := b[..|b| - 1], b[|b| - 1];
      calc {
        Converted(a + b);
        { assert a + b == (a + b') + [last]; }
        Converted((a + b') + [last]);
        { ConvertedSnoc(a + b', last); }
        Converted(a + b') + EntriesOf(last);
        { ConvertedAppend(a, b'); }
        Converted(a) + Converted(b') + EntriesOf(last);
        { ConcatAssoc(Converted(a), Converted(b'), EntriesOf(last)); }
        Converted(a) + (Converted(b') + EntriesOf(last));
        { assert b == b' + [last]; ConvertedSnoc(b', last); }
        Converted(a) + Converted(b);
      }
    }
  }

  /** Concatenation is associative. */
  lemma ConcatAssoc<T>(x: seq<T>, y: seq<T>, z: seq<T>)
    ensures (x + y) + z == x + (y + z)
  {
  }

  /**
   * Conversion emits one entry per laser of a nested ship, keeping `un-maned` lasers, drops
   * `none` modules, passes a flat entry with a laser through unchanged and drops the rest.
   */
  lemma ConvertedSingle(ship: ChartShip)
    ensures ship.Nested? ==> |Converted([ship])| == |ship.lasers|
    ensures ship.Nested? ==> forall i :: 0 <= i < |ship.lasers| ==>
      && Converted([ship])[i].laser == ship.lasers[i].laserType
      && Converted([ship])[i].modules == WithoutNone(ship.lasers[i].modules)
    ensures ship.Flat? && ship.laser != "" ==> Converted([ship]) == [CalcEntry(ship.laser, ship.modules)]
    ensures ship.Unrecognised? || (ship.Flat? && ship.laser == "") ==> Converted([ship]) == []
  {
    assert [ship][..0] == [];
  }

  /** `un-maned` lasers reach the formula: the chart does not filter them. */
  lemma ConvertedKeepsUnManned(shipType: string, modules: seq<string>)
    ensures Converted([Nested(shipType, [LaserConfig(UnManned, modules)])]) == [CalcEntry(UnManned, WithoutNone(modules))]
  {
    ConvertedSingle(Nested(shipType, [LaserConfig(UnManned, modules)]));
  }

  /** The default resistance steps 0, 0.05, …, 1. */
  function DefaultSteps(): seq<real> {
    seq(21, k requires 0 <= k < 21 => (5 * k) as real / 100.0)
  }

  /** The default-step loop: `for (i = 0; i <= 100; i += 5) push(i / 100)`. */
  method DefaultResistanceSteps() returns (steps: seq<real>)
    ensures steps == DefaultSteps()
  {
    steps := [];
    var i := 0;
    while i <= 100
      invariant 0 <= i <= 105 && i % 5 == 0
      invariant |steps| == i / 5
      invariant forall k :: 0 <= k < |steps| ==> steps[k] == (5 * k) as real / 100.0
    {
      steps := steps + [i as real / 100.0];
      i := i + 5;
    }
  }

  /** The default steps: 21 of them, from 0 to 1, strictly increasing in steps of 0.05. */
  lemma DefaultStepsShape()
    ensures |DefaultSteps()| == 21
    ensures DefaultSteps()[0] == 0.0 && DefaultSteps()[20] == 1.0
    ensures forall k :: 0 <= k < 20 ==> DefaultSteps()[k + 1] == DefaultSteps()[k] + 0.05
    ensures forall k :: 0 <= k < 21 ==> 0.0 <= DefaultSteps()[k] <= 1.0
  {
  }

  /** The steps the chart samples: the given ones, or the default ones when none are given. */
  function StepsOrDefault(resistanceSteps: Option<seq<real>>): seq<real> {
    if resistanceSteps.Some? then resistanceSteps.value else DefaultSteps()
  }

  /**
   * The final `resistanceSteps.map(...)`: the steps are evaluated from the first on, and the
   * first step whose calculation throws ends the map with that error.
   */
  function ChartPoints(steps: seq<real>, calcShips: seq<CalcEntry>, gadgets: seq<string>, calculateMaxMass: MassFunction)
    : Result<seq<ChartPoint>, string>
  {
    if steps == [] then Ok([])
    else
      match calculateMaxMass(steps[0], calcShips, gadgets)
      case Err(e) => Err(e)
      case Ok(m) =>
        match ChartPoints(steps[1..], calcShips, gadgets, calculateMaxMass)
        case Err(e) => Err(e)
        case Ok(rest) => Ok([ChartPoint(steps[0], m)] + rest)
  }

  /** Whether the calculation of every step returns a value. */
  predicate AllComputed(steps: seq<real>, calcShips: seq<CalcEntry>, gadgets: seq<string>, calculateMaxMass: MassFunction) {
    forall i :: 0 <= i < |steps| ==> calculateMaxMass(steps[i], calcShips, gadgets).Ok?
  }

  /**
   * The map succeeds exactly when every step's calculation does, and then holds one point
   * per step, in order, carrying that step's value.
   */
  lemma {:induction false} ChartPointsComputed(steps: seq<real>, calcShips: seq<CalcEntry>, gadgets: seq<string>, calculateMaxMass: MassFunction)
    ensures ChartPoints(steps, calcShips, gadgets, calculateMaxMass).Ok? <==> AllComputed(steps, calcShips, gadgets, calculateMaxMass)
    ensures ChartPoints(steps, calcShips, gadgets, calculateMaxMass).Ok? ==>
      var points := ChartPoints(steps, calcShips, gadgets, calculateMaxMass).value;
      && |points| == |steps|
      && forall i :: 0 <= i < |steps| ==> points[i] == ChartPoint(steps[i], calculateMaxMass(steps[i], calcShips, gadgets).value)
  {
    if steps != [] {
      var tail := steps[1..];
      ChartPointsComputed(tail, calcShips, gadgets, calculateMaxMass);
      assert forall i :: 1 <= i < |steps| ==> steps[i] == tail[i - 1];
    }
  }

  /** When the map fails, it fails with the error of the first step whose calculation throws. */
  lemma {:induction false} ChartPointsFirstError(steps: seq<real>, calcShips: seq<CalcEntry>, gadgets: seq<string>, calculateMaxMass: MassFunction)
    requires ChartPoints(steps, calcShips, gadgets, calculateMaxMass).Err?
    ensures exists k ::
      && 0 <= k < |steps|
      && AllComputed(steps[..k], calcShips, gadgets, calculateMaxMass)
      && calculateMaxMass(steps[k], calcShips, gadgets) == Err(ChartPoints(steps, calcShips, gadgets, calculateMaxMass).error)
  {
    var tail := steps[1..];
    var r := ChartPoints(steps, calcShips, gadgets, calculateMaxMass);
    if calculateMaxMass(steps[0], calcShips, gadgets).Err? {
      assert AllComputed(steps[..0], calcShips, gadgets, calculateMaxMass);
    } else {
      ChartPointsFirstError(tail, calcShips, gadgets, calculateMaxMass);
      var k :| 0 <= k < |tail| && AllComputed(tail[..k], calcShips, gadgets, calculateMaxMass)
        && calculateMaxMass(tail[k], calcShips, gadgets) == Err(r.error);
      assert steps[..k + 1] == [steps[0]] + tail[..k];
      assert AllComputed(steps[..k + 1], calcShips, gadgets, calculateMaxMass);
    }
  }

  /**
   * `generateChartData(ships, gadgets, resistanceSteps)`. `calculateMaxMass` is `None` when
   * the calculations namespace is not loaded, which throws; `resistanceSteps` is `None` for
   * the null default. An error thrown by `calculateMaxMass` for one of the steps escapes.
   */
  method GenerateChartData(
    ships: seq<ChartShip>, gadgets: seq<string>, resistanceSteps: Option<seq<real>>,
    calculateMaxMass: Option<MassFunction>)
    returns (r: Result<seq<ChartPoint>, string>)
    ensures calculateMaxMass.None? ==> r == Err(NotLoaded)
    ensures calculateMaxMass.Some? ==> r == ChartPoints(StepsOrDefault(resistanceSteps), Converted(ships), gadgets, calculateMaxMass.value)
    ensures r.Ok? <==> calculateMaxMass.Some? && AllComputed(StepsOrDefault(resistanceSteps), Converted(ships), gadgets, calculateMaxMass.value)
    ensures r.Ok? ==> |r.value| == |StepsOrDefault(resistanceSteps)|
    ensures r.Ok? ==> forall i :: 0 <= i < |r.value| ==>
      && r.value[i].resistance == StepsOrDefault(resistanceSteps)[i]
      && calculateMaxMass.value(r.value[i].resistance, Converted(ships), gadgets) == Ok(r.value[i].maxMass)
  {
    if calculateMaxMass.None? {
      return Err(NotLoaded);
    }
    var calcShips := ConvertShipsFormat(ships);
    var steps: seq<real>;
    if resistanceSteps.None? {
      steps := DefaultResistanceSteps();
    } else {
      steps := resistanceSteps.value;
    }
    r := ChartPoints(steps, calcShips, gadgets, calculateMaxMass.value);
    ChartPointsComputed(steps, calcShips, gadgets, calculateMaxMass.value);
  }
}
