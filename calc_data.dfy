/**
 * The laser and module tables of public/js/data.js, the ones the capacity formula
 * reads. Only the numeric fields the formula and the legacy editors use are kept;
 * names and descriptions are display text.
 */
module CalcData {
  /** A mining laser: fracturing power, the two multiplicative modifiers and its module slots. */
  datatype LaserSpec = LaserSpec(power: real, instability: real, resistance: real, moduleSlots: nat)

  /** A module: its power multiplier (`none` is the neutral 1.0). */
  datatype ModuleSpec = ModuleSpec(power: real)

  function Lasers(): map<string, LaserSpec> {
    map[
    "arbor" := LaserSpec(1850.0, 1.0, 1.0, 3),
    "hofstede" := LaserSpec(1295.0, 0.5, 0.7, 3),
    "helix" := LaserSpec(1850.0, 0.6, 0.7, 3),
    "lancet" := LaserSpec(1850.0, 0.7, 1.0, 3)
    ]
  }

  function Modules(): map<string, ModuleSpec> {
    map[
    "none" := ModuleSpec(1.0),
    "fltr" := ModuleSpec(0.85),
    "fltr-l" := ModuleSpec(0.90),
    "fltr-xl" := ModuleSpec(0.95),
    "xtr" := ModuleSpec(0.85),
    "xtr-l" := ModuleSpec(0.90),
    "xtr-xl" := ModuleSpec(0.95),
    "focus" := ModuleSpec(0.85),
    "focus-ii" := ModuleSpec(0.90),
    "focus-iii" := ModuleSpec(0.95),
    "rieger" := ModuleSpec(1.15),
    "rieger-c2" := ModuleSpec(1.20),
    "rieger-c3" := ModuleSpec(1.25),
    "vaux" := ModuleSpec(1.15),
    "vaux-c2" := ModuleSpec(1.20),
    "vaux-c3" := ModuleSpec(1.25)
    ]
  }

  /**
   * The `window.FracturationParty.data` namespace the formula reads its tables from at
   * call time.
   */
  datatype Tables = Tables(laserData: map<string, LaserSpec>, moduleData: map<string, ModuleSpec>)

  /** The tables as shipped. */
  function Data(): Tables {
    Tables(Lasers(), Modules())
  }

  /** Every laser has positive power and positive modifiers, every module a positive multiplier. */
  ghost predicate PositiveTables(data: Tables) {
    && (forall k :: k in data.laserData ==>
          data.laserData[k].power > 0.0 && data.laserData[k].instability > 0.0 && data.laserData[k].resistance > 0.0)
    && (forall k :: k in data.moduleData ==> data.moduleData[k].power > 0.0)
  }

  /** The shipped tables are positive, and `none` is the neutral multiplier. */
  lemma ShippedTablesPositive()
    ensures PositiveTables(Data())
    ensures "none" in Data().moduleData && Data().moduleData["none"].power == 1.0
  {
  }
}
