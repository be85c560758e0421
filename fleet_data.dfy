/**
 * The ship and laser tables of the newer data layer (public/js/data/ships.js and
 * public/js/data/lasers.js), read by ship creation and laser compatibility.
 * Only the fields those routines read are kept; names, manufacturers and descriptions are
 * presentation.
 */
module FleetData {
  import opened Wrappers

  /**
   * A laser head. `compatibleShips` is `None` where the table has no such field; a laser
   * with a non-empty list is restricted to the ship types it names.
   */
  datatype LaserSpec = LaserSpec(
    fracturingPower: real,
    extractionPower: real,
    instability: real,
    resistance: real,
    moduleSlots: nat,
    size: nat,
    compatibleShips: Option<seq<string>>)

  /** A ship type. `fixedLaser` is the empty string where the table has no fixed laser. */
  datatype ShipSpec = ShipSpec(laserCount: nat, laserSize: nat, fixedLaser: string)

  /** The `shipData` and `laserData` tables of the data namespace. */
  datatype FleetTables = FleetTables(shipData: map<string, ShipSpec>, laserData: map<string, LaserSpec>)

  function Ships(): map<string, ShipSpec> {
    map[
      "golem" := ShipSpec(1, 1, "pitman"),
      "prospector" := ShipSpec(1, 1, ""),
      "mole" := ShipSpec(3, 2, "")
    ]
  }

  function Lasers(): map<string, LaserSpec> {
    map[
      "arbor" := LaserSpec(1890.0, 1850.0, 1.0, 1.0, 1, 1, None),
      "hofstede" := LaserSpec(2100.0, 1295.0, 0.5, 0.7, 1, 1, None),
      "helix" := LaserSpec(3150.0, 1850.0, 0.6, 0.7, 2, 1, None),
      "lancet" := LaserSpec(2520.0, 1850.0, 0.7, 1.0, 1, 1, None),
      "klein-s1" := LaserSpec(2220.0, 2220.0, 1.20, 0.55, 0, 1, None),
      "impact-i" := LaserSpec(2100.0, 2775.0, 1.20, 1.10, 2, 1, None),
      "pitman" := LaserSpec(3150.0, 1850.0, 1.0, 1.0, 2, 1, Some(["golem"])),
      "arbor-mh2" := LaserSpec(2400.0, 2590.0, 0.65, 1.25, 2, 2, None),
      "lancet-mh2" := LaserSpec(3600.0, 2590.0, 0.90, 1.0, 2, 2, None),
      "hofstede-s2" := LaserSpec(3360.0, 1295.0, 1.10, 0.70, 2, 2, None),
      "klein-s2" := LaserSpec(3600.0, 2775.0, 1.35, 0.55, 1, 2, None),
      "helix-ii" := LaserSpec(4080.0, 2590.0, 1.0, 0.70, 3, 2, None),
      "impact-ii" := LaserSpec(3360.0, 3145.0, 0.90, 1.10, 3, 2, None)
    ]
  }

  /** The shipped tables. */
  function Tables(): FleetTables {
    FleetTables(Ships(), Lasers())
  }
}
