/**
 * Ship construction and laser compatibility (public/js/ui/ship-utils.js), over the ship
 * and laser tables passed as `tables` (the shipped ones are `FleetData.Tables()`).
 */
module ShipUtils {
  import opened Wrappers
  import opened Fleet
  import opened FleetData

  /** The truthiness test on `fixedLaser`: absent and empty both mean a configurable ship. */
  predicate HasFixedLaser(spec: ShipSpec) {
    spec.fixedLaser != ""
  }

  /** The laser a configurable ship starts with. */
  function DefaultLaser(shipType: string): string {
    if shipType == "prospector" then "arbor" else "arbor-mh2"
  }

  /** The laser every position of a new ship of this type carries. */
  function StartingLaser(tables: FleetTables, shipType: string): string
    requires shipType in tables.shipData
  {
    var spec := tables.shipData[shipType];
    if HasFixedLaser(spec) then spec.fixedLaser else DefaultLaser(shipType)
  }

  /** The lookups `createShip` performs succeed: the ship type and its starting laser are in the tables. */
  predicate CanCreate(tables: FleetTables, shipType: string) {
    shipType in tables.shipData && StartingLaser(tables, shipType) in tables.laserData
  }

  /**
   * The ship `createShip(shipType)` builds: one laser for a ship with a fixed laser,
   * `laserCount` copies of the default laser otherwise, each with every module slot empty.
   */
  function NewShip(tables: FleetTables, shipType: string): (ship: Ship)
    requires CanCreate(tables, shipType)
    ensures ship.shipType == shipType
    ensures HasFixedLaser(tables.shipData[shipType]) ==> |ship.lasers| == 1
    ensures !HasFixedLaser(tables.shipData[shipType]) ==> |ship.lasers| == tables.shipData[shipType].laserCount
    ensures forall i :: 0 <= i < |ship.lasers| ==>
      && ship.lasers[i].laserType == StartingLaser(tables, shipType)
      && |ship.lasers[i].modules| == tables.laserData[StartingLaser(tables, shipType)].moduleSlots
      && forall j :: 0 <= j < |ship.lasers[i].modules| ==> ship.lasers[i].modules[j] == "none"
  {
    var spec := tables.shipData[shipType];
    var key := StartingLaser(tables, shipType);
    var laser := LaserConfig(key, NoneModules(tables.laserData[key].moduleSlots));
    if HasFixedLaser(spec) then Ship(shipType, [laser])
    else Ship(shipType, seq(spec.laserCount, _ => laser))
  }

  /** `createShip`: the fixed-laser branch returns at once, the other pushes lasers in a counted loop. */
  method CreateShip(tables: FleetTables, shipType: string) returns (ship: Ship)
    requires CanCreate(tables, shipType)
    ensures ship == NewShip(tables, shipType)
  {
    var spec := tables.shipData[shipType];
    if HasFixedLaser(spec) {
      var fixedLaserKey := spec.fixedLaser;
      var laser := tables.laserData[fixedLaserKey];
      return Ship(shipType, [LaserConfig(fixedLaserKey, NoneModules(laser.moduleSlots))]);
    }
    var defaultLaser := DefaultLaser(shipType);
    var laser := tables.laserData[defaultLaser];
    var lasers: seq<LaserConfig> := [];
    var i := 0;
    while i < spec.laserCount
      invariant 0 <= i <= spec.laserCount
      invariant lasers == seq(i, _ => LaserConfig(defaultLaser, NoneModules(laser.moduleSlots)))
    {
      lasers := lasers + [LaserConfig(defaultLaser, NoneModules(laser.moduleSlots))];
      i := i + 1;
    }
    ship := Ship(shipType, lasers);
  }

  /** The two tests of the compatibility loop: the size matches, and a restriction list, if non-empty, names the ship. */
  predicate Compatible(laser: LaserSpec, ship: ShipSpec, shipType: string) {
    && laser.size == ship.laserSize
    && (laser.compatibleShips.None? || |laser.compatibleShips.value| == 0 || shipType in laser.compatibleShips.value)
  }

  /** The lasers a ship type can mount, keyed as in the laser table. */
  function CompatibleLasers(tables: FleetTables, shipType: string): map<string, LaserSpec>
    requires shipType in tables.shipData
  {
    map k | k in tables.laserData && Compatible(tables.laserData[k], tables.shipData[shipType], shipType) :: tables.laserData[k]
  }

  /** `getCompatibleLasers`: a `for…in` over the laser table that keeps the compatible entries. */
  method GetCompatibleLasers(tables: FleetTables, shipType: string) returns (compatible: map<string, LaserSpec>)
    requires shipType in tables.shipData
    ensures compatible == CompatibleLasers(tables, shipType)
    ensures forall k :: k in compatible <==>
      && k in tables.laserData
      && tables.laserData[k].size == tables.shipData[shipType].laserSize
      && (|| tables.laserData[k].compatibleShips.None?
          || |tables.laserData[k].compatibleShips.value| == 0
          || shipType in tables.laserData[k].compatibleShips.value)
    ensures forall k :: k in compatible ==> compatible[k] == tables.laserData[k]
  {
    var ship := tables.shipData[shipType];
    compatible := map[];
    var remaining := tables.laserData.Keys;
    while remaining != {}
      invariant remaining <= tables.laserData.Keys
      invariant forall k :: k in compatible <==>
        k in tables.laserData && k !in remaining && Compatible(tables.laserData[k], ship, shipType)
      invariant forall k :: k in compatible ==> compatible[k] == tables.laserData[k]
      decreases remaining
    {
      var laserKey :| laserKey in remaining;
      var laser := tables.laserData[laserKey];
      remaining := remaining - {laserKey};
      if laser.size != ship.laserSize {
        continue;
      }
      if laser.compatibleShips.Some? && |laser.compatibleShips.value| > 0 {
        if shipType !in laser.compatibleShips.value {
          continue;
        }
      }
      compatible := compatible[laserKey := laser];
    }
  }

  /** With the shipped tables: each ship type starts with the lasers and empty slots the tables give it. */
  lemma ShippedNewShips()
    ensures CanCreate(Tables(), "golem") && NewShip(Tables(), "golem") == Ship("golem", [LaserConfig("pitman", ["none", "none"])])
    ensures CanCreate(Tables(), "prospector") && NewShip(Tables(), "prospector") == Ship("prospector", [LaserConfig("arbor", ["none"])])
    ensures CanCreate(Tables(), "mole")
    ensures NewShip(Tables(), "mole").lasers == seq(3, _ => LaserConfig("arbor-mh2", ["none", "none"]))
  {
    assert Tables().shipData["golem"] == ShipSpec(1, 1, "pitman");
    assert Tables().shipData["prospector"] == ShipSpec(1, 1, "");
    assert Tables().shipData["mole"] == ShipSpec(3, 2, "");
    assert Tables().laserData["pitman"].moduleSlots == 2;
    assert Tables().laserData["arbor"].moduleSlots == 1;
    assert Tables().laserData["arbor-mh2"].moduleSlots == 2;
    assert NoneModules(2) == ["none", "none"];
    assert NoneModules(1) == ["none"];
  }

  /** With the shipped tables the Pitman mounts on the Golem only, and the MOLE takes only size-2 heads. */
  lemma ShippedCompatibility()
    ensures "pitman" in CompatibleLasers(Tables(), "golem")
    ensures "pitman" !in CompatibleLasers(Tables(), "prospector")
    ensures "arbor" in CompatibleLasers(Tables(), "prospector")
    ensures "arbor" !in CompatibleLasers(Tables(), "mole") && "arbor-mh2" in CompatibleLasers(Tables(), "mole")
  {
    assert Tables().laserData["pitman"].compatibleShips == Some(["golem"]);
    assert "prospector" != "golem";
  }
}
