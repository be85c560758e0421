/**
 * The state-editing part of the ship handlers (public/js/ui/ship-ui.js). Each handler edits
 * the shared `ships` array of `st` in place and then resyncs the legacy view; the values the
 * source reads from `<select>` elements are parameters, and re-rendering, the table refresh
 * and the URL update are presentation.
 */
module ShipUi {
  import opened Wrappers
  import opened Fleet
  import opened FleetData
  import opened ShipUtils
  import opened StateManager

  /** `onModuleChange`'s thrown error: the slot is past the end of the laser's module list. */
  datatype ModuleError = SlotOutOfRange(shipIndex: nat, laserIndex: nat, slotIndex: nat, laserType: string)

  /** The fleet with laser `j` of ship `i` replaced, and nothing else touched. */
  function WithLaser(ships: seq<Ship>, i: nat, j: nat, laser: LaserConfig): (r: seq<Ship>)
    requires i < |ships| && j < |ships[i].lasers|
    ensures |r| == |ships| && forall k :: 0 <= k < |ships| && k != i ==> r[k] == ships[k]
    ensures r[i].shipType == ships[i].shipType && |r[i].lasers| == |ships[i].lasers|
    ensures r[i].lasers[j] == laser
    ensures forall k :: 0 <= k < |ships[i].lasers| && k != j ==> r[i].lasers[k] == ships[i].lasers[k]
  {
    ships[i := ships[i].(lasers := ships[i].lasers[j := laser])]
  }

  /** The fleet with slot `s` of laser `j` of ship `i` set to `m`, and nothing else touched. */
  function WithModule(ships: seq<Ship>, i: nat, j: nat, s: nat, m: string): (r: seq<Ship>)
    requires i < |ships| && j < |ships[i].lasers| && s < |ships[i].lasers[j].modules|
    ensures |r| == |ships| && forall k :: 0 <= k < |ships| && k != i ==> r[k] == ships[k]
    ensures r[i].shipType == ships[i].shipType && |r[i].lasers| == |ships[i].lasers|
    ensures forall k :: 0 <= k < |ships[i].lasers| && k != j ==> r[i].lasers[k] == ships[i].lasers[k]
    ensures r[i].lasers[j].laserType == ships[i].lasers[j].laserType
    ensures |r[i].lasers[j].modules| == |ships[i].lasers[j].modules| && r[i].lasers[j].modules[s] == m
    ensures forall t :: 0 <= t < |ships[i].lasers[j].modules| && t != s ==>
      r[i].lasers[j].modules[t] == ships[i].lasers[j].modules[t]
  {
    var laser := ships[i].lasers[j];
    WithLaser(ships, i, j, laser.(modules := laser.modules[s := m]))
  }

  /** The laser a laser select change installs: an empty `un-maned` position, or the new head with empty slots. */
  function ResetLaser(tables: FleetTables, newLaserType: string): (laser: LaserConfig)
    requires newLaserType == UnManned || newLaserType in tables.laserData
    ensures laser.laserType == newLaserType
    ensures newLaserType == UnManned ==> laser.modules == []
    ensures newLaserType != UnManned ==> |laser.modules| == tables.laserData[newLaserType].moduleSlots
    ensures forall t :: 0 <= t < |laser.modules| ==> laser.modules[t] == "none"
  {
    if newLaserType == UnManned then LaserConfig(UnManned, [])
    else LaserConfig(newLaserType, NoneModules(tables.laserData[newLaserType].moduleSlots))
  }

  /** `addShip`: a new Prospector at the end. */
  method AddShip(st: UiState, tables: FleetTables)
    requires CanCreate(tables, "prospector")
    modifies st
    ensures st.ships == old(st.ships) + [NewShip(tables, "prospector")]
    ensures st.gadgets == old(st.gadgets) && st.Synced()
  {
    var ship := CreateShip(tables, "prospector");
    st.ships := st.ships + [ship];
    st.SyncLegacyState();
  }

  /** `removeShip(index)`: the last ship is never removed. */
  method RemoveShip(st: UiState, index: nat)
    modifies st
    ensures |old(st.ships)| > 1 ==> st.ships == Spliced(old(st.ships), index) && st.gadgets == old(st.gadgets) && st.Synced()
    ensures |old(st.ships)| <= 1 ==> unchanged(st)
    ensures |old(st.ships)| >= 1 ==> |st.ships| >= 1
  {
    if |st.ships| > 1 {
      st.ships := Spliced(st.ships, index);
      st.SyncLegacyState();
    }
  }

  /** `onShipTypeChange(shipIndex)`: the ship is rebuilt as a new ship of the selected type. */
  method OnShipTypeChange(st: UiState, tables: FleetTables, shipIndex: nat, newType: string)
    requires shipIndex < |st.ships| && CanCreate(tables, newType)
    modifies st
    ensures st.ships == old(st.ships)[shipIndex := NewShip(tables, newType)]
    ensures st.gadgets == old(st.gadgets) && st.Synced()
  {
    var ship := CreateShip(tables, newType);
    st.ships := st.ships[shipIndex := ship];
    st.SyncLegacyState();
  }

  /** `onLaserChange(shipIndex, laserIndex)`: the position gets the selected laser with its modules reset. */
  method OnLaserChange(st: UiState, tables: FleetTables, shipIndex: nat, laserIndex: nat, newLaserType: string)
    requires shipIndex < |st.ships| && laserIndex < |st.ships[shipIndex].lasers|
    requires newLaserType == UnManned || newLaserType in tables.laserData
    modifies st
    ensures st.ships == WithLaser(old(st.ships), shipIndex, laserIndex, ResetLaser(tables, newLaserType))
    ensures st.gadgets == old(st.gadgets) && st.Synced()
  {
    var laser: LaserConfig;
    if newLaserType == UnManned {
      laser := LaserConfig(UnManned, []);
    } else {
      var moduleSlots := tables.laserData[newLaserType].moduleSlots;
      laser := LaserConfig(newLaserType, NoneModules(moduleSlots));
    }
    st.ships := WithLaser(st.ships, shipIndex, laserIndex, laser);
    st.SyncLegacyState();
  }

  /**
   * `onModuleChange(shipIndex, laserIndex, slotIndex)`: a slot past the laser's list throws and
   * changes nothing; otherwise the one slot changes, and with it neither the fleet's laser types
   * nor the number of entries the capacity table computes with.
   */
  method OnModuleChange(st: UiState, shipIndex: nat, laserIndex: nat, slotIndex: nat, newModuleValue: string)
    returns (r: Result<(), ModuleError>)
    requires shipIndex < |st.ships| && laserIndex < |st.ships[shipIndex].lasers|
    modifies st
    ensures r.Err? <==> slotIndex >= |old(st.ships)[shipIndex].lasers[laserIndex].modules|
    ensures r.Err? ==> unchanged(st)
    ensures r.Err? ==>
      r.error == SlotOutOfRange(shipIndex, laserIndex, slotIndex, old(st.ships)[shipIndex].lasers[laserIndex].laserType)
    ensures r.Ok? ==> st.ships == WithModule(old(st.ships), shipIndex, laserIndex, slotIndex, newModuleValue)
    ensures r.Ok? ==> st.gadgets == old(st.gadgets) && st.Synced()
    ensures r.Ok? ==> LaserTypes(st.ships) == LaserTypes(old(st.ships))
    ensures r.Ok? ==> |ShipConfig(st.ships)| == |ShipConfig(old(st.ships))|
  {
    if slotIndex >= |st.ships[shipIndex].lasers[laserIndex].modules| {
      var laserType := st.ships[shipIndex].lasers[laserIndex].laserType;
      return Err(SlotOutOfRange(shipIndex, laserIndex, slotIndex, laserType));
    }
    WithModuleKeepsLaserTypes(st.ships, shipIndex, laserIndex, slotIndex, newModuleValue);
    ShipConfigCount(st.ships);
    ShipConfigCount(WithModule(st.ships, shipIndex, laserIndex, slotIndex, newModuleValue));
    st.ships := WithModule(st.ships, shipIndex, laserIndex, slotIndex, newModuleValue);
    st.SyncLegacyState();
    return Ok(());
  }

  /** The start of `updateShipsUI`: with its container present, an empty fleet gets one Prospector. */
  method InitShipsIfEmpty(st: UiState, tables: FleetTables, containerPresent: bool)
    requires CanCreate(tables, "prospector")
    modifies st
    ensures containerPresent && old(st.ships) == [] ==>
      st.ships == [NewShip(tables, "prospector")] && st.gadgets == old(st.gadgets) && st.Synced()
    ensures !containerPresent || old(st.ships) != [] ==> unchanged(st)
    ensures containerPresent ==> |st.ships| >= 1
  {
    if !containerPresent {
      return;
    }
    if |st.ships| == 0 {
      var ship := CreateShip(tables, "prospector");
      st.ships := st.ships + [ship];
      st.SyncLegacyState();
    }
  }

  /** Editing one module of a fleet never changes which lasers it has, so its operated-laser count stays. */
  lemma WithModuleKeepsLaserTypes(ships: seq<Ship>, i: nat, j: nat, s: nat, m: string)
    requires i < |ships| && j < |ships[i].lasers| && s < |ships[i].lasers[j].modules|
    ensures LaserTypes(WithModule(ships, i, j, s, m)) == LaserTypes(ships)
  {
    LaserTypesPointwise(ships, WithModule(ships, i, j, s, m));
  }

  /** Fleets with the same ships' laser keys position by position have the same laser-key list. */
  lemma {:induction false} LaserTypesPointwise(a: seq<Ship>, b: seq<Ship>)
    requires |a| == |b|
    requires forall k :: 0 <= k < |a| ==> |a[k].lasers| == |b[k].lasers|
    requires forall k, t :: 0 <= k < |a| && 0 <= t < |a[k].lasers| ==> a[k].lasers[t].laserType == b[k].lasers[t].laserType
    ensures LaserTypes(a) == LaserTypes(b)
  {
    if a != [] {
      var n := |a| - 1;
      LaserTypesPointwise(a[..n], b[..n]);
      var la, lb := a[n].lasers, b[n].lasers;
      assert seq(|la|, j requires 0 <= j < |la| => la[j].laserType)
          == seq(|lb|, j requires 0 <= j < |lb| => lb[j].laserType);
    }
  }
}
