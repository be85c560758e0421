/**
 * The module bookkeeping of the second generation of the UI (public/js/ui.js; public/script.js
 * carries the same code over its own copy of the tables): a ship counter and a dictionary
 * `shipModules` from ship index to that ship's module keys, re-indexed when a ship is removed.
 * The laser selections the source reads back from the page are parameters.
 */
module LegacyUi {
  import opened Wrappers
  import opened Fleet
  import CalcData

  /** Where key `k` of `shipModules` goes when ship `index` is removed (key `index` itself is dropped). */
  function Shift(k: nat, index: nat): nat {
    if k > index then k - 1 else k
  }

  /** The keys a set of keys becomes. */
  function ShiftImage(keys: set<nat>, index: nat): set<nat> {
    set k | k in keys :: Shift(k, index)
  }

  /** A key of the shifted image came from the key it names or from the one after it. */
  lemma ShiftImageSource(keys: set<nat>, index: nat, k: nat)
    requires index !in keys && k in ShiftImage(keys, index)
    ensures k < index ==> k in keys
    ensures k >= index ==> k + 1 in keys
  {
    var j :| j in keys && Shift(j, index) == k;
  }

  /**
   * `shipModules` after removing ship `index`: keys below it stay, keys above it move down
   * by one, and its own entry is gone.
   */
  function Reindexed(modules: map<nat, seq<string>>, index: nat): (r: map<nat, seq<string>>)
    ensures forall k: nat :: k < index ==> (k in r <==> k in modules)
    ensures forall k: nat :: k >= index ==> (k in r <==> k + 1 in modules)
    ensures forall k: nat :: k in r && k < index ==> r[k] == modules[k]
    ensures forall k: nat :: k in r && k >= index ==> r[k] == modules[k + 1]
  {
    var keys := modules.Keys - {index};
    forall k | k in ShiftImage(keys, index)
      ensures k < index ==> k in modules
      ensures k >= index ==> k + 1 in modules
    {
      ShiftImageSource(keys, index, k);
    }
    forall k: nat | k >= index && k + 1 in modules
      ensures k in ShiftImage(keys, index)
    {
      assert Shift(k + 1, index) == k;
    }
    forall k: nat | k < index && k in modules
      ensures k in ShiftImage(keys, index)
    {
      assert Shift(k, index) == k;
    }
    map k | k in ShiftImage(keys, index) :: if k < index then modules[k] else modules[k + 1]
  }

  /** Adding one key adds its shifted key. */
  lemma ShiftImageAdd(keys: set<nat>, x: nat, index: nat)
    ensures ShiftImage(keys + {x}, index) == ShiftImage(keys, index) + {Shift(x, index)}
  {
  }

  /** Shifting is one-to-one on keys other than `index`, so no two keys collide. */
  lemma {:induction false} ShiftImageSize(keys: set<nat>, index: nat)
    requires index !in keys
    ensures |ShiftImage(keys, index)| == |keys|
    decreases |keys|
  {
    if keys != {} {
      var x :| x in keys;
      var rest := keys - {x};
      ShiftImageSize(rest, index);
      assert keys == rest + {x};
      ShiftImageAdd(rest, x, index);
      ShiftImageFresh(rest, x, index);
    }
  }

  /** A key outside `rest` shifts to a key outside the image of `rest`: shifting does not collide. */
  lemma ShiftImageFresh(rest: set<nat>, x: nat, index: nat)
    requires index !in rest && x != index && x !in rest
    ensures Shift(x, index) !in ShiftImage(rest, index)
  {
    if Shift(x, index) in ShiftImage(rest, index) {
      var y :| y in rest && Shift(y, index) == Shift(x, index);
      assert false;
    }
  }

  /** Removing a ship drops exactly one entry when it had one, and none otherwise. */
  lemma ReindexedSize(modules: map<nat, seq<string>>, index: nat)
    ensures index in modules ==> |Reindexed(modules, index).Keys| == |modules.Keys| - 1
    ensures index !in modules ==> |Reindexed(modules, index).Keys| == |modules.Keys|
  {
    var keys := modules.Keys - {index};
    assert Reindexed(modules, index).Keys == ShiftImage(keys, index) by {
      forall k: nat | k in ShiftImage(keys, index) ensures k in Reindexed(modules, index) {
        ShiftImageSource(keys, index, k);
      }
      forall k: nat | k in Reindexed(modules, index) ensures k in ShiftImage(keys, index) {
        if k < index {
          assert Shift(k, index) == k;
        } else {
          assert Shift(k + 1, index) == k;
        }
      }
    }
    ShiftImageSize(keys, index);
  }

  /** The fleet is shown with ship slots `0 .. shipCount - 1`, and modules are only kept for those. */
  ghost predicate KeysBelow(modules: map<nat, seq<string>>, n: int) {
    forall k :: k in modules ==> k < n
  }

  /** Removing ship `index` of `n` keeps the remaining keys below `n - 1`. */
  lemma ReindexedKeysBelow(modules: map<nat, seq<string>>, index: nat, n: int)
    requires KeysBelow(modules, n) && index < n
    ensures KeysBelow(Reindexed(modules, index), n - 1)
  {
  }

  /** `updateShipsUI`'s default for a ship without modules. */
  function DefaultModules(): seq<string> {
    ["none", "none", "none"]
  }

  /** The module-level state of public/js/ui.js. */
  class LegacyShips {
    var shipCount: int
    var shipModules: map<nat, seq<string>>

    /** At least one ship, and module entries only for shown ships. */
    ghost predicate Valid()
      reads this
    {
      shipCount >= 1 && KeysBelow(shipModules, shipCount)
    }

    constructor()
      ensures shipCount == 1 && shipModules == map[] && Valid()
    {
      shipCount := 1;
      shipModules := map[];
    }

    /** `addShip()`: one more ship; its modules are filled in by the next `updateShipsUI`. */
    method AddShip()
      modifies this
      ensures shipCount == old(shipCount) + 1 && shipModules == old(shipModules)
      ensures old(Valid()) ==> Valid()
    {
      shipCount := shipCount + 1;
    }

    /**
     * `removeShip(index)`. `currentConfig` holds the laser selections read from the page;
     * the result is the list handed to `updateShipsUI`, `None` when nothing happens.
     */
    method RemoveShip(index: nat, currentConfig: seq<string>) returns (preserved: Option<seq<string>>)
      modifies this
      ensures old(shipCount) > 1 ==>
        && preserved == Some(Spliced(currentConfig, index))
        && shipModules == Reindexed(old(shipModules), index)
        && shipCount == old(shipCount) - 1
      ensures old(shipCount) <= 1 ==> preserved == None && unchanged(this)
      ensures old(Valid()) && index < old(shipCount) ==> Valid()
    {
      if shipCount <= 1 {
        return None;
      }
      preserved := Some(Spliced(currentConfig, index));
      var newModules := ReindexModules(shipModules, index);
      if Valid() && index < shipCount {
        ReindexedKeysBelow(shipModules, index, shipCount);
      }
      shipModules := newModules;
      shipCount := shipCount - 1;
    }

    /** `onLaserChange(shipIndex)`: the ship's modules reset to one empty slot per slot of the selected laser. */
    method OnLaserChange(data: CalcData.Tables, shipIndex: nat, laser: string)
      requires laser in data.laserData
      modifies this
      ensures shipModules == old(shipModules)[shipIndex := NoneModules(data.laserData[laser].moduleSlots)]
      ensures shipCount == old(shipCount)
      ensures old(Valid()) && shipIndex < shipCount ==> Valid()
    {
      var moduleSlots := data.laserData[laser].moduleSlots;
      shipModules := shipModules[shipIndex := NoneModules(moduleSlots)];
    }

    /**
     * The start of `updateShipsUI(preservedConfig)`: without a preserved configuration,
     * every shown ship without modules gets three empty slots.
     */
    method FillDefaultModules(preservedConfig: Option<seq<string>>)
      modifies this
      ensures shipCount == old(shipCount)
      ensures preservedConfig.Some? ==> shipModules == old(shipModules)
      ensures preservedConfig.None? ==> forall k :: 0 <= k < shipCount ==> k in shipModules
      ensures preservedConfig.None? ==> forall k :: k in old(shipModules) ==> k in shipModules && shipModules[k] == old(shipModules)[k]
      ensures preservedConfig.None? ==> forall k: nat :: k in shipModules && k !in old(shipModules) ==>
        k < shipCount && shipModules[k] == DefaultModules()
      ensures old(Valid()) ==> Valid()
    {
      if preservedConfig.Some? {
        return;
      }
      var i := 0;
      while i < shipCount
        invariant shipCount == old(shipCount)
        invariant 0 <= i <= if shipCount < 0 then 0 else shipCount
        invariant forall k :: 0 <= k < i ==> k in shipModules
        invariant forall k :: k in old(shipModules) ==> k in shipModules && shipModules[k] == old(shipModules)[k]
        invariant forall k: nat :: k in shipModules && k !in old(shipModules) ==> k < i && shipModules[k] == DefaultModules()
      {
        if i !in shipModules {
          shipModules := shipModules[i := DefaultModules()];
        }
        i := i + 1;
      }
    }
  }

  /**
   * The re-indexing loop of `removeShip(index)`: drop key `index`, then copy every other
   * key into a new dictionary, one down if it was above `index`.
   */
  method ReindexModules(shipModules: map<nat, seq<string>>, index: nat) returns (newModules: map<nat, seq<string>>)
    ensures newModules == Reindexed(shipModules, index)
  {
    var remaining := shipModules - {index};
    newModules := map[];
    var keys := remaining.Keys;
    while keys != {}
      invariant keys <= remaining.Keys
      invariant newModules.Keys == ShiftImage(remaining.Keys - keys, index)
      invariant forall j :: j in remaining.Keys - keys ==> newModules[Shift(j, index)] == remaining[j]
      decreases keys
    {
      var key :| key in keys;
      assert remaining.Keys - (keys - {key}) == (remaining.Keys - keys) + {key};
      ShiftImageAdd(remaining.Keys - keys, key, index);
      if key > index {
        newModules := newModules[key - 1 := remaining[key]];
      } else if key < index {
        newModules := newModules[key := remaining[key]];
      }
      keys := keys - {key};
    }
    ReindexedAgrees(shipModules, index, newModules);
  }

  /** The loop's result is the re-indexed dictionary. */
  lemma ReindexedAgrees(modules: map<nat, seq<string>>, index: nat, built: map<nat, seq<string>>)
    requires built.Keys == ShiftImage((modules - {index}).Keys, index)
    requires forall j :: j in (modules - {index}).Keys ==> built[Shift(j, index)] == (modules - {index})[j]
    ensures built == Reindexed(modules, index)
  {
    var remaining := modules - {index};
    forall k | k in built
      ensures k in Reindexed(modules, index) && built[k] == Reindexed(modules, index)[k]
    {
      ShiftImageSource(remaining.Keys, index, k);
      if k < index {
        assert Shift(k, index) == k;
      } else {
        assert Shift(k + 1, index) == k;
      }
    }
    forall k | k in Reindexed(modules, index)
      ensures k in built
    {
      if k < index {
        assert Shift(k, index) == k && k in remaining.Keys;
      } else {
        assert Shift(k + 1, index) == k && k + 1 in remaining.Keys;
      }
    }
  }
}
