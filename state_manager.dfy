/**
 * The UI's shared state (public/js/ui/state-manager.js): the `ships` and `gadgets` arrays
 * the handlers edit, and the legacy `shipCount` / `shipModules` view kept in step with them.
 */
module StateManager {
  import opened Wrappers
  import opened Fleet
  import opened Calculations
  import Chart

  /** The legacy `shipModules` view: for each ship with a laser, its first laser's modules, keyed by index. */
  function LegacyModules(ships: seq<Ship>): map<nat, seq<string>> {
    map k: nat | k < |ships| && |ships[k].lasers| > 0 :: ships[k].lasers[0].modules
  }

  /** The operated lasers of one ship as formula entries: `un-maned` positions are skipped. */
  function Operated(lasers: seq<LaserConfig>): seq<CalcEntry> {
    if lasers == [] then []
    else
      var front := Operated(lasers[..|lasers| - 1]);
      var last := lasers[|lasers| - 1];
      if last.laserType == UnManned then front else front + [CalcEntry(last.laserType, last.modules)]
  }

  /** `getShipConfig()`: the operated lasers of every ship, ship by ship. */
  function ShipConfig(ships: seq<Ship>): seq<CalcEntry> {
    if ships == [] then [] else ShipConfig(ships[..|ships| - 1]) + Operated(ships[|ships| - 1].lasers)
  }

  /** The laser keys of every position of every ship, ship by ship. */
  function LaserTypes(ships: seq<Ship>): seq<string> {
    if ships == [] then []
    else
      var lasers := ships[|ships| - 1].lasers;
      LaserTypes(ships[..|ships| - 1]) + seq(|lasers|, j requires 0 <= j < |lasers| => lasers[j].laserType)
  }

  class UiState {
    var ships: seq<Ship>
    var gadgets: seq<string>
    var shipCount: int
    var shipModules: map<nat, seq<string>>

    /** The module's initial state. */
    constructor()
      ensures ships == [] && gadgets == [] && shipCount == 0 && shipModules == map[]
    {
      ships := [];
      gadgets := [];
      shipCount := 0;
      shipModules := map[];
    }

    /** The legacy view agrees with `ships`. */
    ghost predicate Synced()
      reads this
    {
      shipCount == |ships| && shipModules == LegacyModules(ships)
    }

    /** `syncLegacyState`: recount the ships and rebuild `shipModules` from the first lasers. */
    method SyncLegacyState()
      modifies this
      ensures ships == old(ships) && gadgets == old(gadgets)
      ensures Synced()
      ensures forall k: nat :: k in shipModules <==> k < |ships| && |ships[k].lasers| > 0
      ensures forall k: nat :: k in shipModules ==> shipModules[k] == ships[k].lasers[0].modules
    {
      shipCount := |ships|;
      var modules: map<nat, seq<string>> := map[];
      var shipIdx := 0;
      while shipIdx < |ships|
        invariant 0 <= shipIdx <= |ships|
        invariant forall k: nat :: k in modules <==> k < shipIdx && |ships[k].lasers| > 0
        invariant forall k: nat :: k in modules ==> modules[k] == ships[k].lasers[0].modules
      {
        if |ships[shipIdx].lasers| > 0 {
          modules := modules[shipIdx := ships[shipIdx].lasers[0].modules];
        }
        shipIdx := shipIdx + 1;
      }
      shipModules := modules;
      assert shipModules == LegacyModules(ships);
    }

    /** `getShipConfig`: the nested `forEach` that pushes the operated lasers. */
    method GetShipConfig() returns (config: seq<CalcEntry>)
      ensures config == ShipConfig(ships)
    {
      config := [];
      var i := 0;
      while i < |ships|
        invariant 0 <= i <= |ships|
        invariant config == ShipConfig(ships[..i])
      {
        var lasers := ships[i].lasers;
        var start := config;
        var j := 0;
        while j < |lasers|
          invariant 0 <= j <= |lasers|
          invariant config == start + Operated(lasers[..j])
        {
          assert lasers[..j + 1][..j] == lasers[..j];
          if lasers[j].laserType != UnManned {
            config := config + [CalcEntry(lasers[j].laserType, lasers[j].modules)];
          }
          j := j + 1;
        }
        assert lasers[..j] == lasers;
        assert ships[..i + 1][..i] == ships[..i];
        i := i + 1;
      }
      assert ships[..i] == ships;
    }

    /**
     * `loadFromURL`: with the URL module present and a decoded configuration, replace both
     * arrays and resync; otherwise leave everything as it was.
     */
    method LoadFromURL(urlStateLoaded: bool, decoded: Option<Config>) returns (loaded: bool)
      modifies this
      ensures loaded <==> urlStateLoaded && decoded.Some?
      ensures loaded ==> ships == decoded.value.ships && gadgets == decoded.value.gadgets && Synced()
      ensures !loaded ==> unchanged(this)
    {
      if !urlStateLoaded {
        return false;
      }
      if decoded.Some? {
        ships := decoded.value.ships;
        gadgets := decoded.value.gadgets;
        SyncLegacyState();
        return true;
      }
      return false;
    }
  }

  // ---------------------------------------------------------------- properties of getShipConfig

  lemma ShipConfigSnoc(ships: seq<Ship>, ship: Ship)
    ensures ShipConfig(ships + [ship]) == ShipConfig(ships) + Operated(ship.lasers)
  {
    assert (ships + [ship])[..|ships|] == ships;
  }

  /** The configuration of two fleets side by side is the two configurations in order. */
  lemma {:induction false} ShipConfigAppend(a: seq<Ship>, b: seq<Ship>)
    ensures ShipConfig(a + b) == ShipConfig(a) + ShipConfig(b)
  {
    if b == [] {
      assert a + b == a;
    } else {
      var b', last := b[..|b| - 1], b[|b| - 1];
      calc {
        ShipConfig(a + b);
        { assert a + b == (a + b') + [last]; }
        ShipConfig((a + b') + [last]);
        { ShipConfigSnoc(a + b', last); }
        ShipConfig(a + b') + Operated(last.lasers);
        { ShipConfigAppend(a, b'); }
        ShipConfig(a) + (ShipConfig(b') + Operated(last.lasers));
        { assert b == b' + [last]; ShipConfigSnoc(b', last); }
        ShipConfig(a) + ShipConfig(b);
      }
    }
  }

  /** An entry comes from one ship's lasers exactly when that ship has an operated laser with its key and modules. */
  lemma {:induction false} OperatedMembership(lasers: seq<LaserConfig>, e: CalcEntry)
    ensures e in Operated(lasers) <==> e.laser != UnManned && LaserConfig(e.laser, e.modules) in lasers
  {
    if lasers != [] {
      var front := lasers[..|lasers| - 1];
      assert lasers == front + [lasers[|lasers| - 1]];
      OperatedMembership(front, e);
    }
  }

  /**
   * `getShipConfig` lists exactly the operated lasers: an entry is in it iff its key is not
   * `un-maned` and some ship has a laser with that key and exactly those modules (`none` kept).
   */
  lemma {:induction false} ShipConfigMembership(ships: seq<Ship>, e: CalcEntry)
    ensures e in ShipConfig(ships) <==>
      e.laser != UnManned && exists i :: 0 <= i < |ships| && LaserConfig(e.laser, e.modules) in ships[i].lasers
  {
    if ships != [] {
      var front, last := ships[..|ships| - 1], ships[|ships| - 1];
      ShipConfigMembership(front, e);
      OperatedMembership(last.lasers, e);
      assert ships == front + [last];
      HeldBySnoc(front, last, LaserConfig(e.laser, e.modules));
    }
  }

  /** A laser is held by a ship of `front + [last]` iff some ship of `front` or `last` holds it. */
  lemma HeldBySnoc(front: seq<Ship>, last: Ship, c: LaserConfig)
    ensures (exists i :: 0 <= i < |front + [last]| && c in (front + [last])[i].lasers)
        <==> (exists i :: 0 <= i < |front| && c in front[i].lasers) || c in last.lasers
  {
    var ships := front + [last];
    if exists i :: 0 <= i < |front| && c in front[i].lasers {
      var i :| 0 <= i < |front| && c in front[i].lasers;
      assert ships[i] == front[i];
    }
    if exists i :: 0 <= i < |ships| && c in ships[i].lasers {
      var i :| 0 <= i < |ships| && c in ships[i].lasers;
      if i < |front| {
        assert ships[i] == front[i];
      }
    }
    if c in last.lasers {
      assert ships[|front|] == last;
    }
  }

  /** One ship's entries: its positions minus its `un-maned` ones. */
  lemma {:induction false} OperatedCount(lasers: seq<LaserConfig>)
    ensures |Operated(lasers)| + multiset(seq(|lasers|, j requires 0 <= j < |lasers| => lasers[j].laserType))[UnManned] == |lasers|
  {
    if lasers != [] {
      var front := lasers[..|lasers| - 1];
      OperatedCount(front);
      assert seq(|lasers|, j requires 0 <= j < |lasers| => lasers[j].laserType)
          == seq(|front|, j requires 0 <= j < |front| => front[j].laserType) + [lasers[|lasers| - 1].laserType];
    }
  }

  /** `getShipConfig` has one entry per laser position that is not `un-maned`. */
  lemma {:induction false} ShipConfigCount(ships: seq<Ship>)
    ensures |ShipConfig(ships)| == |LaserTypes(ships)| - multiset(LaserTypes(ships))[UnManned]
  {
    if ships != [] {
      ShipConfigCount(ships[..|ships| - 1]);
      OperatedCount(ships[|ships| - 1].lasers);
    }
  }

  // ---------------------------------------------------------------- the chart agrees with the table

  /** The UI fleet as the chart's converter sees it. */
  function AsChartShips(ships: seq<Ship>): seq<Chart.ChartShip> {
    seq(|ships|, i requires 0 <= i < |ships| => Chart.Nested(ships[i].shipType, ships[i].lasers))
  }

  /** No laser of the fleet is `un-maned`. */
  predicate AllManned(ships: seq<Ship>) {
    forall i, j :: 0 <= i < |ships| && 0 <= j < |ships[i].lasers| ==> ships[i].lasers[j].laserType != UnManned
  }

  /** `ys` is `xs` with `none` modules dropped entry by entry. */
  predicate NoneDropped(xs: seq<CalcEntry>, ys: seq<CalcEntry>) {
    |xs| == |ys| && forall k :: 0 <= k < |xs| ==> ys[k] == CalcEntry(xs[k].laser, Chart.WithoutNone(xs[k].modules))
  }

  lemma NoneDroppedAppend(a: seq<CalcEntry>, b: seq<CalcEntry>, c: seq<CalcEntry>, d: seq<CalcEntry>)
    requires NoneDropped(a, b) && NoneDropped(c, d)
    ensures NoneDropped(a + c, b + d)
  {
  }

  lemma {:induction false} OperatedNoneDropped(shipType: string, lasers: seq<LaserConfig>)
    requires forall j :: 0 <= j < |lasers| ==> lasers[j].laserType != UnManned
    ensures NoneDropped(Operated(lasers), Chart.EntriesOf(Chart.Nested(shipType, lasers)))
  {
    if lasers != [] {
      var front := lasers[..|lasers| - 1];
      OperatedNoneDropped(shipType, front);
      assert Chart.EntriesOf(Chart.Nested(shipType, lasers))
          == Chart.EntriesOf(Chart.Nested(shipType, front)) + Chart.EntriesOf(Chart.Nested(shipType, [lasers[|lasers| - 1]]));
    }
  }

  /** For a fully manned fleet the chart's entries are the table's with `none` modules dropped. */
  lemma {:induction false} ChartEntriesDropNone(ships: seq<Ship>)
    requires AllManned(ships)
    ensures NoneDropped(ShipConfig(ships), Chart.Converted(AsChartShips(ships)))
  {
    if ships != [] {
      var front, last := ships[..|ships| - 1], ships[|ships| - 1];
      assert AsChartShips(ships)[..|ships| - 1] == AsChartShips(front);
      assert AllManned(front) by {
        forall i, j | 0 <= i < |front| && 0 <= j < |front[i].lasers|
          ensures front[i].lasers[j].laserType != UnManned
        {
          assert front[i] == ships[i];
        }
      }
      ChartEntriesDropNone(front);
      assert forall j :: 0 <= j < |last.lasers| ==> last.lasers[j].laserType != UnManned by {
        forall j | 0 <= j < |last.lasers| ensures last.lasers[j].laserType != UnManned {
          assert ships[|ships| - 1].lasers[j] == last.lasers[j];
        }
      }
      OperatedNoneDropped(last.shipType, last.lasers);
      NoneDroppedAppend(ShipConfig(front), Chart.Converted(AsChartShips(front)),
        Operated(last.lasers), Chart.EntriesOf(Chart.Nested(last.shipType, last.lasers)));
    }
  }

  /** Entry lists that differ only by dropped `none` modules have the same power and modifiers. */
  lemma NoneDroppedSameCapacity(data: CalcData.Tables, xs: seq<CalcEntry>, ys: seq<CalcEntry>)
    requires NoneDropped(xs, ys) && KnownEntries(data, xs)
    ensures KnownEntries(data, ys)
    ensures CombinedPower(data, ys) == CombinedPower(data, xs)
    ensures CombinedModifiers(data, ys) == CombinedModifiers(data, xs)
  {
    forall k | 0 <= k < |xs|
      ensures ys[k].laser in data.laserData && KnownModules(data, ys[k].modules)
      ensures EntryPower(data, ys[k]) == EntryPower(data, xs[k])
    {
      Chart.WithoutNoneKeepsMultiplier(data, xs[k].modules);
    }
    assert EntryPowers(data, ys) == EntryPowers(data, xs);
    ModifiersIgnoreModules(data, xs, ys);
  }

  /**
   * The chart and the table compute the same capacity: for a fully manned fleet the chart's
   * conversion and `getShipConfig` give the same combined power and modifiers, so every
   * resistance gets the same maximum mass.
   */
  lemma ChartAgreesWithShipConfig(data: CalcData.Tables, ships: seq<Ship>)
    requires AllManned(ships) && KnownEntries(data, ShipConfig(ships))
    ensures KnownEntries(data, Chart.Converted(AsChartShips(ships)))
    ensures CombinedPower(data, Chart.Converted(AsChartShips(ships))) == CombinedPower(data, ShipConfig(ships))
    ensures CombinedModifiers(data, Chart.Converted(AsChartShips(ships))) == CombinedModifiers(data, ShipConfig(ships))
  {
    ChartEntriesDropNone(ships);
    NoneDroppedSameCapacity(data, ShipConfig(ships), Chart.Converted(AsChartShips(ships)));
  }
}
