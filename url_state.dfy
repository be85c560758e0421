/**
 * Saving and restoring the fleet through the URL hash (public/js/url-state.js).
 *
 * The text codec (`JSON.stringify` / `JSON.parse`, `btoa` / `atob`,
 * `encodeURIComponent` / `decodeURIComponent`) is foreign code: it is the parameter pair
 * `enc` / `dec`, where `dec` returns `None` whenever decoding or parsing throws. What is
 * modelled is the structural check `deserializeConfig` applies to the parsed value, and
 * the `#config=` prefix handling.
 */
module UrlState {
  import opened Wrappers
  import opened Fleet

  /** A parsed JSON value. */
  datatype Json =
    | JNull
    | JBool(b: bool)
    | JNum(n: real)
    | JStr(s: string)
    | JArr(items: seq<Json>)
    | JObj(fields: map<string, Json>)

  const HashPrefix: string := "#config="

  /** The property read `v.key`: `None` is `undefined` (no such key, or `v` is not an object). */
  function Get(v: Json, key: string): Option<Json> {
    if v.JObj? && key in v.fields then Some(v.fields[key]) else None
  }

  /** JavaScript truthiness of a property read. */
  predicate Truthy(v: Option<Json>) {
    match v
    case None => false
    case Some(JNull) => false
    case Some(JBool(b)) => b
    case Some(JNum(n)) => n != 0.0
    case Some(JStr(s)) => s != ""
    case Some(_) => true
  }

  /** `Array.isArray` of a property read. */
  predicate IsArray(v: Option<Json>) {
    v.Some? && v.value.JArr?
  }

  /** The items of an array property (empty when it is not one). */
  function Items(v: Option<Json>): seq<Json> {
    if IsArray(v) then v.value.items else []
  }

  /** A laser passes: a truthy `laserType` and an array `modules`. */
  predicate ValidLaser(laser: Json) {
    Truthy(Get(laser, "laserType")) && IsArray(Get(laser, "modules"))
  }

  /** A ship passes: a truthy `type`, an array `lasers`, and every laser passes. */
  predicate ValidShip(ship: Json) {
    && Truthy(Get(ship, "type"))
    && IsArray(Get(ship, "lasers"))
    && forall j :: 0 <= j < |Items(Get(ship, "lasers"))| ==> ValidLaser(Items(Get(ship, "lasers"))[j])
  }

  /**
   * The structural check: a truthy object whose `ships` and `gadgets` are arrays, whose
   * ships pass, and whose gadgets are all strings.
   */
  predicate ValidConfig(config: Json) {
    && Truthy(Some(config)) && (config.JObj? || config.JArr?)
    && IsArray(Get(config, "ships"))
    && IsArray(Get(config, "gadgets"))
    && (forall i :: 0 <= i < |Items(Get(config, "ships"))| ==> ValidShip(Items(Get(config, "ships"))[i]))
    && (forall g :: 0 <= g < |Items(Get(config, "gadgets"))| ==> Items(Get(config, "gadgets"))[g].JStr?)
  }

  /** `deserializeConfig(encoded)`: the parsed value when it passes the check, null otherwise. */
  function Deserialized(encodedConfig: string, dec: string -> Option<Json>): Option<Json> {
    match dec(encodedConfig)
    case None => None
    case Some(config) => if ValidConfig(config) then Some(config) else None
  }

  /** `deserializeConfig`: the validation loops with their early returns. */
  method DeserializeConfig(encodedConfig: string, dec: string -> Option<Json>) returns (r: Option<Json>)
    ensures r == Deserialized(encodedConfig, dec)
    ensures r.Some? ==> dec(encodedConfig) == r && ValidConfig(r.value)
    ensures r.None? <==> dec(encodedConfig).None? || !ValidConfig(dec(encodedConfig).value)
  {
    var parsed := dec(encodedConfig);
    if parsed.None? {
      return None;
    }
    var config := parsed.value;
    if !Truthy(Some(config)) || !(config.JObj? || config.JArr?) {
      return None;
    }
    if !IsArray(Get(config, "ships")) {
      return None;
    }
    if !IsArray(Get(config, "gadgets")) {
      return None;
    }
    var ships := Items(Get(config, "ships"));
    var i := 0;
    while i < |ships|
      invariant 0 <= i <= |ships|
      invariant forall k :: 0 <= k < i ==> ValidShip(ships[k])
    {
      var ship := ships[i];
      if !Truthy(Get(ship, "type")) || !IsArray(Get(ship, "lasers")) {
        return None;
      }
      var lasers := Items(Get(ship, "lasers"));
      var j := 0;
      while j < |lasers|
        invariant 0 <= j <= |lasers|
        invariant forall k :: 0 <= k < j ==> ValidLaser(lasers[k])
      {
        if !Truthy(Get(lasers[j], "laserType")) || !IsArray(Get(lasers[j], "modules")) {
          return None;
        }
        j := j + 1;
      }
      i := i + 1;
    }
    var gadgets := Items(Get(config, "gadgets"));
    var g := 0;
    while g < |gadgets|
      invariant 0 <= g <= |gadgets|
      invariant forall k :: 0 <= k < g ==> gadgets[k].JStr?
    {
      if !gadgets[g].JStr? {
        return None;
      }
      g := g + 1;
    }
    return Some(config);
  }

  /** `loadFromURLHash()`: only a hash starting with `#config=` is decoded, from its ninth character on. */
  function LoadFromURLHash(hash: string, dec: string -> Option<Json>): (r: Option<Json>)
    ensures !(|hash| >= |HashPrefix| && hash[..|HashPrefix|] == HashPrefix) ==> r == None
    ensures |hash| >= |HashPrefix| && hash[..|HashPrefix|] == HashPrefix ==> r == Deserialized(hash[8..], dec)
  {
    if |hash| >= |HashPrefix| && hash[..|HashPrefix|] == HashPrefix then Deserialized(hash[|HashPrefix|..], dec) else None
  }

  /** A ship without `type` is rejected. */
  lemma RejectsShipWithoutType()
    ensures !ValidConfig(JObj(map["ships" := JArr([JObj(map["lasers" := JArr([])])]), "gadgets" := JArr([])]))
  {
    var ship := JObj(map["lasers" := JArr([])]);
    assert Items(Get(JObj(map["ships" := JArr([ship]), "gadgets" := JArr([])]), "ships"))[0] == ship;
  }

  /** A ship without `lasers` is rejected. */
  lemma RejectsShipWithoutLasers()
    ensures !ValidConfig(JObj(map["ships" := JArr([JObj(map["type" := JStr("prospector")])]), "gadgets" := JArr([])]))
  {
    var ship := JObj(map["type" := JStr("prospector")]);
    assert Items(Get(JObj(map["ships" := JArr([ship]), "gadgets" := JArr([])]), "ships"))[0] == ship;
  }

  /** A laser without `modules` is rejected. */
  lemma RejectsLaserWithoutModules()
    ensures !ValidConfig(JObj(map[
      "ships" := JArr([JObj(map["type" := JStr("prospector"), "lasers" := JArr([JObj(map["laserType" := JStr("arbor")])])])]),
      "gadgets" := JArr([])]))
  {
    var laser := JObj(map["laserType" := JStr("arbor")]);
    var ship := JObj(map["type" := JStr("prospector"), "lasers" := JArr([laser])]);
    assert Items(Get(ship, "lasers"))[0] == laser;
    assert Items(Get(JObj(map["ships" := JArr([ship]), "gadgets" := JArr([])]), "ships"))[0] == ship;
  }

  /** Gadgets that are numbers are rejected. */
  lemma RejectsNumericGadgets(ships: seq<Json>)
    ensures !ValidConfig(JObj(map["ships" := JArr(ships), "gadgets" := JArr([JNum(123.0), JNum(456.0)])]))
  {
    assert Items(Get(JObj(map["ships" := JArr(ships), "gadgets" := JArr([JNum(123.0), JNum(456.0)])]), "gadgets"))[0] == JNum(123.0);
  }

  // ---------------------------------------------------------------- serialising

  function StringsJson(xs: seq<string>): Json {
    JArr(seq(|xs|, i requires 0 <= i < |xs| => JStr(xs[i])))
  }

  function LaserJson(laser: LaserConfig): Json {
    JObj(map["laserType" := JStr(laser.laserType), "modules" := StringsJson(laser.modules)])
  }

  function ShipJson(ship: Ship): Json {
    JObj(map["type" := JStr(ship.shipType),
             "lasers" := JArr(seq(|ship.lasers|, j requires 0 <= j < |ship.lasers| => LaserJson(ship.lasers[j])))])
  }

  /** The object `{ships, gadgets}` that `serializeConfig` stringifies. */
  function ConfigJson(config: Config): Json {
    JObj(map["ships" := JArr(seq(|config.ships|, i requires 0 <= i < |config.ships| => ShipJson(config.ships[i]))),
             "gadgets" := StringsJson(config.gadgets)])
  }

  /**
   * `serializeConfig(ships, gadgets)`: the encoding of a JSON value that reads back as
   * exactly these ships and gadgets.
   */
  function SerializeConfig(ships: seq<Ship>, gadgets: seq<string>, enc: Json -> string): (r: string)
    ensures exists j :: r == enc(j) && ToConfig(j) == Some(Config(ships, gadgets))
  {
    ConfigRoundTrip(Config(ships, gadgets));
    enc(ConfigJson(Config(ships, gadgets)))
  }

  /** The hash `updateURLHash` writes. */
  function ConfigHash(ships: seq<Ship>, gadgets: seq<string>, enc: Json -> string): string {
    HashPrefix + SerializeConfig(ships, gadgets, enc)
  }

  /** Every ship has a non-empty type and every laser a non-empty key (ships built by the UI do). */
  predicate WellFormed(config: Config) {
    && (forall i :: 0 <= i < |config.ships| ==> config.ships[i].shipType != "")
    && (forall i, j :: 0 <= i < |config.ships| && 0 <= j < |config.ships[i].lasers| ==>
          config.ships[i].lasers[j].laserType != "")
  }

  /** A well-formed configuration passes the structural check once serialised. */
  lemma WellFormedIsValid(config: Config)
    requires WellFormed(config)
    ensures ValidConfig(ConfigJson(config))
  {
    var ships := Items(Get(ConfigJson(config), "ships"));
    forall i | 0 <= i < |ships|
      ensures ValidShip(ships[i])
    {
      assert ships[i] == ShipJson(config.ships[i]);
    }
  }

  /**
   * The round trip: when the codec returns what it encoded, deserialising a serialised
   * well-formed configuration gives back its JSON object.
   */
  lemma SerializeRoundTrip(config: Config, enc: Json -> string, dec: string -> Option<Json>)
    requires WellFormed(config)
    requires dec(enc(ConfigJson(config))) == Some(ConfigJson(config))
    ensures Deserialized(SerializeConfig(config.ships, config.gadgets, enc), dec) == Some(ConfigJson(config))
  {
    WellFormedIsValid(config);
  }

  /** The hash `updateURLHash` writes is read back by `loadFromURLHash`. */
  lemma HashRoundTrip(config: Config, enc: Json -> string, dec: string -> Option<Json>)
    requires WellFormed(config)
    requires dec(enc(ConfigJson(config))) == Some(ConfigJson(config))
    ensures LoadFromURLHash(ConfigHash(config.ships, config.gadgets, enc), dec) == Some(ConfigJson(config))
  {
    var hash := ConfigHash(config.ships, config.gadgets, enc);
    assert hash[..|HashPrefix|] == HashPrefix;
    assert hash[|HashPrefix|..] == SerializeConfig(config.ships, config.gadgets, enc);
    SerializeRoundTrip(config, enc, dec);
  }

  // ---------------------------------------------------------------- reading the typed configuration back

  /** All present, in order, or `None`. */
  function AllSome<T>(xs: seq<Option<T>>): Option<seq<T>> {
    if xs == [] then Some([])
    else
      var front := AllSome(xs[..|xs| - 1]);
      if front.Some? && xs[|xs| - 1].Some? then Some(front.value + [xs[|xs| - 1].value]) else None
  }

  lemma {:induction false} AllSomeOfSome<T>(xs: seq<Option<T>>, ys: seq<T>)
    requires |xs| == |ys| && forall i :: 0 <= i < |xs| ==> xs[i] == Some(ys[i])
    ensures AllSome(xs) == Some(ys)
  {
    if xs != [] {
      AllSomeOfSome(xs[..|xs| - 1], ys[..|ys| - 1]);
      assert ys == ys[..|ys| - 1] + [ys[|ys| - 1]];
    }
  }

  function StringOf(v: Json): Option<string> {
    if v.JStr? then Some(v.s) else None
  }

  function StringsOf(v: Option<Json>): Option<seq<string>> {
    var items := Items(v);
    if IsArray(v) then AllSome(seq(|items|, i requires 0 <= i < |items| => StringOf(items[i]))) else None
  }

  function LaserOf(v: Json): Option<LaserConfig> {
    var laserType := Get(v, "laserType");
    var modules := StringsOf(Get(v, "modules"));
    if laserType.Some? && laserType.value.JStr? && modules.Some? then Some(LaserConfig(laserType.value.s, modules.value)) else None
  }

  function ShipOf(v: Json): Option<Ship> {
    var shipType := Get(v, "type");
    var items := Items(Get(v, "lasers"));
    var lasers := AllSome(seq(|items|, j requires 0 <= j < |items| => LaserOf(items[j])));
    if shipType.Some? && shipType.value.JStr? && IsArray(Get(v, "lasers")) && lasers.Some? then
      Some(Ship(shipType.value.s, lasers.value))
    else None
  }

  /** The typed configuration of a parsed value whose keys and modules are strings. */
  function ToConfig(v: Json): Option<Config> {
    var items := Items(Get(v, "ships"));
    var ships := AllSome(seq(|items|, i requires 0 <= i < |items| => ShipOf(items[i])));
    var gadgets := StringsOf(Get(v, "gadgets"));
    if IsArray(Get(v, "ships")) && ships.Some? && gadgets.Some? then Some(Config(ships.value, gadgets.value)) else None
  }

  lemma StringsRoundTrip(xs: seq<string>)
    ensures StringsOf(Some(StringsJson(xs))) == Some(xs)
  {
    var items := StringsJson(xs).items;
    AllSomeOfSome(seq(|items|, i requires 0 <= i < |items| => StringOf(items[i])), xs);
  }

  lemma ShipRoundTrip(ship: Ship)
    ensures ShipOf(ShipJson(ship)) == Some(ship)
  {
    var items := Items(Get(ShipJson(ship), "lasers"));
    forall j | 0 <= j < |ship.lasers|
      ensures LaserOf(items[j]) == Some(ship.lasers[j])
    {
      assert items[j] == LaserJson(ship.lasers[j]);
      StringsRoundTrip(ship.lasers[j].modules);
    }
    AllSomeOfSome(seq(|items|, j requires 0 <= j < |items| => LaserOf(items[j])), ship.lasers);
  }

  /** Reading the typed configuration back from its JSON object gives the configuration. */
  lemma ConfigRoundTrip(config: Config)
    ensures ToConfig(ConfigJson(config)) == Some(config)
  {
    var items := Items(Get(ConfigJson(config), "ships"));
    forall i | 0 <= i < |config.ships|
      ensures ShipOf(items[i]) == Some(config.ships[i])
    {
      assert items[i] == ShipJson(config.ships[i]);
      ShipRoundTrip(config.ships[i]);
    }
    AllSomeOfSome(seq(|items|, i requires 0 <= i < |items| => ShipOf(items[i])), config.ships);
    StringsRoundTrip(config.gadgets);
  }
}
