/**
 * The fleet configuration the UI edits: ships, each carrying lasers, each laser carrying
 * module keys, plus the gadgets placed on the rock.
 */
module Fleet {
  /** The laser key of a laser position nobody operates (the source's spelling). */
  const UnManned: string := "un-maned"

  /** `{laserType, modules}`. */
  datatype LaserConfig = LaserConfig(laserType: string, modules: seq<string>)

  /** `{type, lasers}`. */
  datatype Ship = Ship(shipType: string, lasers: seq<LaserConfig>)

  /** `{ships, gadgets}`: what the URL hash stores. */
  datatype Config = Config(ships: seq<Ship>, gadgets: seq<string>)

  /** `Array(n).fill('none')`: n empty module slots. */
  function NoneModules(n: nat): seq<string> {
    seq(n, _ => "none")
  }

  /** `s.splice(i, 1)` on the array `s`: removes entry i when there is one. */
  function Spliced<T>(s: seq<T>, i: nat): (r: seq<T>)
    ensures i < |s| ==> |r| == |s| - 1
    ensures i < |s| ==> forall k :: 0 <= k < i ==> r[k] == s[k]
    ensures i < |s| ==> forall k :: i <= k < |r| ==> r[k] == s[k + 1]
    ensures i >= |s| ==> r == s
    ensures multiset(r) + (if i < |s| then multiset{s[i]} else multiset{}) == multiset(s)
  {
    if i < |s| then
      assert s == s[..i] + [s[i]] + s[i + 1..];
      s[..i] + s[i + 1..]
    else s
  }
}
