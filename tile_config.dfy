/**
 * The board's tile classes: tiles -40..-1 take points away, 81..100 are the danger zone,
 * the multiples of five up to 80 are shiny, every other number is a plain tile.
 */
module TileConfig {
  import opened Wrappers
  import Text
  import opened Numeric

  datatype TileType = Normal | Shiny | Red | Minus

  datatype TileConfig = TileConfig(
    tileType: TileType,
    mark: Option<string>,
    description: Option<string>,
    value: Option<int>)

  const ShinyTiles: seq<int> := [5, 10, 15, 20, 25, 30, 35, 40, 45, 50, 55, 60, 65, 70, 75, 80]
  const RedTilesStart: int := 81
  const RedTilesEnd: int := 100
  const MinusTilesStart: int := -40
  const MinusTilesEnd: int := -1
  const ZeroTile: int := 0

  predicate IsShinyTile(n: int)
  {
    n in ShinyTiles
  }

  predicate IsRedTile(n: int)
  {
    RedTilesStart <= n <= RedTilesEnd
  }

  predicate IsMinusTile(n: int)
  {
    MinusTilesStart <= n <= MinusTilesEnd
  }

  /** The shiny list is exactly the positive multiples of five up to 80. */
  lemma ShinyTilesAreMultiplesOfFive(n: int)
    ensures IsShinyTile(n) <==> 5 <= n <= 80 && n % 5 == 0
  {
    assert |ShinyTiles| == 16;
    assert forall i :: 0 <= i < 16 ==> ShinyTiles[i] == 5 * (i + 1);
    if IsShinyTile(n) {
      var i :| 0 <= i < 16 && ShinyTiles[i] == n;
      ModUnique(n, 5, i + 1, 0);
    }
    if 5 <= n <= 80 && n % 5 == 0 {
      var k := n / 5;
      assert ShinyTiles[k - 1] == n;
    }
  }

  /** The first matching class in the order minus, red, shiny. */
  function GetTileType(n: int): (t: TileType)
    ensures t == Minus <==> -40 <= n <= -1
    ensures t == Red <==> 81 <= n <= 100
    ensures t == Shiny <==> 5 <= n <= 80 && n % 5 == 0
    ensures t == Normal <==> !(-40 <= n <= -1) && !(81 <= n <= 100) && !(5 <= n <= 80 && n % 5 == 0)
  {
    ShinyTilesAreMultiplesOfFive(n);
    if IsMinusTile(n) then Minus
    else if IsRedTile(n) then Red
    else if IsShinyTile(n) then Shiny
    else Normal
  }

  /** The fixed configuration of each class. */
  function BaseConfig(t: TileType): TileConfig
  {
    match t
    case Normal => TileConfig(Normal, None, None, None)
    case Shiny => TileConfig(Shiny, Some("★"), Some("Shiny tile - special bonus!"), None)
    case Red => TileConfig(Red, Some("⚠"), Some("Danger zone!"), None)
    case Minus => TileConfig(Minus, Some("−"), Some("Minus tile!"), None)
  }

  /** A tile's configuration: a minus tile carries its own value and names the points it
    * takes; the others share their class's fixed configuration. */
  function GetTileConfig(n: int): (c: TileConfig)
    ensures c.tileType == GetTileType(n)
    ensures c.tileType == Minus ==>
      c.value == Some(n) && n < 0 && c.description == Some("Minus " + Text.NatToString(-n) + " points!")
    ensures c.tileType != Minus ==> c == BaseConfig(c.tileType) && c.value.None?
    ensures c.mark.Some? <==> c.tileType != Normal
  {
    var t := GetTileType(n);
    if t == Minus then
      var base := BaseConfig(Minus);
      TileConfig(base.tileType, base.mark, Some("Minus " + Text.NatToString(Abs(n)) + " points!"), Some(n))
    else BaseConfig(t)
  }

  /** Different minus tiles get different descriptions. */
  lemma MinusDescriptionsDistinct(m: int, n: int)
    requires IsMinusTile(m) && IsMinusTile(n)
    requires GetTileConfig(m).description == GetTileConfig(n).description
    ensures m == n
  {
    var pm, pn := "Minus " + Text.NatToString(-m), "Minus " + Text.NatToString(-n);
    assert (pm + " points!")[..|pm|] == pm;
    assert (pn + " points!")[..|pn|] == pn;
    assert |pm| == |pn|;
    assert pm[6..] == Text.NatToString(-m);
    assert pn[6..] == Text.NatToString(-n);
    Text.NatToStringInjective(-m, -n);
  }
}
