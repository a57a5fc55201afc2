/**
 * The player board: a 10 by 10 grid of tiles 1..100 laid out as a snake, a zero tile and a
 * row of minus tiles -1..-40; each player stands on the tile their score maps to.
 */
module PlayerMap {
  import opened Numeric
  import TileConfig

  const TotalCells: int := 100
  const CellsPerRow: int := 10

  datatype Player = Player(id: string, name: string, score: int)

  datatype CellPosition = CellPosition(row: int, col: int)

  /** The display position of a tile: row 0 is the top row, and the direction of a row
    * alternates. The remainders are JavaScript's. */
  function GetCellPosition(cell: int): (p: CellPosition)
    ensures 1 <= cell <= TotalCells ==> 0 <= p.row < CellsPerRow && 0 <= p.col < CellsPerRow
  {
    var row := (cell - 1) / CellsPerRow;  // rounds down, as Math.floor does
    var colInRow := JsRem(cell - 1, CellsPerRow);
    var col := if JsRem(row, 2) == 0 then colInRow else CellsPerRow - 1 - colInRow;
    CellPosition((TotalCells - 1) / CellsPerRow - row, col)
  }

  /** The tile drawn at display row `row`, column `col`. */
  function SnakeCell(row: int, col: int): int
  {
    var startCell := TotalCells - row * CellsPerRow;
    if JsRem(row, 2) == 0 then startCell - col else startCell - (CellsPerRow - 1 - col)
  }

  /** Row `r` holds tiles 91 - 10r .. 100 - 10r: even rows count down left to right, odd
    * rows count up. */
  lemma SnakeRow(r: int, c: int)
    requires 0 <= r < 10 && 0 <= c < 10
    ensures 91 - 10 * r <= SnakeCell(r, c) <= 100 - 10 * r
    ensures r % 2 == 0 ==> SnakeCell(r, c) == 100 - 10 * r - c
    ensures r % 2 == 1 ==> SnakeCell(r, c) == 91 - 10 * r + c
  {
  }

  /** Moving one column right steps one tile down on even rows and one up on odd rows. */
  lemma SnakeDirection(r: int, c: int)
    requires 0 <= r < 10 && 0 <= c < 9
    ensures r % 2 == 0 ==> SnakeCell(r, c + 1) == SnakeCell(r, c) - 1
    ensures r % 2 == 1 ==> SnakeCell(r, c + 1) == SnakeCell(r, c) + 1
  {
    SnakeRow(r, c);
    SnakeRow(r, c + 1);
  }

  /** `GetCellPosition` finds every tile of the grid where the grid draws it. */
  lemma GetCellPositionInvertsGrid(cell: int)
    requires 1 <= cell <= TotalCells
    ensures 0 <= GetCellPosition(cell).row < 10 && 0 <= GetCellPosition(cell).col < 10
    ensures SnakeCell(GetCellPosition(cell).row, GetCellPosition(cell).col) == cell
  {
    var q, c := (cell - 1) / 10, (cell - 1) % 10;
    assert cell - 1 == 10 * q + c;
    assert 0 <= q < 10;
    var p := GetCellPosition(cell);
    assert p.row == 9 - q;
    SnakeRow(p.row, p.col);
    if q % 2 == 0 {
      ModUnique(9 - q, 2, 4 - q / 2, 1);
    } else {
      ModUnique(9 - q, 2, 4 - q / 2, 0);
    }
  }

  /** Each grid position is found again from the tile drawn there, so no tile is drawn
    * twice. */
  lemma GridInvertsGetCellPosition(r: int, c: int)
    requires 0 <= r < 10 && 0 <= c < 10
    ensures 1 <= SnakeCell(r, c) <= TotalCells
    ensures GetCellPosition(SnakeCell(r, c)) == CellPosition(r, c)
  {
    SnakeRow(r, c);
    var cell := SnakeCell(r, c);
    var q := 9 - r;
    var k := if r % 2 == 0 then 9 - c else c;
    assert cell - 1 == 10 * q + k;
    ModUnique(cell - 1, 10, q, k);
    assert (cell - 1) / 10 == q;
    if r % 2 == 0 {
      ModUnique(q, 2, (9 - r) / 2, 1);
    } else {
      ModUnique(q, 2, (9 - r) / 2, 0);
    }
  }

  /** Tiles 1..100 are drawn exactly once: two positions showing the same tile coincide. */
  lemma GridIsInjective(r1: int, c1: int, r2: int, c2: int)
    requires 0 <= r1 < 10 && 0 <= c1 < 10 && 0 <= r2 < 10 && 0 <= c2 < 10
    requires SnakeCell(r1, c1) == SnakeCell(r2, c2)
    ensures r1 == r2 && c1 == c2
  {
    GridInvertsGetCellPosition(r1, c1);
    GridInvertsGetCellPosition(r2, c2);
  }

  /** The `rows` loops: ten rows of ten tiles, from the top. */
  method BuildRows() returns (rows: seq<seq<int>>)
    ensures |rows| == 10
    ensures forall r :: 0 <= r < 10 ==> |rows[r]| == 10
    ensures forall r, c :: 0 <= r < 10 && 0 <= c < 10 ==> rows[r][c] == SnakeCell(r, c)
  {
    rows := [];
    var row := 0;
    while row < TotalCells / CellsPerRow
      invariant 0 <= row <= 10 && |rows| == row
      invariant forall r :: 0 <= r < row ==> |rows[r]| == 10
      invariant forall r, c :: 0 <= r < row && 0 <= c < 10 ==> rows[r][c] == SnakeCell(r, c)
    {
      var startCell := TotalCells - row * CellsPerRow;
      var rowCells: seq<int> := [];
      var col := 0;
      while col < CellsPerRow
        invariant 0 <= col <= 10 && |rowCells| == col
        invariant forall c :: 0 <= c < col ==> rowCells[c] == SnakeCell(row, c)
      {
        var cell := if JsRem(row, 2) == 0 then startCell - col else startCell - (CellsPerRow - 1 - col);
        rowCells := rowCells + [cell];
        col := col + 1;
      }
      rows := rows + [rowCells];
      row := row + 1;
    }
  }

  /** The `minusRow` loop: the minus tiles from -1 down to -40, every one a minus tile. */
  method BuildMinusRow() returns (minusRow: seq<int>)
    ensures |minusRow| == 40
    ensures forall k :: 0 <= k < 40 ==> minusRow[k] == -1 - k
    ensures forall k :: 0 <= k < 40 ==> TileConfig.GetTileType(minusRow[k]) == TileConfig.Minus
  {
    minusRow := [];
    var i := TileConfig.MinusTilesEnd;
    while i >= TileConfig.MinusTilesStart
      invariant -41 <= i <= -1 && |minusRow| == -1 - i
      invariant forall k :: 0 <= k < |minusRow| ==> minusRow[k] == -1 - k
    {
      minusRow := minusRow + [i];
      i := i - 1;
    }
  }

  /** The tile a score maps to. */
  function Position(score: int): (pos: int)
    ensures -40 <= pos <= 100
    ensures score < 0 ==> pos == (if score < -40 then -40 else score)
    ensures score == 0 ==> pos == 0
    ensures score > 0 ==> pos == (if score > 100 then 100 else score)
    ensures -40 <= score <= 100 ==> pos == score
  {
    if score < 0 then (if score >= TileConfig.MinusTilesStart then score else TileConfig.MinusTilesStart)
    else if score == 0 then TileConfig.ZeroTile
    else
      var atLeastOne := if score >= 1 then score else 1;
      if atLeastOne <= TotalCells then atLeastOne else TotalCells
  }

  /** A tile the board draws: one of the grid, the zero tile, or one of the minus row. */
  predicate Rendered(k: int)
  {
    (exists r, c :: 0 <= r < 10 && 0 <= c < 10 && SnakeCell(r, c) == k)
    || k == TileConfig.ZeroTile
    || (exists j :: 0 <= j < 40 && MinusCell(j) == k)
  }

  /** The tile at place `j` of the minus row. */
  function MinusCell(j: int): int
  {
    -1 - j
  }

  /** Whatever the score, the player's tile is drawn, so nobody disappears from the board. */
  lemma EveryPositionRendered(score: int)
    ensures Rendered(Position(score))
  {
    var k := Position(score);
    if k >= 1 {
      GetCellPositionInvertsGrid(k);
      var p := GetCellPosition(k);
      assert SnakeCell(p.row, p.col) == k;
    } else if k < 0 {
      assert MinusCell(-1 - k) == k;
    }
  }

  /** The players standing on tile `k`, in list order. */
  function Bucket(players: seq<Player>, k: int): (b: seq<Player>)
    ensures |b| <= |players|
  {
    if players == [] then []
    else
      var p := players[|players| - 1];
      Bucket(players[..|players| - 1], k) + (if Position(p.score) == k then [p] else [])
  }

  /** A bucket holds only players of the list whose tile it is. */
  lemma {:induction false} BucketMembers(players: seq<Player>, k: int, p: Player)
    requires p in Bucket(players, k)
    ensures p in players && Position(p.score) == k
    decreases |players|
  {
    var init := players[..|players| - 1];
    var last := players[|players| - 1];
    if p in Bucket(init, k) {
      BucketMembers(init, k, p);
      assert p in init;
    } else {
      assert p == last;
    }
  }

  lemma BucketSnoc(players: seq<Player>, p: Player, k: int)
    ensures Bucket(players + [p], k) == Bucket(players, k) + (if Position(p.score) == k then [p] else [])
  {
    assert (players + [p])[..|players|] == players;
  }

  /** Every player stands in the bucket of their own tile (and, by `BucketMembers`, in no
    * other). */
  lemma {:induction false} PlayerInOwnBucket(players: seq<Player>, i: int)
    requires 0 <= i < |players|
    ensures players[i] in Bucket(players, Position(players[i].score))
    decreases |players|
  {
    if i < |players| - 1 {
      PlayerInOwnBucket(players[..|players| - 1], i);
    }
  }

  /** Grouping keeps list order: the bucket of a concatenation is the concatenation of the
    * buckets. */
  lemma {:induction false} BucketOfConcat(a: seq<Player>, b: seq<Player>, k: int)
    ensures Bucket(a + b, k) == Bucket(a, k) + Bucket(b, k)
    decreases |b|
  {
    if b != [] {
      var b0 := b[..|b| - 1];
      assert (a + b)[..|a + b| - 1] == a + b0;
      BucketOfConcat(a, b0, k);
    } else {
      assert a + b == a;
    }
  }

  /** The tile-to-players table, read with an empty default. */
  function Lookup(buckets: map<int, seq<Player>>, k: int): seq<Player>
  {
    if k in buckets then buckets[k] else []
  }

  /** One step of the reduce keeps the table equal to the buckets of the players seen. */
  lemma PushExtendsBuckets(before: map<int, seq<Player>>, players: seq<Player>, i: int)
    requires 0 <= i < |players|
    requires forall k :: Lookup(before, k) == Bucket(players[..i], k)
    requires forall k :: k in before ==> before[k] != []
    ensures var pos := Position(players[i].score);
      var after := before[pos := Lookup(before, pos) + [players[i]]];
      && (forall k :: Lookup(after, k) == Bucket(players[..i + 1], k))
      && (forall k :: k in after ==> after[k] != [])
  {
    var player := players[i];
    var pos := Position(player.score);
    var after := before[pos := Lookup(before, pos) + [player]];
    assert players[..i + 1] == players[..i] + [player];
    forall k
      ensures Lookup(after, k) == Bucket(players[..i + 1], k)
    {
      BucketSnoc(players[..i], player, k);
    }
  }

  /** The `playersByPosition` reduce: a key is made for a tile when its first player
    * arrives, and each player is pushed onto its tile's list. */
  method PlayersByPosition(players: seq<Player>) returns (buckets: map<int, seq<Player>>)
    ensures forall k :: Lookup(buckets, k) == Bucket(players, k)
    ensures forall k :: k in buckets ==> buckets[k] != []
  {
    buckets := map[];
    var i := 0;
    while i < |players|
      invariant 0 <= i <= |players|
      invariant forall k :: Lookup(buckets, k) == Bucket(players[..i], k)
      invariant forall k :: k in buckets ==> buckets[k] != []
    {
      var player := players[i];
      var pos := Position(player.score);
      PushExtendsBuckets(buckets, players, i);
      buckets := buckets[pos := Lookup(buckets, pos) + [player]];
      i := i + 1;
    }
    assert players[..|players|] == players;
  }
}
