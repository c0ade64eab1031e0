/** Tile identifiers and the fixed 18x18 terrain of the simple environment.
    The map is indexed grid[y, x]; north is +y, so row 0 is the southern edge. */
module Terrain {

  // Tile identifiers, with the values the environment uses for them.
  const GRASS := 0
  const WATER := 1
  const SHADE := 2
  const BEACH_E := 3
  const BEACH_N_OLD := 4
  const BEACH_S := 5
  const BEACH_NE := 6
  const BEACH_SE := 7
  const CLIFF_W := 8
  const CLIFF_SW := 9
  const ROCK := 10
  const FORESTEDGE := 11
  const FOREST := 12
  const BEACH_N := 21
  const CLIFF_E := 22
  const CLIFF_SE := 23

  const SIZE := 18

  predicate InGrid(x: int, y: int) {
    0 <= x < SIZE && 0 <= y < SIZE
  }

  /** The beach tiles: standing on one, pick-up fills the hand with water. */
  predicate IsBeach(t: int) {
    t == BEACH_E || t == BEACH_N_OLD || t == BEACH_S || t == BEACH_NE || t == BEACH_SE || t == BEACH_N
  }

  /** The terrain tiles the layout can produce. */
  predicate IsTerrainTile(t: int) {
    t == GRASS || t == WATER || t == CLIFF_W || t == CLIFF_SW || t == ROCK || t == FORESTEDGE
    || t == FOREST || t == BEACH_N || t == CLIFF_E || t == CLIFF_SE
  }

  // The layout is built as a sequence of overwrites; each function below is
  // the map after one more of them.

  /** Rows 4 to 15 of the west and east columns are cliffs; the rest grass. */
  function CliffLayer(x: int, y: int): (t: int) {
    if 4 <= y <= 15 && x == 0 then CLIFF_W
    else if 4 <= y <= 15 && x == 17 then CLIFF_E
    else GRASS
  }

  /** Row 0 is rock, row 17 forest, row 16 forest edge. */
  function RowLayer(x: int, y: int): (t: int) {
    if y == 0 then ROCK
    else if y == 17 then FOREST
    else if y == 16 then FORESTEDGE
    else CliffLayer(x, y)
  }

  predicate IsCornerRock(x: int, y: int) {
    (1 <= y <= 3 && (x == 0 || x == 4 || x == 13 || x == 17))
    || (y == 3 && (0 <= x <= 2 || 15 <= x <= 17))
  }

  /** Rock walls around the two southern corners. */
  function RockLayer(x: int, y: int): (t: int) {
    if IsCornerRock(x, y) then ROCK else RowLayer(x, y)
  }

  /** The lake in rows 1-2, columns 5-12, with its northern beach in row 3. */
  function LakeLayer(x: int, y: int): (t: int) {
    if 1 <= y <= 2 && 5 <= x <= 12 then WATER
    else if y == 3 && 5 <= x <= 12 then BEACH_N
    else RockLayer(x, y)
  }

  /** The terrain tile of an in-grid cell once the layout is complete. */
  function TerrainAt(x: int, y: int): (t: int)
    requires InGrid(x, y)
    ensures IsTerrainTile(t)
    ensures y == 0 ==> t == ROCK
    ensures y == 17 ==> t == FOREST
    ensures t == WATER <==> 1 <= y <= 2 && 5 <= x <= 12
    ensures IsBeach(t) <==> y == 3 && 5 <= x <= 12
  {
    if x == 0 && y == 15 then CLIFF_SW
    else if x == 17 && y == 15 then CLIFF_SE
    else LakeLayer(x, y)
  }

  predicate IsLayout(grid: array2<int>)
    reads grid
  {
    grid.Length0 == SIZE && grid.Length1 == SIZE
    && forall y, x | 0 <= y < SIZE && 0 <= x < SIZE :: grid[y, x] == TerrainAt(x, y)
  }

  /** The terrain part of the environment's initialisation: fill every cell
      with grass, then overwrite cliffs, edge rows, corner rocks, the lake
      and the two cliff corners, in that order. */
  method LayTerrain(grid: array2<int>)
    requires grid.Length0 == SIZE && grid.Length1 == SIZE
    modifies grid
    ensures IsLayout(grid)
  {
    for r := 0 to 18
      invariant forall y, x | 0 <= y < r && 0 <= x < SIZE :: grid[y, x] == GRASS
    {
      for c := 0 to 18
        invariant forall y, x | 0 <= y < r && 0 <= x < SIZE :: grid[y, x] == GRASS
        invariant forall x | 0 <= x < c :: grid[r, x] == GRASS
      {
        grid[r, c] := GRASS;
      }
    }
    for r := 4 to 16
      invariant forall y, x | 0 <= y < SIZE && 0 <= x < SIZE ::
        grid[y, x] == (if y < r then CliffLayer(x, y) else GRASS)
    {
      grid[r, 0] := CLIFF_W;
      grid[r, 17] := CLIFF_E;
    }
    for c := 0 to 18
      invariant forall y, x | 0 <= y < SIZE && 0 <= x < SIZE ::
        grid[y, x] == (if x < c then RowLayer(x, y) else CliffLayer(x, y))
    {
      grid[0, c] := ROCK;
      grid[17, c] := FOREST;
      grid[16, c] := FORESTEDGE;
    }
    for i := 0 to 3
      invariant forall y, x | 0 <= y < SIZE && 0 <= x < SIZE ::
        grid[y, x] == (if RockDone(x, y, i) then ROCK else RowLayer(x, y))
    {
      grid[i + 1, 0] := ROCK;
      grid[i + 1, 4] := ROCK;
      grid[3, i] := ROCK;
      grid[i + 1, 17] := ROCK;
      grid[i + 1, 13] := ROCK;
      grid[3, 17 - i] := ROCK;
    }
    for i := 5 to 13
      invariant forall y, x | 0 <= y < SIZE && 0 <= x < SIZE ::
        grid[y, x] == (if x < i then LakeLayer(x, y) else RockLayer(x, y))
    {
      grid[1, i] := WATER;
      grid[2, i] := WATER;
      grid[3, i] := BEACH_N;
    }
    grid[15, 0] := CLIFF_SW;
    grid[15, 17] := CLIFF_SE;
  }

  /** The corner-rock cells written by the first i rounds of the rock loop. */
  predicate RockDone(x: int, y: int, i: int) {
    (1 <= y <= i && (x == 0 || x == 4 || x == 13 || x == 17))
    || (y == 3 && (0 <= x < i || 17 - i < x <= 17))
  }

  /** The terrain-to-observation table of the sight matrix, indexed by tile id. */
  const TILE_MAP: seq<int> :=
    [0, 6, 5, 1, 1, 1, 1, 1, 2, 2, 4, 3, 7, -1, 14, 13, 8, 9, 10, 11, -1, 1, 2, 2, 12, -99, -99]

  /** The observation code of a terrain tile. */
  function TileCode(t: int): (v: int)
    requires IsTerrainTile(t)
    ensures 0 <= v <= 7
    ensures t == WATER <==> v == 6
    ensures t == ROCK <==> v == 4
    ensures t == FOREST <==> v == 7
  {
    TILE_MAP[t]
  }
}
