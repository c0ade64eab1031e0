/** The agent's 13x13 egocentric observation. Cell (r, c) shows the world
    cell (ax - 6 + c, ay + 6 - r): row 0 is the northern edge of the window.
    The matrix is the terrain code of every cell, overwritten first by the
    plants, then by the ground food, then by the stones. */
module Sight {
  import opened Terrain
  import opened Entities

  const RADIUS := 6
  const WIDTH := 13

  type Matrix = seq<seq<int>>

  predicate IsWindow(m: Matrix) {
    |m| == WIDTH && forall r | 0 <= r < WIDTH :: |m[r]| == WIDTH
  }

  predicate InWindow(r: int, c: int) {
    0 <= r < WIDTH && 0 <= c < WIDTH
  }

  /** The code of a cell outside the grid. Beyond the east and north edges
      the diagonal x = y separates the drop-off (5) from the dark forest (7);
      west of the grid the anti-diagonal 17 - x = y does; south of the grid
      rock wall (4) lies towards the inside and drop-off beyond. */
  function OutOfBoundsCode(x: int, y: int): (v: int)
    ensures v == 4 || v == 5 || v == 7
    ensures y >= 0 ==> v != 4
    ensures y < 0 ==> v != 7
  {
    if x >= 0 && y >= 0 then (if x >= y then 5 else 7)
    else if x < 0 && y >= 0 then (if 17 - x >= y then 5 else 7)
    else if x >= 0 && y < 0 then (if 17 - x >= y then 4 else 5)
    else (if x >= y then 4 else 5)
  }

  /** The code a world cell shows before any entity is drawn on it. */
  function BaseCode(x: int, y: int): (v: int)
    ensures 0 <= v <= 7
    ensures InGrid(x, y) ==> v == TileCode(TerrainAt(x, y))
    ensures !InGrid(x, y) ==> v == OutOfBoundsCode(x, y)
  {
    if 0 <= x <= 17 && 0 <= y <= 17 then TileCode(TerrainAt(x, y))
    else OutOfBoundsCode(x, y)
  }

  function BaseMatrix(ax: int, ay: int): (m: Matrix)
    ensures IsWindow(m)
    ensures forall r, c | InWindow(r, c) ::
              m[r][c] == BaseCode(ax - RADIUS + c, ay + RADIUS - r) && 0 <= m[r][c] <= 7
  {
    seq(WIDTH, r => seq(WIDTH, c => BaseCode(ax - RADIUS + c, ay + RADIUS - r)))
  }

  /** An entity drawn into the window: its world cell and the code drawn. */
  datatype Mark = Mark(x: int, y: int, code: int)

  /** The mark falls on window cell (r, c) of an agent at (ax, ay). */
  predicate Hits(m: Mark, ax: int, ay: int, r: int, c: int) {
    ay - m.y + RADIUS == r && m.x - ax + RADIUS == c
  }

  function Put(m: Matrix, r: int, c: int, v: int): (m': Matrix)
    requires IsWindow(m)
    ensures IsWindow(m')
    ensures forall r', c' | InWindow(r', c') ::
              m'[r'][c'] == if r' == r && c' == c then v else m[r'][c']
  {
    if InWindow(r, c) then m[r := m[r][c := v]] else m
  }

  /** Draws the marks in order, so that later marks overwrite earlier ones. */
  function Overlay(m: Matrix, ax: int, ay: int, ms: seq<Mark>): (m': Matrix)
    requires IsWindow(m)
    ensures IsWindow(m')
    ensures forall r, c | InWindow(r, c) ::
              m'[r][c] == m[r][c] || exists k | 0 <= k < |ms| :: Hits(ms[k], ax, ay, r, c) && m'[r][c] == ms[k].code
    decreases |ms|
  {
    if |ms| == 0 then m
    else
      var last := ms[|ms| - 1];
      Put(Overlay(m, ax, ay, ms[..|ms| - 1]), ay - last.y + RADIUS, last.x - ax + RADIUS, last.code)
  }

  function PlantMarks(ps: seq<Plant>): (ms: seq<Mark>)
    ensures |ms| == |ps|
    ensures forall i | 0 <= i < |ps| :: ms[i].x == ps[i].x && ms[i].y == ps[i].y
    ensures forall i | 0 <= i < |ps| :: ms[i].code == 8 + ps[i].stage
    ensures forall i | 0 <= i < |ps| && 0 <= ps[i].stage <= 3 :: 8 <= ms[i].code <= 11
  {
    seq(|ps|, i requires 0 <= i < |ps| => Mark(ps[i].x, ps[i].y, 8 + ps[i].stage))
  }

  function FoodMarks(fs: seq<Food>): (ms: seq<Mark>)
    ensures |ms| == |fs|
    ensures forall i | 0 <= i < |fs| :: ms[i].x == fs[i].x && ms[i].y == fs[i].y && ms[i].code == 12
  {
    seq(|fs|, i requires 0 <= i < |fs| => Mark(fs[i].x, fs[i].y, 12))
  }

  function StoneMarks(ss: seq<Stone>): (ms: seq<Mark>)
    ensures |ms| == |ss|
    ensures forall i | 0 <= i < |ss| :: ms[i].x == ss[i].x && ms[i].y == ss[i].y && ms[i].code == 13
  {
    seq(|ss|, i requires 0 <= i < |ss| => Mark(ss[i].x, ss[i].y, 13))
  }

  /** All marks in drawing order: plants, then food, then stones. */
  function EntityMarks(ps: seq<Plant>, fs: seq<Food>, ss: seq<Stone>): (ms: seq<Mark>)
    ensures |ms| == |ps| + |fs| + |ss|
    ensures forall k | 0 <= k < |ps| :: ms[k] == PlantMarks(ps)[k]
    ensures forall k | |ps| <= k < |ps| + |fs| :: ms[k] == FoodMarks(fs)[k - |ps|] && ms[k].code == 12
    ensures forall k | |ps| + |fs| <= k < |ms| :: ms[k] == StoneMarks(ss)[k - |ps| - |fs|] && ms[k].code == 13
  {
    PlantMarks(ps) + FoodMarks(fs) + StoneMarks(ss)
  }

  /** The sight matrix of an agent at (ax, ay). */
  function SightMatrix(ax: int, ay: int, ps: seq<Plant>, fs: seq<Food>, ss: seq<Stone>): (m: Matrix)
    ensures IsWindow(m)
    ensures StagesOk(ps) ==> forall r, c | InWindow(r, c) :: 0 <= m[r][c] <= 13
  {
    Overlay(BaseMatrix(ax, ay), ax, ay, EntityMarks(ps, fs, ss))
  }

  // ------------------------------------------------ a cell-by-cell definition

  /** Every plant's stage is one of the four drawn stages. */
  predicate StagesOk(ps: seq<Plant>) {
    forall i | 0 <= i < |ps| :: 0 <= ps[i].stage <= 3
  }

  predicate StoneAt(ss: seq<Stone>, x: int, y: int) {
    exists i | 0 <= i < |ss| :: ss[i].x == x && ss[i].y == y
  }

  predicate FoodAt(fs: seq<Food>, x: int, y: int) {
    exists i | 0 <= i < |fs| :: fs[i].x == x && fs[i].y == y
  }

  /** The index of the last plant at (x, y), or -1 if there is none. */
  function LastPlantAt(ps: seq<Plant>, x: int, y: int): (i: int)
    ensures -1 <= i < |ps|
    ensures i >= 0 ==> ps[i].x == x && ps[i].y == y
    ensures forall k | i < k < |ps| :: !(ps[k].x == x && ps[k].y == y)
    decreases |ps|
  {
    if |ps| == 0 then -1
    else if ps[|ps| - 1].x == x && ps[|ps| - 1].y == y then |ps| - 1
    else LastPlantAt(ps[..|ps| - 1], x, y)
  }

  /** What window cell (r, c) shows, stated directly: a stone, else a food,
      else the last plant there, else the terrain of the cell. */
  function CellCode(ax: int, ay: int, ps: seq<Plant>, fs: seq<Food>, ss: seq<Stone>,
                    r: int, c: int): (v: int)
    ensures StoneAt(ss, ax - RADIUS + c, ay + RADIUS - r) ==> v == 13
    ensures !StoneAt(ss, ax - RADIUS + c, ay + RADIUS - r) && FoodAt(fs, ax - RADIUS + c, ay + RADIUS - r) ==> v == 12
    ensures StagesOk(ps) ==>
              && 0 <= v <= 13
              && (v == 13 <==> StoneAt(ss, ax - RADIUS + c, ay + RADIUS - r))
              && (v == 12 <==> !StoneAt(ss, ax - RADIUS + c, ay + RADIUS - r) && FoodAt(fs, ax - RADIUS + c, ay + RADIUS - r))
              && (8 <= v <= 11 <==> !StoneAt(ss, ax - RADIUS + c, ay + RADIUS - r) && !FoodAt(fs, ax - RADIUS + c, ay + RADIUS - r)
                                    && LastPlantAt(ps, ax - RADIUS + c, ay + RADIUS - r) >= 0)
  {
    var (x, y) := (ax - RADIUS + c, ay + RADIUS - r);
    if StoneAt(ss, x, y) then 13
    else if FoodAt(fs, x, y) then 12
    else if LastPlantAt(ps, x, y) >= 0 then 8 + ps[LastPlantAt(ps, x, y)].stage
    else BaseCode(x, y)
  }

  // ------------------------------------------------ lemmas about Overlay

  /** Drawing two lists of marks one after the other draws their concatenation. */
  lemma {:induction false} OverlayAppend(m: Matrix, ax: int, ay: int, a: seq<Mark>, b: seq<Mark>)
    requires IsWindow(m)
    ensures Overlay(m, ax, ay, a + b) == Overlay(Overlay(m, ax, ay, a), ax, ay, b)
    decreases |b|
  {
    if |b| == 0 {
      assert a + b == a;
    } else {
      assert (a + b)[..|a + b| - 1] == a + b[..|b| - 1];
      OverlayAppend(m, ax, ay, a, b[..|b| - 1]);
    }
  }

  /** Marks that miss a cell leave it as it was. */
  lemma {:induction false} OverlaySkip(m: Matrix, ax: int, ay: int, pre: seq<Mark>, suf: seq<Mark>,
                                       r: int, c: int)
    requires IsWindow(m) && InWindow(r, c)
    requires forall k | 0 <= k < |suf| :: !Hits(suf[k], ax, ay, r, c)
    ensures Overlay(m, ax, ay, pre + suf)[r][c] == Overlay(m, ax, ay, pre)[r][c]
    decreases |suf|
  {
    if |suf| > 0 {
      var ms := pre + suf;
      assert ms[..|ms| - 1] == pre + suf[..|suf| - 1];
      assert ms[|ms| - 1] == suf[|suf| - 1];
      OverlaySkip(m, ax, ay, pre, suf[..|suf| - 1], r, c);
    } else {
      assert pre + suf == pre;
    }
  }

  /** If some of the later marks hit a cell and all that do carry the code v,
      the cell shows v. */
  lemma {:induction false} OverlayCovered(m: Matrix, ax: int, ay: int, pre: seq<Mark>, suf: seq<Mark>,
                                          r: int, c: int, v: int)
    requires IsWindow(m) && InWindow(r, c)
    requires exists k | 0 <= k < |suf| :: Hits(suf[k], ax, ay, r, c)
    requires forall k | 0 <= k < |suf| && Hits(suf[k], ax, ay, r, c) :: suf[k].code == v
    ensures Overlay(m, ax, ay, pre + suf)[r][c] == v
    decreases |suf|
  {
    var ms := pre + suf;
    var n := |suf| - 1;
    assert ms[..|ms| - 1] == pre + suf[..n];
    assert ms[|ms| - 1] == suf[n];
    if !Hits(suf[n], ax, ay, r, c) {
      var k :| 0 <= k < |suf| && Hits(suf[k], ax, ay, r, c);
      assert k < n;
      assert suf[..n][k] == suf[k];
      OverlayCovered(m, ax, ay, pre, suf[..n], r, c, v);
    }
  }

  /** A cell shows the code of the last mark that hits it. */
  lemma OverlayLast(m: Matrix, ax: int, ay: int, ms: seq<Mark>, k: int, r: int, c: int)
    requires IsWindow(m) && InWindow(r, c)
    requires 0 <= k < |ms| && Hits(ms[k], ax, ay, r, c)
    requires forall j | k < j < |ms| :: !Hits(ms[j], ax, ay, r, c)
    ensures Overlay(m, ax, ay, ms)[r][c] == ms[k].code
  {
    assert ms == ms[..k + 1] + ms[k + 1..];
    OverlaySkip(m, ax, ay, ms[..k + 1], ms[k + 1..], r, c);
    assert ms[..k + 1][..k] == ms[..k];
  }

  // ------------------------------------------------ lemmas about the sight matrix

  /** Window cell (r, c) shows world cell (x, y). */
  predicate Shows(ax: int, ay: int, r: int, c: int, x: int, y: int) {
    x == ax - RADIUS + c && y == ay + RADIUS - r
  }

  lemma MarksHit(ax: int, ay: int, ps: seq<Plant>, fs: seq<Food>, ss: seq<Stone>, r: int, c: int, x: int, y: int)
    requires Shows(ax, ay, r, c, x, y)
    ensures forall k | 0 <= k < |ss| :: Hits(StoneMarks(ss)[k], ax, ay, r, c) <==> ss[k].x == x && ss[k].y == y
    ensures forall k | 0 <= k < |ss| :: StoneMarks(ss)[k].code == 13
    ensures forall k | 0 <= k < |fs| :: Hits(FoodMarks(fs)[k], ax, ay, r, c) <==> fs[k].x == x && fs[k].y == y
    ensures forall k | 0 <= k < |fs| :: FoodMarks(fs)[k].code == 12
    ensures forall k | 0 <= k < |ps| :: Hits(PlantMarks(ps)[k], ax, ay, r, c) <==> ps[k].x == x && ps[k].y == y
    ensures forall k | 0 <= k < |ps| :: PlantMarks(ps)[k].code == 8 + ps[k].stage
  {
  }

  /** Below the stones: the cell as drawn by plants and food alone. */
  lemma SightNoStone(ax: int, ay: int, ps: seq<Plant>, fs: seq<Food>, ss: seq<Stone>, r: int, c: int)
    requires InWindow(r, c) && !StoneAt(ss, ax - RADIUS + c, ay + RADIUS - r)
    ensures SightMatrix(ax, ay, ps, fs, ss)[r][c]
            == Overlay(BaseMatrix(ax, ay), ax, ay, PlantMarks(ps) + FoodMarks(fs))[r][c]
  {
    MarksHit(ax, ay, ps, fs, ss, r, c, ax - RADIUS + c, ay + RADIUS - r);
    OverlaySkip(BaseMatrix(ax, ay), ax, ay, PlantMarks(ps) + FoodMarks(fs), StoneMarks(ss), r, c);
  }

  /** Below the food: the cell as drawn by plants alone. */
  lemma SightNoFood(ax: int, ay: int, ps: seq<Plant>, fs: seq<Food>, r: int, c: int)
    requires InWindow(r, c) && !FoodAt(fs, ax - RADIUS + c, ay + RADIUS - r)
    ensures Overlay(BaseMatrix(ax, ay), ax, ay, PlantMarks(ps) + FoodMarks(fs))[r][c]
            == Overlay(BaseMatrix(ax, ay), ax, ay, PlantMarks(ps))[r][c]
  {
    MarksHit(ax, ay, ps, fs, [], r, c, ax - RADIUS + c, ay + RADIUS - r);
    OverlaySkip(BaseMatrix(ax, ay), ax, ay, PlantMarks(ps), FoodMarks(fs), r, c);
  }

  lemma SightStone(ax: int, ay: int, ps: seq<Plant>, fs: seq<Food>, ss: seq<Stone>, r: int, c: int)
    requires InWindow(r, c) && StoneAt(ss, ax - RADIUS + c, ay + RADIUS - r)
    ensures SightMatrix(ax, ay, ps, fs, ss)[r][c] == 13
  {
    var (x, y) := (ax - RADIUS + c, ay + RADIUS - r);
    MarksHit(ax, ay, ps, fs, ss, r, c, x, y);
    var i :| 0 <= i < |ss| && ss[i].x == x && ss[i].y == y;
    assert Hits(StoneMarks(ss)[i], ax, ay, r, c);
    OverlayCovered(BaseMatrix(ax, ay), ax, ay, PlantMarks(ps) + FoodMarks(fs), StoneMarks(ss), r, c, 13);
  }

  lemma SightFood(ax: int, ay: int, ps: seq<Plant>, fs: seq<Food>, r: int, c: int)
    requires InWindow(r, c) && FoodAt(fs, ax - RADIUS + c, ay + RADIUS - r)
    ensures Overlay(BaseMatrix(ax, ay), ax, ay, PlantMarks(ps) + FoodMarks(fs))[r][c] == 12
  {
    var (x, y) := (ax - RADIUS + c, ay + RADIUS - r);
    MarksHit(ax, ay, ps, fs, [], r, c, x, y);
    var i :| 0 <= i < |fs| && fs[i].x == x && fs[i].y == y;
    assert Hits(FoodMarks(fs)[i], ax, ay, r, c);
    OverlayCovered(BaseMatrix(ax, ay), ax, ay, PlantMarks(ps), FoodMarks(fs), r, c, 12);
  }

  lemma SightPlants(ax: int, ay: int, ps: seq<Plant>, r: int, c: int)
    requires InWindow(r, c)
    ensures var (x, y) := (ax - RADIUS + c, ay + RADIUS - r);
            var k := LastPlantAt(ps, x, y);
            Overlay(BaseMatrix(ax, ay), ax, ay, PlantMarks(ps))[r][c]
            == if k >= 0 then 8 + ps[k].stage else BaseCode(x, y)
  {
    var (x, y) := (ax - RADIUS + c, ay + RADIUS - r);
    var pm := PlantMarks(ps);
    MarksHit(ax, ay, ps, [], [], r, c, x, y);
    var k := LastPlantAt(ps, x, y);
    if k >= 0 {
      OverlayLast(BaseMatrix(ax, ay), ax, ay, pm, k, r, c);
    } else {
      OverlaySkip(BaseMatrix(ax, ay), ax, ay, [], pm, r, c);
      assert [] + pm == pm;
    }
  }

  /** The overlay order decides each cell: a stone wins over food, food over
      a plant, a plant over terrain, and of several plants the last one in
      the list wins. */
  lemma SightCell(ax: int, ay: int, ps: seq<Plant>, fs: seq<Food>, ss: seq<Stone>, r: int, c: int)
    requires InWindow(r, c)
    ensures SightMatrix(ax, ay, ps, fs, ss)[r][c] == CellCode(ax, ay, ps, fs, ss, r, c)
  {
    var (x, y) := (ax - RADIUS + c, ay + RADIUS - r);
    if StoneAt(ss, x, y) {
      SightStone(ax, ay, ps, fs, ss, r, c);
    } else {
      SightNoStone(ax, ay, ps, fs, ss, r, c);
      if FoodAt(fs, x, y) {
        SightFood(ax, ay, ps, fs, r, c);
      } else {
        SightNoFood(ax, ay, ps, fs, r, c);
        SightPlants(ax, ay, ps, r, c);
      }
    }
  }

  /** Entity codes (8 and above) appear exactly on the cells where a plant,
      a food or a stone stands; every other cell shows its terrain or
      out-of-bounds code. */
  lemma SightShowsEntities(ax: int, ay: int, ps: seq<Plant>, fs: seq<Food>, ss: seq<Stone>, r: int, c: int)
    requires StagesOk(ps)
    requires InWindow(r, c)
    ensures var (x, y) := (ax - RADIUS + c, ay + RADIUS - r);
            && (SightMatrix(ax, ay, ps, fs, ss)[r][c] >= 8 <==>
                  StoneAt(ss, x, y) || FoodAt(fs, x, y) || exists i | 0 <= i < |ps| :: ps[i].x == x && ps[i].y == y)
            && (SightMatrix(ax, ay, ps, fs, ss)[r][c] < 8 ==> SightMatrix(ax, ay, ps, fs, ss)[r][c] == BaseCode(x, y))
  {
    SightCell(ax, ay, ps, fs, ss, r, c);
    var (x, y) := (ax - RADIUS + c, ay + RADIUS - r);
    var k := LastPlantAt(ps, x, y);
    if k >= 0 {
      assert ps[k].x == x && ps[k].y == y;
    }
  }

  /** A stone on the same cell as a food item hides it. */
  lemma StoneHidesFood(ax: int, ay: int, ps: seq<Plant>, fs: seq<Food>, ss: seq<Stone>, i: int, j: int)
    requires 0 <= i < |ss| && 0 <= j < |fs|
    requires ss[i].x == fs[j].x && ss[i].y == fs[j].y
    requires InWindow(ay - ss[i].y + RADIUS, ss[i].x - ax + RADIUS)
    ensures SightMatrix(ax, ay, ps, fs, ss)[ay - ss[i].y + RADIUS][ss[i].x - ax + RADIUS] == 13
  {
    SightCell(ax, ay, ps, fs, ss, ay - ss[i].y + RADIUS, ss[i].x - ax + RADIUS);
  }

  /** The centre shows the agent's own cell like any other: with nothing on
      it, its terrain code, and no mark of the agent. */
  lemma CentreNotMarked(ax: int, ay: int, ps: seq<Plant>, fs: seq<Food>, ss: seq<Stone>)
    requires InGrid(ax, ay)
    requires !StoneAt(ss, ax, ay) && !FoodAt(fs, ax, ay)
    requires forall i | 0 <= i < |ps| :: !(ps[i].x == ax && ps[i].y == ay)
    ensures SightMatrix(ax, ay, ps, fs, ss)[RADIUS][RADIUS] == TileCode(TerrainAt(ax, ay))
  {
    SightCell(ax, ay, ps, fs, ss, RADIUS, RADIUS);
  }

  /** Beyond the east and north edges, swapping x and y swaps drop-off and
      dark forest. */
  lemma DiagonalMirror(x: int, y: int)
    requires x >= 0 && y >= 0 && x != y && !InGrid(x, y)
    ensures !InGrid(y, x)
    ensures BaseCode(x, y) == 5 <==> BaseCode(y, x) == 7
    ensures BaseCode(x, y) == 7 <==> BaseCode(y, x) == 5
  {
  }
}
